/**
 * The paragraph-list document of bcdoc/document.py and the paragraphs of
 * bcdoc/paragraph.py. They share one module because a paragraph consults its
 * document's `keep_data` flag on every write.
 *
 * A document holds an append-only list of paragraph objects and an
 * indentation counter that, unlike the style's, is not clamped at zero. A
 * paragraph is a text buffer that accepts writes only while its document keeps
 * data, and remembers the last character written to it.
 */
module DocumentModel {
  import opened Wrappers
  import opened Text
  import Style

  /** What a paragraph contributes to the document: its indentation and its text. */
  datatype Line = Line(indent: int, text: string)

  /** The text a write leaves behind: all of it while data is kept, nothing otherwise. */
  function Kept(keep: bool, s: string): string {
    if keep then s else ""
  }

  /** The last character of `s`, as `current_char` tracks it. */
  function LastChar(s: string): Option<char> {
    if s == "" then None else Some(s[|s| - 1])
  }

  /** `lines` with `s` appended to the text of the last line. */
  function AppendLast(lines: seq<Line>, s: string): (r: seq<Line>)
    requires |lines| > 0
    ensures |r| == |lines| && r[..|r| - 1] == lines[..|lines| - 1]
    ensures r[|r| - 1] == Line(lines[|lines| - 1].indent, lines[|lines| - 1].text + s)
  {
    var last := lines[|lines| - 1];
    lines[..|lines| - 1] + [Line(last.indent, last.text + s)]
  }

  lemma KeptConcat(keep: bool, a: string, b: string)
    ensures Kept(keep, a) + Kept(keep, b) == Kept(keep, a + b)
  {
  }

  lemma AppendLastTwice(lines: seq<Line>, a: string, b: string)
    requires |lines| > 0
    ensures AppendLast(AppendLast(lines, a), b) == AppendLast(lines, a + b)
  {
    assert lines[|lines| - 1].text + a + b == lines[|lines| - 1].text + (a + b);
  }

  class Paragraph {
    const doc: Document
    const width: int
    const initialIndent: int
    const subsequentIndent: int
    const linesBefore: nat
    const linesAfter: nat
    var text: string
    var currentChar: Option<char>

    /** `current_char` is always the last character of the text, `None` while it is empty. */
    ghost predicate Valid()
      reads this
    {
      currentChar == LastChar(text)
    }

    constructor (doc: Document, width: int, initialIndent: int)
      ensures Valid()
      ensures this.doc == doc && this.width == width && this.initialIndent == initialIndent
      ensures subsequentIndent == initialIndent
      ensures linesBefore == 0 && linesAfter == 1
      ensures text == "" && currentChar == None
    {
      this.doc := doc;
      this.width := width;
      this.initialIndent := initialIndent;
      this.subsequentIndent := initialIndent;
      this.linesBefore := 0;
      this.linesAfter := 1;
      this.text := "";
      this.currentChar := None;
    }

    /** Appends `s` only while the document keeps data; a non-empty write sets `current_char`. */
    method Write(s: string)
      requires Valid()
      modifies this
      ensures Valid()
      ensures text == old(text) + Kept(doc.keepData, s)
      ensures doc.keepData && s != "" ==> currentChar == Some(s[|s| - 1])
      ensures !doc.keepData || s == "" ==> currentChar == old(currentChar)
    {
      if doc.keepData {
        text := text + s;
        if s != "" {
          currentChar := Some(s[|s| - 1]);
        }
      }
    }

    /**
     * `wrap()`: `lines_before` newlines, the filled text, `lines_after`
     * newlines. `fill` stands for `textwrap.fill` with the paragraph's width
     * and indentations.
     */
    function Wrap(fill: (string, int, int, int) -> string): (r: string)
      reads this
      ensures |r| >= linesBefore + linesAfter
      ensures r[..linesBefore] == Repeat('\n', linesBefore)
      ensures r[|r| - linesAfter..] == Repeat('\n', linesAfter)
      ensures r[linesBefore..|r| - linesAfter] == fill(text, width, initialIndent, subsequentIndent)
    {
      var body := fill(text, width, initialIndent, subsequentIndent);
      var r := Repeat('\n', linesBefore) + body + Repeat('\n', linesAfter);
      assert r[..linesBefore] == Repeat('\n', linesBefore);
      assert r[linesBefore..|r| - linesAfter] == body;
      r
    }
  }

  /**
   * The `ReSTStyle` a document builds for itself (bcdoc/document.py:23), as
   * far as the HTML parser's tag handlers reach it: the paragraph-break flag,
   * the indentation counter (clamped at zero, indent width 2) and the pending
   * anchor target. Its `doc` is the document, which has no `write` method.
   */
  class DocumentStyle {
    var doP: bool
    var level: nat
    var aHref: Option<string>

    constructor ()
      ensures doP && level == 0 && aHref == None
    {
      doP := true;
      level := 0;
      aHref := None;
    }
  }

  class Document {
    const width: int
    const style: DocumentStyle
    var paragraphs: seq<Paragraph>
    var keepData: bool
    var doTranslation: bool
    var translationMap: map<string, string>
    var initialIndent: int
    var subsequentIndent: int
    /** What the paragraphs show: the indentation and text of each, in order. */
    ghost var lines: seq<Line>

    /** Paragraph `i` belongs to this document, keeps its own invariant, and `lines[i]` shows it. */
    ghost predicate Holds(i: int)
      reads this`paragraphs, this`lines, paragraphs
    {
      && 0 <= i < |paragraphs| && i < |lines|
      && paragraphs[i].doc == this && paragraphs[i].Valid()
      && lines[i] == Line(paragraphs[i].initialIndent, paragraphs[i].text)
    }

    /** Paragraphs `i` and `j` are different objects. */
    ghost predicate Apart(i: int, j: int)
      reads this`paragraphs
    {
      0 <= i < |paragraphs| && 0 <= j < |paragraphs| && paragraphs[i] != paragraphs[j]
    }

    /** Every paragraph is described by its line, and appears once. */
    ghost predicate Valid()
      reads this`paragraphs, this`lines, paragraphs
    {
      && |lines| == |paragraphs|
      && (forall i {:trigger Holds(i)} :: 0 <= i < |paragraphs| ==> Holds(i))
      && (forall i, j {:trigger Apart(i, j)} :: 0 <= i < j < |paragraphs| ==> Apart(i, j))
    }

    /**
     * A fresh document. `translationMap` is what the subclass's
     * `build_translation_map` fills in while the constructor runs.
     */
    constructor (translationMap: map<string, string>)
      ensures Valid() && paragraphs == [] && lines == []
      ensures keepData && !doTranslation && initialIndent == 0 && subsequentIndent == 0
      ensures width == 80 && this.translationMap == translationMap
      ensures fresh(style) && style.doP && style.level == 0 && style.aHref == None
    {
      style := new DocumentStyle();
      width := 80;
      paragraphs := [];
      lines := [];
      keepData := true;
      doTranslation := false;
      this.translationMap := translationMap;
      initialIndent := 0;
      subsequentIndent := 0;
    }

    /** Unlike the style's counter, this one is not clamped: it may go negative. */
    method Indent()
      modifies this`initialIndent
      ensures initialIndent == old(initialIndent) + 1
    {
      initialIndent := initialIndent + 1;
    }

    method Dedent()
      modifies this`initialIndent
      ensures initialIndent == old(initialIndent) - 1
    {
      initialIndent := initialIndent - 1;
    }

    function TranslateWords(words: seq<string>): (r: seq<string>)
      reads this
      ensures |r| == |words|
      ensures forall i :: 0 <= i < |words| && words[i] !in translationMap ==> r[i] == words[i]
      ensures forall i :: 0 <= i < |words| && words[i] in translationMap ==>
                r[i] == translationMap[words[i]]
    {
      Text.TranslateWords(translationMap, words)
    }

    /** Appends one fresh, empty paragraph at the current indentation and returns it. */
    method AddParagraph() returns (p: Paragraph)
      requires Valid()
      modifies this`paragraphs, this`lines
      ensures Valid() && fresh(p)
      ensures paragraphs == old(paragraphs) + [p]
      ensures p.doc == this && p.initialIndent == initialIndent && p.width == width
      ensures p.text == "" && p.currentChar == None
      ensures lines == old(lines) + [Line(initialIndent, "")]
    {
      p := new Paragraph(this, width, initialIndent);
      paragraphs := paragraphs + [p];
      lines := lines + [Line(initialIndent, "")];
      forall i | 0 <= i < |paragraphs| - 1 ensures Holds(i) {
        assert old(Holds(i));
      }
      assert Holds(|paragraphs| - 1);
      forall i, j | 0 <= i < j < |paragraphs| ensures Apart(i, j) {
        if j < |paragraphs| - 1 {
          assert old(Apart(i, j));
        } else {
          assert old(Holds(i));
        }
      }
    }

    /**
     * The last paragraph. On an empty list the source calls `add_paragraph`
     * with one argument too many, which raises a `TypeError`.
     */
    method GetCurrentParagraph() returns (r: Result<Paragraph>)
      ensures paragraphs == [] <==> r.Err?
      ensures r.Err? ==> r.error == TypeError
      ensures r.Ok? ==> r.value == paragraphs[|paragraphs| - 1]
    {
      if |paragraphs| == 0 {
        return Err(TypeError);
      }
      return Ok(paragraphs[|paragraphs| - 1]);
    }

    /** `para.write(s)` on the current paragraph, and what it does to the document's view. */
    method WriteParagraph(para: Paragraph, s: string)
      requires Valid() && paragraphs != [] && para == paragraphs[|paragraphs| - 1]
      modifies para, this`lines
      ensures Valid()
      ensures lines == AppendLast(old(lines), Kept(keepData, s))
      ensures para.currentChar == if keepData && s != "" then Some(s[|s| - 1]) else old(para.currentChar)
    {
      assert Holds(|paragraphs| - 1);
      para.Write(s);
      lines := AppendLast(lines, Kept(keepData, s));
      forall i | 0 <= i < |paragraphs| - 1 ensures Holds(i) {
        assert old(Holds(i)) && old(Apart(i, |paragraphs| - 1));
      }
      assert Holds(|paragraphs| - 1);
      forall i, j | 0 <= i < j < |paragraphs| ensures Apart(i, j) {
        assert old(Apart(i, j));
      }
    }

    /** `add_paragraph().write(s)`. */
    method AddLine(s: string)
      requires Valid()
      modifies this`paragraphs, this`lines
      ensures Valid() && |paragraphs| == old(|paragraphs|) + 1
      ensures lines == old(lines) + [Line(initialIndent, Kept(keepData, s))]
      ensures fresh(paragraphs[|paragraphs| - 1])
      ensures paragraphs[..old(|paragraphs|)] == old(paragraphs)
    {
      ghost var before := lines;
      var p := AddParagraph();
      WriteParagraph(p, s);
      assert "" + Kept(keepData, s) == Kept(keepData, s);
      assert (before + [Line(initialIndent, "")])[..|before|] == before;
    }

    /**
     * `handle_data`: nothing for empty data or while data is discarded;
     * whitespace is dropped while the current paragraph is still empty.
     */
    method HandleData(data: string) returns (r: Result<()>)
      requires Valid()
      modifies paragraphs, this`lines
      ensures Valid() && paragraphs == old(paragraphs)
      ensures r.Err? <==> data != "" && keepData && paragraphs == []
      ensures r.Err? ==> r.error == TypeError
      ensures paragraphs != [] ==>
        lines == if data == "" || !keepData || (old(paragraphs[|paragraphs| - 1].text) == "" && AllSpace(data))
                  then old(lines)
                  else AppendLast(old(lines), data)
      ensures paragraphs == [] ==> lines == old(lines)
    {
      r := Ok(());
      if data != "" && keepData {
        var current := GetCurrentParagraph();
        if current.Err? {
          return Err(current.error);
        }
        var paragraph := current.value;
        assert Holds(|paragraphs| - 1);
        if paragraph.currentChar == None && AllSpace(data) {
        } else {
          WriteParagraph(paragraph, data);
        }
      }
    }

    /**
     * `do_title`: the title as a level-one heading in a new paragraph,
     * followed by an empty paragraph.
     */
    method DoTitle(title: string)
      requires Valid()
      modifies this`paragraphs, this`lines
      ensures Valid() && |paragraphs| == old(|paragraphs|) + 2
      ensures lines == old(lines) + [Line(initialIndent, Kept(keepData, Style.H1Text(title))),
                                       Line(initialIndent, "")]
    {
      AddLine(Style.H1Text(title));
      var _ := AddParagraph();
    }

    /**
     * `do_description`: a DESCRIPTION heading, and, only for a non-empty
     * description, a new paragraph that receives `rendered`, the text the
     * doc-string parser leaves for it.
     */
    method DoDescription(description: string, rendered: string)
      requires Valid()
      modifies this`paragraphs, this`lines
      ensures Valid()
      ensures lines == old(lines) + [Line(initialIndent, Kept(keepData, Style.H2Text("DESCRIPTION")))]
                        + (if description == "" then [] else [Line(initialIndent, Kept(keepData, rendered))])
    {
      AddLine(Style.H2Text("DESCRIPTION"));
      if description != "" {
        AddLine(rendered);
      }
    }
  }
}
