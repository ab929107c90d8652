/**
 * The ReST markup style of bcdoc/style.py: an indentation counter that never
 * goes below zero, the paragraph-break flag `do_p`, the pending anchor
 * `a_href`, and the exact text every markup call appends to its document.
 *
 * The document the style writes to is an abstract buffer (`RestBuffer`) with
 * `write(s)` and `writeln(s) = write(s + "\n")`, the two flags the style sets
 * (`keep_data`, `do_translation`) and the render target (`man` or `html`).
 */
module Style {
  import opened Wrappers
  import opened Text

  // ---------------------------------------------------------------------
  // The text fragments, as functions of the style's state.

  /** `spaces()`: `level * width` blanks. */
  function Spaces(level: nat, width: nat): (r: string)
    ensures |r| == level * width
    ensures forall i :: 0 <= i < |r| ==> r[i] == ' '
  {
    Repeat(' ', level * width)
  }

  /** What `new_paragraph` (and `start_p`) appends: a blank line and the indentation, or nothing. */
  function Break(doP: bool, spaces: string): string {
    if doP then "\n\n" + spaces else ""
  }

  /** What `new_line` appends: a line break and the indentation, or nothing. */
  function NewLineText(doP: bool, spaces: string): string {
    if doP then "\n" + spaces else ""
  }

  /** A heading: the title between two border lines of its own length, between paragraph breaks. */
  function HeadingText(s: string, borderChar: char, doP: bool, spaces: string): (r: string)
  {
    var border := Repeat(borderChar, |s|);
    Break(doP, spaces) + border + "\n" + s + "\n" + border + Break(doP, spaces)
  }

  function BoldText(s: string): string {
    if s == "" then "" else "**" + s + "** "
  }

  function ItalicsText(s: string): string {
    if s == "" then "" else "*" + s + "* "
  }

  function CodeText(s: string): string {
    if s == "" then "" else "``" + s + "`` "
  }

  /** `ref(title, link)`: a `:doc:` role; the title doubles as the link when there is none. */
  function RefText(title: string, link: Option<string>): string {
    var target := if link.Some? then link.value else title;
    ":doc:`" + title + " <" + target + ">`"
  }

  /** One backtick per `href` attribute, in order (what `start_a` writes for a non-empty list). */
  function HrefTicks(attrs: seq<(string, string)>): string {
    if attrs == [] then ""
    else HrefTicks(attrs[..|attrs| - 1]) + (if attrs[|attrs| - 1].0 == "href" then "`" else "")
  }

  /** The anchor target after `start_a`: the value of the last `href` attribute, if any. */
  function LastHref(attrs: seq<(string, string)>, current: Option<string>): Option<string> {
    if attrs == [] then current
    else if attrs[|attrs| - 1].0 == "href" then Some(attrs[|attrs| - 1].1)
    else LastHref(attrs[..|attrs| - 1], current)
  }

  /** Python's truth value of `a_href`: set and non-empty. */
  predicate Truthy(s: Option<string>) {
    s.Some? && s.value != ""
  }

  function EndAText(href: Option<string>): string {
    (if Truthy(href) then " <" + href.value + ">`_" else "") + " "
  }

  /** `codeblock(code)`: the `::` marker, the code one level deeper, then back at `spaces`. */
  function CodeblockText(code: string, doP: bool, inner: string, spaces: string): string {
    "::" + Break(doP, inner) + code + "\n" + Break(doP, spaces)
  }

  /** Six pieces of text written one after another. */
  lemma Joined(a: string, b: string, c: string, d: string, e: string, f: string)
    ensures a + b + c + d + e + f == a + (b + c + d + e + f)
  {
  }

  /** `li(s)` for a non-empty `s`: a bullet, the item, and the line break that `end_li` adds. */
  function LiText(s: string, spaces: string): string {
    if s == "" then "" else "* " + s + "\n" + "\n" + spaces
  }

  /** `tocitem(item, file_name)`: a list item for man pages, else an indented line naming the file (or the item). */
  function TocItemText(target: string, item: string, fileName: Option<string>, spaces: string): string {
    if target == "man" then LiText(item, spaces)
    else "  " + (if Truthy(fileName) then fileName.value else item) + "\n"
  }

  const TocTreeHeader: string := "\n.. toctree::\n" + "  :maxdepth: 1\n" + "  :titlesonly:\n\n"

  /** The fragment the ReST style yields at depth zero with paragraph breaks on. */
  function H1Text(s: string): string { HeadingText(s, '*', true, "") }
  function H2Text(s: string): string { HeadingText(s, '=', true, "") }

  // ---------------------------------------------------------------------
  // Properties of the fragments.

  /** At depth zero a heading is the title between two borders of its exact length. */
  lemma HeadingLayout(s: string, c: char)
    ensures exists border: string ::
      && |border| == |s|
      && (forall i :: 0 <= i < |border| ==> border[i] == c)
      && HeadingText(s, c, true, "") == "\n\n" + border + "\n" + s + "\n" + border + "\n\n"
  {
    var border := Repeat(c, |s|);
    assert HeadingText(s, c, true, "") == "\n\n" + border + "\n" + s + "\n" + border + "\n\n";
  }

  /**
   * The text between an opening `marker` and a closing `marker + " "`, when
   * `t` is such a span around at least one character.
   */
  function Unmark(marker: string, t: string): Option<string> {
    if |t| > 2 * |marker| + 1 && t[..|marker|] == marker && t[|t| - |marker| - 1..] == marker + " "
    then Some(t[|marker|..|t| - |marker| - 1])
    else None
  }

  /**
   * Bold, italics and code markup read back: the text between the markers is
   * exactly the marked-up string, and empty text leaves no markup at all.
   */
  lemma InlineMarkupReadsBack(s: string)
    ensures Unmark("**", BoldText(s)) == if s == "" then None else Some(s)
    ensures Unmark("*", ItalicsText(s)) == if s == "" then None else Some(s)
    ensures Unmark("``", CodeText(s)) == if s == "" then None else Some(s)
  {
    if s != "" {
      var b, i, c := BoldText(s), ItalicsText(s), CodeText(s);
      assert b[..2] == "**" && b[|b| - 3..] == "** " && b[2..|b| - 3] == s;
      assert i[..1] == "*" && i[|i| - 2..] == "* " && i[1..|i| - 2] == s;
      assert c[..2] == "``" && c[|c| - 3..] == "`` " && c[2..|c| - 3] == s;
    }
  }

  /** With no `href` attribute `start_a` writes nothing and keeps the pending target. */
  lemma {:induction false} NoHref(attrs: seq<(string, string)>, current: Option<string>)
    requires forall i :: 0 <= i < |attrs| ==> attrs[i].0 != "href"
    ensures HrefTicks(attrs) == "" && LastHref(attrs, current) == current
  {
    if attrs != [] {
      NoHref(attrs[..|attrs| - 1], current);
    }
  }

  /** `start_a` writes exactly one backtick per `href` attribute. */
  lemma {:induction false} TickCount(attrs: seq<(string, string)>)
    ensures |HrefTicks(attrs)| == |set i | 0 <= i < |attrs| && attrs[i].0 == "href"|
    ensures forall k :: 0 <= k < |HrefTicks(attrs)| ==> HrefTicks(attrs)[k] == '`'
  {
    if attrs != [] {
      var n := |attrs| - 1;
      TickCount(attrs[..n]);
      var before := set i | 0 <= i < n && attrs[..n][i].0 == "href";
      var all := set i | 0 <= i < |attrs| && attrs[i].0 == "href";
      if attrs[n].0 == "href" {
        assert all == before + {n};
      } else {
        assert all == before;
      }
    }
  }

  // ---------------------------------------------------------------------
  // The document buffer.

  class RestBuffer {
    var text: string
    var keepData: bool
    var doTranslation: bool
    var target: string

    constructor (target: string)
      ensures text == "" && keepData && !doTranslation && this.target == target
    {
      text := "";
      keepData := true;
      doTranslation := false;
      this.target := target;
    }

    method Write(s: string)
      modifies this`text
      ensures text == old(text) + s
    {
      text := text + s;
    }

    method Writeln(s: string)
      modifies this`text
      ensures text == old(text) + s + "\n"
    {
      Write(s + "\n");
    }
  }

  // ---------------------------------------------------------------------
  // The style.

  class ReSTStyle {
    const doc: RestBuffer
    const indentWidth: nat
    var level: nat
    var keepData: bool
    var doP: bool
    var aHref: Option<string>

    constructor (doc: RestBuffer, indentWidth: nat)
      ensures this.doc == doc && this.indentWidth == indentWidth
      ensures level == 0 && keepData && doP && aHref == None
    {
      this.doc := doc;
      this.indentWidth := indentWidth;
      level := 0;
      keepData := true;
      doP := true;
      aHref := None;
    }

    function CurrentSpaces(): string
      reads this
    {
      Spaces(level, indentWidth)
    }

    /** `BaseStyle.new_paragraph`, which returns the break instead of writing it. */
    function BaseNewParagraph(): (r: string)
      reads this
      ensures |r| == 1 + level * indentWidth && r[0] == '\n'
    {
      "\n" + CurrentSpaces()
    }

    method Indent()
      modifies this`level
      ensures level == old(level) + 1
    {
      level := level + 1;
    }

    /** Never takes the indentation below zero. */
    method Dedent()
      modifies this`level
      ensures level == if old(level) > 0 then old(level) - 1 else 0
    {
      if level > 0 {
        level := level - 1;
      }
    }

    method NewParagraph()
      modifies doc`text
      ensures doc.text == old(doc.text) + Break(doP, CurrentSpaces())
    {
      if doP {
        doc.Write("\n\n" + CurrentSpaces());
      }
    }

    method NewLine()
      modifies doc`text
      ensures doc.text == old(doc.text) + NewLineText(doP, CurrentSpaces())
    {
      if doP {
        doc.Write("\n" + CurrentSpaces());
      }
    }

    method StartBold()
      modifies doc`text
      ensures doc.text == old(doc.text) + "**"
    {
      doc.Write("**");
    }

    method EndBold()
      modifies doc`text
      ensures doc.text == old(doc.text) + "** "
    {
      doc.Write("** ");
    }

    method StartB()
      modifies doc`text, doc`doTranslation
      ensures doc.doTranslation
      ensures doc.text == old(doc.text) + "**"
    {
      doc.doTranslation := true;
      StartBold();
    }

    method EndB()
      modifies doc`text, doc`doTranslation
      ensures !doc.doTranslation
      ensures doc.text == old(doc.text) + "** "
    {
      doc.doTranslation := false;
      doc.Write("** ");
    }

    method Bold(s: string)
      modifies doc`text
      ensures doc.text == old(doc.text) + BoldText(s)
    {
      if s != "" {
        StartBold();
        doc.Write(s);
        EndBold();
      }
    }

    method Ref(title: string, link: Option<string>)
      modifies doc`text
      ensures doc.text == old(doc.text) + RefText(title, link)
    {
      var target := if link.None? then title else link.value;
      doc.Write(":doc:`" + title + " <" + target + ">`");
    }

    method Heading(s: string, borderChar: char)
      modifies doc`text
      ensures doc.text == old(doc.text) + HeadingText(s, borderChar, doP, CurrentSpaces())
    {
      var border := Repeat(borderChar, |s|);
      NewParagraph();
      doc.Write(border + "\n" + s + "\n" + border);
      NewParagraph();
    }

    method H1(s: string)
      modifies doc`text
      ensures doc.text == old(doc.text) + HeadingText(s, '*', doP, CurrentSpaces())
    {
      Heading(s, '*');
    }

    method H2(s: string)
      modifies doc`text
      ensures doc.text == old(doc.text) + HeadingText(s, '=', doP, CurrentSpaces())
    {
      Heading(s, '=');
    }

    method H3(s: string)
      modifies doc`text
      ensures doc.text == old(doc.text) + HeadingText(s, '-', doP, CurrentSpaces())
    {
      Heading(s, '-');
    }

    method StartItalics()
      modifies doc`text
      ensures doc.text == old(doc.text) + "*"
    {
      doc.Write("*");
    }

    method EndItalics()
      modifies doc`text
      ensures doc.text == old(doc.text) + "* "
    {
      doc.Write("* ");
    }

    method Italics(s: string)
      modifies doc`text
      ensures doc.text == old(doc.text) + ItalicsText(s)
    {
      if s != "" {
        StartItalics();
        doc.Write(s);
        EndItalics();
      }
    }

    method StartP()
      modifies doc`text
      ensures doc.text == old(doc.text) + Break(doP, CurrentSpaces())
    {
      if doP {
        doc.Write("\n\n" + CurrentSpaces());
      }
    }

    method EndP()
      modifies doc`text
      ensures doc.text == old(doc.text) + (if doP then "\n\n" else "")
    {
      if doP {
        doc.Write("\n\n");
      }
    }

    method StartCode()
      modifies doc`text, doc`doTranslation
      ensures doc.doTranslation
      ensures doc.text == old(doc.text) + "``"
    {
      doc.doTranslation := true;
      doc.Write("``");
    }

    method EndCode()
      modifies doc`text, doc`doTranslation
      ensures !doc.doTranslation
      ensures doc.text == old(doc.text) + "`` "
    {
      doc.doTranslation := false;
      doc.Write("`` ");
    }

    /** Leaves `do_translation` false when it writes anything (it brackets `s` with code markers). */
    method Code(s: string)
      modifies doc`text, doc`doTranslation
      ensures doc.text == old(doc.text) + CodeText(s)
      ensures doc.doTranslation == if s == "" then old(doc.doTranslation) else false
    {
      if s != "" {
        StartCode();
        doc.Write(s);
        EndCode();
      }
    }

    /** Opens an admonition: the directive, then one level deeper. */
    method StartAdmonition(directive: string)
      modifies doc`text, this`level
      ensures level == old(level) + 1
      ensures doc.text == old(doc.text) + Break(doP, old(CurrentSpaces())) + directive
                          + Break(doP, CurrentSpaces())
    {
      NewParagraph();
      doc.Write(directive);
      Indent();
      NewParagraph();
    }

    method StartNote()
      modifies doc`text, this`level
      ensures level == old(level) + 1
      ensures doc.text == old(doc.text) + Break(doP, old(CurrentSpaces())) + ".. note::"
                          + Break(doP, CurrentSpaces())
    {
      StartAdmonition(".. note::");
    }

    method EndNote()
      modifies doc`text, this`level
      ensures level == if old(level) > 0 then old(level) - 1 else 0
      ensures doc.text == old(doc.text) + Break(doP, CurrentSpaces())
    {
      Dedent();
      NewParagraph();
    }

    method StartImportant()
      modifies doc`text, this`level
      ensures level == old(level) + 1
      ensures doc.text == old(doc.text) + Break(doP, old(CurrentSpaces())) + ".. warning::"
                          + Break(doP, CurrentSpaces())
    {
      StartAdmonition(".. warning::");
    }

    method EndImportant()
      modifies doc`text, this`level
      ensures level == if old(level) > 0 then old(level) - 1 else 0
      ensures doc.text == old(doc.text) + Break(doP, CurrentSpaces())
    {
      Dedent();
      NewParagraph();
    }

    /**
     * An anchor. An empty attribute list (Python's falsy `attrs`) writes one
     * space; otherwise every `href` attribute stores its URL and writes a backtick.
     */
    method StartA(attrs: seq<(string, string)>)
      modifies doc`text, doc`doTranslation, this`aHref
      ensures doc.doTranslation
      ensures attrs == [] ==> doc.text == old(doc.text) + " " && aHref == old(aHref)
      ensures attrs != [] ==> doc.text == old(doc.text) + HrefTicks(attrs)
      ensures aHref == LastHref(attrs, old(aHref))
    {
      if attrs != [] {
        var i := 0;
        while i < |attrs|
          invariant 0 <= i <= |attrs|
          invariant doc.text == old(doc.text) + HrefTicks(attrs[..i])
          invariant aHref == LastHref(attrs[..i], old(aHref))
        {
          assert attrs[..i + 1][..i] == attrs[..i];
          if attrs[i].0 == "href" {
            aHref := Some(attrs[i].1);
            doc.Write("`");
          }
          i := i + 1;
        }
        assert attrs[..|attrs|] == attrs;
      } else {
        doc.Write(" ");
      }
      doc.doTranslation := true;
    }

    /** Closes an anchor: ` <url>`_` for a pending non-empty target, then a space. */
    method EndA()
      modifies doc`text, doc`doTranslation, this`aHref
      ensures !doc.doTranslation
      ensures doc.text == old(doc.text) + EndAText(old(aHref))
      ensures aHref == if Truthy(old(aHref)) then None else old(aHref)
    {
      doc.doTranslation := false;
      if aHref.Some? && aHref.value != "" {
        doc.Write(" <" + aHref.value + ">");
        aHref := None;
        doc.Write("`_");
      }
      doc.Write(" ");
    }

    method StartI()
      modifies doc`text, doc`doTranslation
      ensures doc.doTranslation
      ensures doc.text == old(doc.text) + "*"
    {
      doc.doTranslation := true;
      StartItalics();
    }

    method EndI()
      modifies doc`text, doc`doTranslation
      ensures !doc.doTranslation
      ensures doc.text == old(doc.text) + "* "
    {
      doc.doTranslation := false;
      EndItalics();
    }

    /** Inside a list item paragraph breaks are suppressed. */
    method StartLi()
      modifies doc`text, this`doP
      ensures !doP
      ensures doc.text == old(doc.text) + "* "
    {
      doP := false;
      doc.Write("* ");
    }

    method EndLi()
      modifies doc`text, this`doP
      ensures doP
      ensures doc.text == old(doc.text) + "\n" + CurrentSpaces()
    {
      doP := true;
      NewLine();
    }

    method Li(s: string)
      modifies doc`text, this`doP
      ensures doP == (s != "" || old(doP))
      ensures doc.text == old(doc.text) + LiText(s, CurrentSpaces())
    {
      if s != "" {
        StartLi();
        doc.Writeln(s);
        EndLi();
      }
    }

    method StartUl()
      modifies doc`text
      ensures doc.text == old(doc.text) + Break(doP, CurrentSpaces())
    {
      NewParagraph();
    }

    method EndUl()
      modifies doc`text
      ensures doc.text == old(doc.text) + Break(doP, CurrentSpaces())
    {
      NewParagraph();
    }

    method StartOl()
      modifies doc`text
      ensures doc.text == old(doc.text) + Break(doP, CurrentSpaces())
    {
      NewParagraph();
    }

    method EndOl()
      modifies doc`text
      ensures doc.text == old(doc.text) + Break(doP, CurrentSpaces())
    {
      NewParagraph();
    }

    /** Examples are parsed but their text is discarded until `end_examples`. */
    method StartExamples()
      modifies doc`keepData
      ensures !doc.keepData
    {
      doc.keepData := false;
    }

    method EndExamples()
      modifies doc`keepData
      ensures doc.keepData
    {
      doc.keepData := true;
    }

    method StartFullname()
      modifies doc`keepData
      ensures !doc.keepData
    {
      doc.keepData := false;
    }

    method EndFullname()
      modifies doc`keepData
      ensures doc.keepData
    {
      doc.keepData := true;
    }

    method StartCodeblock()
      modifies doc`text, this`level
      ensures level == old(level) + 1
      ensures doc.text == old(doc.text) + "::" + Break(doP, CurrentSpaces())
    {
      doc.Write("::");
      Indent();
      NewParagraph();
    }

    method EndCodeblock()
      modifies doc`text, this`level
      ensures level == if old(level) > 0 then old(level) - 1 else 0
      ensures doc.text == old(doc.text) + Break(doP, CurrentSpaces())
    {
      Dedent();
      NewParagraph();
    }

    /**
     * A ReST literal block: the `::` marker, the code indented one level
     * deeper, separated by blank lines; the indentation is unchanged afterwards.
     */
    method Codeblock(code: string)
      modifies doc`text, this`level
      ensures level == old(level)
      ensures doc.text == old(doc.text)
                          + CodeblockText(code, doP, Spaces(level + 1, indentWidth), CurrentSpaces())
    {
      ghost var before, outer := doc.text, CurrentSpaces();
      StartCodeblock();
      ghost var inner := CurrentSpaces();
      doc.Writeln(code);
      EndCodeblock();
      assert CurrentSpaces() == outer;
      Joined(before, "::", Break(doP, inner), code, "\n", Break(doP, outer));
    }

    /** A Sphinx `toctree` directive for html; a plain list opener for every other target. */
    method TocTree()
      modifies doc`text
      ensures doc.target == "html" ==> doc.text == old(doc.text) + TocTreeHeader
      ensures doc.target != "html" ==> doc.text == old(doc.text) + Break(doP, CurrentSpaces())
    {
      if doc.target == "html" {
        doc.Write("\n.. toctree::\n");
        doc.Write("  :maxdepth: 1\n");
        doc.Write("  :titlesonly:\n\n");
      } else {
        StartUl();
      }
    }

    /** A list item for man pages; otherwise an indented reference to the file (or the item). */
    method TocItem(item: string, fileName: Option<string>)
      modifies doc`text, this`doP
      ensures doc.text == old(doc.text) + TocItemText(doc.target, item, fileName, CurrentSpaces())
      ensures doc.target != "man" ==> doP == old(doP)
    {
      if doc.target == "man" {
        Li(item);
      } else if fileName.Some? && fileName.value != "" {
        doc.Writeln("  " + fileName.value);
      } else {
        doc.Writeln("  " + item);
      }
    }
  }
}

/** The expected outputs of the style's unit tests, derived from the model. */
module StyleExamples {
  import opened Wrappers
  import opened Style

  /** Indentation with width 4: two levels deep, then back, and a third dedent stays at zero. */
  method SpacesSequence() returns (widths: seq<string>)
    ensures widths == ["", "    ", "        ", "    ", "", ""]
  {
    var doc := new RestBuffer("man");
    var style := new ReSTStyle(doc, 4);
    assert Spaces(1, 4) == "    " && Spaces(2, 4) == "        ";
    widths := [style.CurrentSpaces()];
    style.Indent();
    widths := widths + [style.CurrentSpaces()];
    style.Indent();
    widths := widths + [style.CurrentSpaces()];
    style.Dedent();
    widths := widths + [style.CurrentSpaces()];
    style.Dedent();
    widths := widths + [style.CurrentSpaces()];
    style.Dedent();
    widths := widths + [style.CurrentSpaces()];
  }

  /** A level-one heading on a fresh document. */
  method H1Output() returns (text: string)
    ensures text == "\n\n*************\nfoobar fiebaz\n*************\n\n"
  {
    var doc := new RestBuffer("man");
    var style := new ReSTStyle(doc, 2);
    style.H1("foobar fiebaz");
    text := doc.text;
  }

  /** A literal block on a fresh document: the code one level deeper, blank lines around. */
  method CodeblockOutput() returns (text: string)
    ensures text == "::\n\n  foobar\n\n\n"
  {
    var doc := new RestBuffer("man");
    var style := new ReSTStyle(doc, 2);
    style.Codeblock("foobar");
    text := doc.text;
  }

  /** A table of contents of two items for html. */
  method TocTreeHtmlOutput() returns (text: string)
    ensures text == TocTreeHeader + "  foo\n  bar\n"
  {
    var doc := new RestBuffer("html");
    var style := new ReSTStyle(doc, 2);
    style.TocTree();
    assert doc.text == TocTreeHeader;
    style.TocItem("foo", None);
    assert doc.text == TocTreeHeader + "  foo\n";
    style.TocItem("bar", None);
    text := doc.text;
  }

  /** A table of contents of two items for man pages: a list of two bullets. */
  method TocTreeManOutput() returns (text: string)
    ensures text == "\n\n* foo\n\n* bar\n\n"
  {
    var doc := new RestBuffer("man");
    var style := new ReSTStyle(doc, 2);
    style.TocTree();
    style.TocItem("foo", None);
    style.TocItem("bar", None);
    text := doc.text;
  }

  /** Inside a list item paragraph and line breaks write nothing; closing it restores them. */
  method ListItemBreaks() returns (text: string)
    ensures text == "* x\n\n"
  {
    var doc := new RestBuffer("man");
    var style := new ReSTStyle(doc, 2);
    style.StartLi();
    style.NewParagraph();
    style.StartP();
    style.EndP();
    style.NewLine();
    doc.Write("x");
    style.EndLi();
    style.NewLine();
    text := doc.text;
  }
}
