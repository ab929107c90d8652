/**
 * The callbacks of bcdoc/htmlparser.py's `HelpParser`. Tokenising the HTML is
 * the library's job; the model starts from the callbacks it makes: a start
 * tag, an end tag, or a run of text.
 *
 * Tags are dispatched by handler name: a tag is handled when the ReST style
 * has a `start_<tag>` (or `end_<tag>`) method. Text runs are normalised:
 * whitespace collapses, each word is translated through the document's map,
 * and one trailing space survives when the run ended in whitespace.
 */
module HtmlParser {
  import opened Wrappers
  import opened Text
  import opened DocumentModel
  import Style

  /** The tags for which the ReST style defines both `start_<tag>` and `end_<tag>`. */
  const StyleTags: set<string> := {
    "bold", "b", "italics", "p", "code", "note", "important", "a", "i",
    "li", "ul", "ol", "examples", "fullname", "codeblock"
  }

  /**
   * The effective `handle_data` normalisation (the later of the two
   * definitions in the source). A whitespace-only run becomes one space; any
   * other run becomes its translated words joined by single spaces, plus one
   * space when it ended in whitespace. An empty run fails at `data[-1]`.
   */
  function NormalizeData(data: string, m: map<string, string>): (r: Result<string>)
    ensures r.Err? <==> data == ""
    ensures r.Err? ==> r.error == IndexError
    ensures AllSpace(data) ==> r == Ok(" ")
  {
    if AllSpace(data) then Ok(" ")
    else if data == [] then Err(IndexError)
    else
      var words := TranslateWords(m, Split(data));
      Ok(Join(words, " ") + (if IsSpace(data[|data| - 1]) then " " else ""))
  }

  /** Whitespace only as single `' '` characters, each after a non-whitespace one. */
  predicate Collapsed(s: string) {
    forall i :: 0 <= i < |s| && IsSpace(s[i]) ==> s[i] == ' ' && i > 0 && !IsSpace(s[i - 1])
  }

  lemma {:induction false} JoinShape(ws: seq<string>)
    requires AllWords(ws) && ws != []
    ensures var j := Join(ws, " "); |j| > 0 && Collapsed(j) && !IsSpace(j[|j| - 1])
    decreases |ws|
  {
    if |ws| > 1 {
      JoinShape(ws[1..]);
      var rest := Join(ws[1..], " ");
      var j := ws[0] + " " + rest;
      assert forall i :: 0 <= i < |ws[0]| ==> j[i] == ws[0][i];
      assert forall i :: |ws[0]| < i < |j| ==> j[i] == rest[i - |ws[0]| - 1];
      assert j[|j| - 1] == rest[|rest| - 1];
    }
  }

  lemma SpaceAround(w: string, rest: string)
    ensures w + " " + rest + " " == w + (" " + (rest + " "))
  {
  }

  /** Joined words followed by one space split back into the same words. */
  lemma {:induction false} SplitJoinSpace(ws: seq<string>)
    requires AllWords(ws)
    ensures Split(Join(ws, " ") + " ") == ws
    decreases |ws|
  {
    if |ws| == 1 {
      SplitEmpty(" ");
      SplitAfterWord(ws[0], " ");
    } else if |ws| > 1 {
      var rest := Join(ws[1..], " ");
      SplitJoinSpace(ws[1..]);
      var tail := " " + (rest + " ");
      assert Join(ws, " ") == ws[0] + " " + rest;
      SpaceAround(ws[0], rest);
      SplitAfterWord(ws[0], tail);
      SplitLeadingSpace(tail);
      assert tail[1..] == rest + " ";
      assert [ws[0]] + ws[1..] == ws;
    }
  }

  /**
   * For a run that is neither empty nor whitespace-only, and a map whose
   * replacements are single words: the result's words are exactly the
   * translated words of the run, its whitespace is collapsed (none leading,
   * never two in a row), and it ends in a space if and only if the run did.
   */
  lemma NormalizedText(data: string, m: map<string, string>)
    requires data != "" && !AllSpace(data) && WordValues(m)
    ensures NormalizeData(data, m).Ok?
    ensures var r := NormalizeData(data, m).value;
      && |r| > 0
      && Split(r) == TranslateWords(m, Split(data))
      && Collapsed(r)
      && (IsSpace(r[|r| - 1]) <==> IsSpace(data[|data| - 1]))
  {
    var words := TranslateWords(m, Split(data));
    SplitEmpty(data);
    TranslateKeepsWords(m, Split(data));
    var t := if IsSpace(data[|data| - 1]) then " " else "";
    var r := Join(words, " ") + t;
    assert NormalizeData(data, m).value == r;
    if t == "" {
      SplitJoin(words);
      assert r == Join(words, " ");
    } else {
      SplitJoinSpace(words);
    }
    JoinShape(words);
    var j := Join(words, " ");
    forall i | 0 <= i < |r| && IsSpace(r[i]) ensures r[i] == ' ' && i > 0 && !IsSpace(r[i - 1]) {
      if i < |j| {
        assert r[i] == j[i];
        if i > 0 { assert r[i - 1] == j[i - 1]; }
      }
    }
  }

  /** With an empty map the words of the result are exactly the words of the run. */
  lemma NormalizedKeepsWords(data: string)
    requires data != "" && !AllSpace(data)
    ensures Split(NormalizeData(data, map[]).value) == Split(data)
  {
    NormalizedText(data, map[]);
  }

  // ---------------------------------------------------------------------
  // The style's tag handlers, run on a `Document`.
  //
  // A document's style is a `ReSTStyle` whose `doc` is the document itself,
  // and `Document` has no `write` method: a handler returns normally only if
  // it never reaches `self.doc.write`. Every handler returns `None`, so the
  // parser's `if s:` write after a handled tag never happens.

  /** The value of the first `href` attribute: where `start_a` stops, at its first write. */
  function FirstHref(attrs: seq<(string, string)>): Option<string> {
    if attrs == [] then None
    else if attrs[0].0 == "href" then Some(attrs[0].1)
    else FirstHref(attrs[1..])
  }

  /** Whether `start_<tag>` returns on a document's style, with `do_p` as given. */
  predicate StartReturns(tag: string, attrs: seq<(string, string)>, doP: bool) {
    || tag == "examples" || tag == "fullname"
    || ((tag == "p" || tag == "ul" || tag == "ol") && !doP)
    || (tag == "a" && attrs != [] && FirstHref(attrs) == None)
  }

  /** Whether `end_<tag>` returns on a document's style, with `do_p` as given. */
  predicate EndReturns(tag: string, doP: bool) {
    || tag == "examples" || tag == "fullname"
    || ((tag == "p" || tag == "ul" || tag == "ol" || tag == "note" || tag == "important"
         || tag == "codeblock") && !doP)
  }

  /**
   * The text `start_<tag>` writes on a buffer that does have `write`, as the
   * `Style.ReSTStyle` methods state it; `spaces` and `inner` are the
   * indentation before and after the handler's own `indent`.
   */
  function StartText(tag: string, attrs: seq<(string, string)>, doP: bool, spaces: string, inner: string): string {
    if tag == "bold" || tag == "b" then "**"
    else if tag == "italics" || tag == "i" then "*"
    else if tag == "code" then "``"
    else if tag == "p" || tag == "ul" || tag == "ol" then Style.Break(doP, spaces)
    else if tag == "note" then Style.Break(doP, spaces) + ".. note::" + Style.Break(doP, inner)
    else if tag == "important" then Style.Break(doP, spaces) + ".. warning::" + Style.Break(doP, inner)
    else if tag == "a" then (if attrs == [] then " " else Style.HrefTicks(attrs))
    else if tag == "li" then "* "
    else if tag == "codeblock" then "::" + Style.Break(doP, inner)
    else ""
  }

  /**
   * The text `end_<tag>` writes on a buffer that does have `write`, as the
   * `Style.ReSTStyle` methods state it; `spaces` is the indentation after the
   * handler's own `dedent`.
   */
  function EndText(tag: string, doP: bool, aHref: Option<string>, spaces: string): string {
    if tag == "bold" || tag == "b" then "** "
    else if tag == "italics" || tag == "i" then "* "
    else if tag == "code" then "`` "
    else if tag == "p" then (if doP then "\n\n" else "")
    else if tag == "ul" || tag == "ol" || tag == "note" || tag == "important" || tag == "codeblock"
      then Style.Break(doP, spaces)
    else if tag == "a" then Style.EndAText(aHref)
    else if tag == "li" then Style.NewLineText(true, spaces)
    else ""
  }

  /** `FirstHref` finds the earliest `href` attribute, and none exactly when there is none. */
  lemma {:induction false} FirstHrefIsFirst(attrs: seq<(string, string)>)
    ensures FirstHref(attrs) == None <==> forall i :: 0 <= i < |attrs| ==> attrs[i].0 != "href"
    ensures FirstHref(attrs).Some? ==>
      exists k :: 0 <= k < |attrs| && attrs[k].0 == "href" && FirstHref(attrs) == Some(attrs[k].1)
        && forall i :: 0 <= i < k ==> attrs[i].0 != "href"
  {
    if attrs != [] && attrs[0].0 != "href" {
      FirstHrefIsFirst(attrs[1..]);
      if FirstHref(attrs).Some? {
        var k :| 0 <= k < |attrs[1..]| && attrs[1..][k].0 == "href" && FirstHref(attrs[1..]) == Some(attrs[1..][k].1)
          && forall i :: 0 <= i < k ==> attrs[1..][i].0 != "href";
        assert attrs[k + 1] == attrs[1..][k];
        forall i | 0 <= i < k + 1 ensures attrs[i].0 != "href" {
          if i > 0 { assert attrs[i] == attrs[1..][i - 1]; }
        }
      } else {
        forall i | 0 <= i < |attrs| ensures attrs[i].0 != "href" {
          if i > 0 { assert attrs[i] == attrs[1..][i - 1]; }
        }
      }
    }
  }

  /** `start_a` writes no backtick exactly when no attribute is an `href`. */
  lemma NoTicksNoHref(attrs: seq<(string, string)>)
    ensures Style.HrefTicks(attrs) == "" <==> FirstHref(attrs) == None
  {
    FirstHrefIsFirst(attrs);
    if FirstHref(attrs) == None {
      Style.NoHref(attrs, None);
    } else {
      var k :| 0 <= k < |attrs| && attrs[k].0 == "href";
      Style.TickCount(attrs);
      var hrefs := set i | 0 <= i < |attrs| && attrs[i].0 == "href";
      assert k in hrefs;
      assert |hrefs| > 0;
    }
  }

  /**
   * On a document, a start-tag handler returns exactly when, on a buffer that
   * has `write`, it would have written nothing.
   */
  lemma StartReturnsIffSilent(tag: string, attrs: seq<(string, string)>, doP: bool, spaces: string, inner: string)
    requires tag in StyleTags
    ensures StartReturns(tag, attrs, doP) <==> StartText(tag, attrs, doP, spaces, inner) == ""
  {
    if tag == "a" && attrs != [] {
      NoTicksNoHref(attrs);
    }
  }

  /**
   * On a document, an end-tag handler returns exactly when, on a buffer that
   * has `write`, it would have written nothing.
   */
  lemma EndReturnsIffSilent(tag: string, doP: bool, aHref: Option<string>, spaces: string)
    requires tag in StyleTags
    ensures EndReturns(tag, doP) <==> EndText(tag, doP, aHref, spaces) == ""
  {
  }

  class HelpParser {
    const doc: Document
    var unhandledTags: seq<string>

    constructor (doc: Document)
      ensures this.doc == doc && unhandledTags == []
    {
      this.doc := doc;
      unhandledTags := [];
    }

    /**
     * `handle_starttag`. A tag without a style handler is recorded, in order.
     * A handled tag runs `start_<tag>` on the document's style: `examples`
     * and `fullname` stop keeping data; `b`, `code` and `i` turn translation
     * on, `li` turns paragraph breaks off and `a` stores the first `href`,
     * each just before the write that fails; `a` with attributes but no
     * `href` turns translation on and returns. Nothing is written to a paragraph.
     */
    method HandleStartTag(tag: string, attrs: seq<(string, string)>) returns (r: Result<()>)
      modifies this`unhandledTags, doc`keepData, doc`doTranslation, doc.style
      ensures tag !in StyleTags ==> unhandledTags == old(unhandledTags) + [tag]
      ensures tag in StyleTags ==> unhandledTags == old(unhandledTags)
      ensures r.Ok? <==> tag !in StyleTags || StartReturns(tag, attrs, old(doc.style.doP))
      ensures r.Err? ==> r.error == AttributeError
      ensures doc.keepData == if tag == "examples" || tag == "fullname" then false else old(doc.keepData)
      ensures doc.doTranslation ==
        if tag == "b" || tag == "code" || tag == "i" || (tag == "a" && r.Ok?) then true
        else old(doc.doTranslation)
      ensures doc.style.doP == if tag == "li" then false else old(doc.style.doP)
      ensures doc.style.aHref ==
        if tag == "a" && FirstHref(attrs).Some? then FirstHref(attrs) else old(doc.style.aHref)
      ensures doc.style.level == old(doc.style.level)
    {
      if tag !in StyleTags {
        unhandledTags := unhandledTags + [tag];
        return Ok(());
      }
      if tag == "examples" || tag == "fullname" {
        doc.keepData := false;
        return Ok(());
      }
      if tag == "b" || tag == "code" || tag == "i" {
        doc.doTranslation := true;
        return Err(AttributeError);
      }
      if tag == "li" {
        doc.style.doP := false;
        return Err(AttributeError);
      }
      if tag == "p" || tag == "ul" || tag == "ol" {
        return if doc.style.doP then Err(AttributeError) else Ok(());
      }
      if tag == "a" {
        if attrs == [] {
          return Err(AttributeError);
        }
        var i := 0;
        while i < |attrs|
          invariant 0 <= i <= |attrs|
          invariant FirstHref(attrs[i..]) == FirstHref(attrs)
        {
          if attrs[i].0 == "href" {
            doc.style.aHref := Some(attrs[i].1);
            return Err(AttributeError);
          }
          assert attrs[i..][1..] == attrs[i + 1..];
          i := i + 1;
        }
        doc.doTranslation := true;
        return Ok(());
      }
      // bold, italics, note, important and codeblock write before anything else.
      return Err(AttributeError);
    }

    /**
     * `handle_endtag`. A tag without a style handler writes one space to the
     * current paragraph. A handled tag runs `end_<tag>` on the document's
     * style: `examples` and `fullname` keep data again; `b`, `code`, `a` and
     * `i` turn translation off, `li` turns paragraph breaks back on and
     * `note`, `important` and `codeblock` dedent, each before the write that fails.
     */
    method HandleEndTag(tag: string) returns (r: Result<()>)
      requires doc.Valid()
      modifies doc`lines, doc.paragraphs, doc`keepData, doc`doTranslation, doc.style
      ensures doc.Valid() && doc.paragraphs == old(doc.paragraphs)
      ensures tag !in StyleTags ==>
        && (r.Err? <==> doc.paragraphs == [])
        && (r.Err? ==> r.error == TypeError)
        && (doc.paragraphs != [] ==> doc.lines == AppendLast(old(doc.lines), Kept(doc.keepData, " ")))
      ensures tag in StyleTags ==>
        && doc.lines == old(doc.lines)
        && (r.Ok? <==> EndReturns(tag, old(doc.style.doP)))
        && (r.Err? ==> r.error == AttributeError)
      ensures doc.keepData == if tag == "examples" || tag == "fullname" then true else old(doc.keepData)
      ensures doc.doTranslation ==
        if tag == "b" || tag == "code" || tag == "a" || tag == "i" then false else old(doc.doTranslation)
      ensures doc.style.doP == if tag == "li" then true else old(doc.style.doP)
      ensures doc.style.level ==
        if (tag == "note" || tag == "important" || tag == "codeblock") && old(doc.style.level) > 0
        then old(doc.style.level) - 1 else old(doc.style.level)
      ensures doc.style.aHref == old(doc.style.aHref)
    {
      if tag !in StyleTags {
        r := WriteSpace();
        return;
      }
      if tag == "examples" || tag == "fullname" {
        doc.keepData := true;
        return Ok(());
      }
      if tag == "b" || tag == "code" || tag == "a" || tag == "i" {
        doc.doTranslation := false;
        return Err(AttributeError);
      }
      if tag == "li" {
        doc.style.doP := true;
        return Err(AttributeError);
      }
      if tag == "note" || tag == "important" || tag == "codeblock" {
        if doc.style.level > 0 {
          doc.style.level := doc.style.level - 1;
        }
      }
      if tag == "p" || tag == "ul" || tag == "ol" || tag == "note" || tag == "important" || tag == "codeblock" {
        return if doc.style.doP then Err(AttributeError) else Ok(());
      }
      // bold and italics write before anything else.
      return Err(AttributeError);
    }

    /** `self.doc.get_current_paragraph().write(' ')`. */
    method WriteSpace() returns (r: Result<()>)
      requires doc.Valid()
      modifies doc`lines, doc.paragraphs
      ensures doc.Valid() && doc.paragraphs == old(doc.paragraphs)
      ensures r.Err? <==> doc.paragraphs == []
      ensures r.Err? ==> r.error == TypeError
      ensures doc.paragraphs != [] ==> doc.lines == AppendLast(old(doc.lines), Kept(doc.keepData, " "))
    {
      var current := doc.GetCurrentParagraph();
      if current.Err? {
        return Err(current.error);
      }
      doc.WriteParagraph(current.value, " ");
      r := Ok(());
    }

    /** `handle_data`: the normalised run goes to the document's `handle_data`. */
    method HandleData(data: string) returns (r: Result<()>)
      requires doc.Valid()
      modifies doc`lines, doc.paragraphs
      ensures doc.Valid() && doc.paragraphs == old(doc.paragraphs)
      ensures data == "" ==> r == Err(IndexError) && doc.lines == old(doc.lines)
      ensures data != "" ==>
        var n := NormalizeData(data, doc.translationMap).value;
        && (r.Err? <==> n != "" && doc.keepData && doc.paragraphs == [])
        && (doc.paragraphs == [] ==> doc.lines == old(doc.lines))
        && (doc.paragraphs != [] ==>
              doc.lines == if n == "" || !doc.keepData || (old(doc.paragraphs[|doc.paragraphs| - 1].text) == "" && AllSpace(n))
                            then old(doc.lines)
                            else AppendLast(old(doc.lines), n))
    {
      var normalized := NormalizeData(data, doc.translationMap);
      if normalized.Err? {
        return Err(normalized.error);
      }
      var n := normalized.value;
      r := doc.HandleData(n);
    }
  }

  lemma NormalizeBar()
    ensures NormalizeData("bar", map[]) == Ok("bar")
  {
    SplitAfterWord("bar", "");
    assert "bar" + "" == "bar";
  }

  /**
   * Whatever text run stands between `<examples>` and `</examples>`, the
   * paragraphs are left as they were, and data is kept again afterwards.
   */
  method ExamplesHideData(parser: HelpParser, data: string)
    requires parser.doc.Valid()
    modifies parser`unhandledTags, parser.doc`keepData, parser.doc`doTranslation, parser.doc.style
    modifies parser.doc`lines, parser.doc.paragraphs
    ensures parser.doc.Valid() && parser.doc.keepData
    ensures parser.doc.paragraphs == old(parser.doc.paragraphs) && parser.doc.lines == old(parser.doc.lines)
  {
    var r := parser.HandleStartTag("examples", []);
    r := parser.HandleData(data);
    r := parser.HandleEndTag("examples");
  }

  /**
   * Text inside `<examples>` is dropped and text after `</examples>` is kept
   * again: `<examples>foo</examples>bar` leaves a fresh paragraph holding `bar`.
   */
  method ExamplesDropText() returns (text: string)
    ensures text == "bar"
  {
    var doc := new Document(map[]);
    var p := doc.AddParagraph();
    var parser := new HelpParser(doc);
    ExamplesHideData(parser, "foo");
    NormalizeBar();
    var r := parser.HandleData("bar");
    assert doc.Holds(0);
    text := p.text;
  }
}
