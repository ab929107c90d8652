/**
 * The document classes of bcdoc/mangen.py: `OperationDocument`,
 * `ServiceDocument` and `ProviderDocument`. Each owns a `Document` (the
 * source subclasses it) and adds paragraphs to it; every method is proved to
 * leave exactly the paragraphs the matching function of `ManPages` or
 * `ManSyntax` describes, and the document's indentation as it found it.
 *
 * The ReST style's heading, code, italics and reference calls are the text
 * fragments of module `Style` written to a paragraph; the doc-string parser
 * is the `render` function, whose result is written to the current paragraph.
 */
module ManGen {
  import opened Wrappers
  import opened Text
  import opened Params
  import Style
  import opened DocumentModel
  import opened ManSyntax
  import opened ManPages

  // ---------------------------------------------------------------------
  // Facts about the lines.

  /** The document has a last paragraph, and it was created between the two states. */
  twostate predicate Grew(doc: Document)
    reads doc
  {
    doc.paragraphs != [] && fresh(doc.paragraphs[|doc.paragraphs| - 1])
  }

  /** A write to a paragraph just added with text `a` leaves one paragraph with both texts. */
  lemma WrittenToNew(v: seq<Line>, d: int, k: bool, a: string, b: string)
    ensures AppendLast(v + [L(d, k, a)], Kept(k, b)) == v + [L(d, k, a + b)]
  {
    KeptConcat(k, a, b);
    assert (v + [L(d, k, a)])[..|v|] == v;
  }

  lemma AppendLastConcat(v: seq<Line>, block: seq<Line>, s: string)
    requires |block| > 0
    ensures AppendLast(v + block, s) == v + AppendLast(block, s)
  {
    assert (v + block)[..|v + block| - 1] == v + block[..|block| - 1];
  }

  lemma AppendNothing(v: seq<Line>)
    requires |v| > 0
    ensures AppendLast(v, "") == v
  {
    assert v[|v| - 1].text + "" == v[|v| - 1].text;
  }

  /** An opening line, a run of lines and two closing lines, written one after another after `v`. */
  lemma Wrapped(v: seq<Line>, a: Line, e: seq<Line>, b: Line, c: Line)
    ensures v + [a] + e + [b] + [c] == v + ([a] + e + [b, c])
  {
    assert v + [a] + e + [b] + [c] == v + ([a] + e + [b, c]);
  }

  /** An opening line, a run of lines and a closing line, written one after another after `v`. */
  lemma Enclosed(v: seq<Line>, a: Line, e: seq<Line>, c: Line)
    ensures v + [a] + e + [c] == v + ([a] + e + [c])
  {
    assert v + [a] + e + [c] == v + ([a] + e + [c]);
  }

  /** Runs of lines written one after another after `v`. */
  lemma Assoc(v: seq<Line>, a: seq<Line>, b: seq<Line>)
    ensures v + a + b == v + (a + b)
  {
  }

  lemma Assoc3(v: seq<Line>, a: seq<Line>, b: seq<Line>, c: seq<Line>)
    ensures v + a + b + c == v + (a + b + c)
  {
  }

  lemma Assoc4(v: seq<Line>, a: seq<Line>, b: seq<Line>, c: seq<Line>, e: seq<Line>)
    ensures v + a + b + c + e == v + (a + b + c + e)
  {
  }

  /** Two lines, a run of lines and a closing line, written one after another after `v`. */
  lemma Framed(v: seq<Line>, a: Line, b: Line, e: seq<Line>, c: Line)
    ensures v + [a] + [b] + e + [c] == v + ([a, b] + e + [c])
  {
    assert v + [a] + [b] + e + [c] == v + ([a, b] + e + [c]);
  }

  /** Two lines and a run of lines, written one after another after `v`. */
  lemma Paired(v: seq<Line>, a: Line, b: Line, e: seq<Line>)
    ensures v + [a] + [b] + e == v + ([a, b] + e)
  {
    assert v + [a] + [b] + e == v + ([a, b] + e);
  }

  /** One more run of lines after the first `i`. */
  lemma ConcatStep(v: seq<Line>, bs: seq<seq<Line>>, i: nat)
    requires i < |bs|
    ensures v + ConcatTo(bs, i) + bs[i] == v + ConcatTo(bs, i + 1)
  {
  }

  // ---------------------------------------------------------------------
  // Writing paragraphs.

  /** `add_paragraph().write(s)`. */
  method NewLine(doc: Document, s: string)
    requires doc.Valid()
    modifies doc`paragraphs, doc`lines
    ensures doc.Valid() && Grew(doc)
    ensures doc.lines == old(doc.lines) + [L(doc.initialIndent, doc.keepData, s)]
  {
    var para := doc.AddParagraph();
    doc.WriteParagraph(para, s);
    assert "" + Kept(doc.keepData, s) == Kept(doc.keepData, s);
  }

  /** `para.write(s)` where `para` holds the last paragraph. */
  method Append(doc: Document, s: string)
    requires doc.Valid() && doc.paragraphs != []
    modifies doc.paragraphs[|doc.paragraphs| - 1], doc`lines
    ensures doc.Valid() && doc.paragraphs == old(doc.paragraphs)
    ensures doc.lines == AppendLast(old(doc.lines), Kept(doc.keepData, s))
  {
    doc.WriteParagraph(doc.paragraphs[|doc.paragraphs| - 1], s);
  }

  /** Two writes to the last paragraph. */
  method AppendTwice(doc: Document, s: string, t: string)
    requires doc.Valid() && doc.paragraphs != []
    modifies doc.paragraphs[|doc.paragraphs| - 1], doc`lines
    ensures doc.Valid() && doc.paragraphs == old(doc.paragraphs)
    ensures doc.lines == AppendLast(old(doc.lines), Kept(doc.keepData, s + t))
  {
    ghost var v := doc.lines;
    Append(doc, s);
    Append(doc, t);
    AppendLastTwice(v, Kept(doc.keepData, s), Kept(doc.keepData, t));
    KeptConcat(doc.keepData, s, t);
  }

  /** A write of `s` to the last paragraph, whose text so far is `a`. */
  method Extend(doc: Document, ghost v: seq<Line>, ghost d: int, ghost a: string, s: string)
    requires doc.Valid() && doc.paragraphs != [] && doc.lines == v + [L(d, doc.keepData, a)]
    modifies doc.paragraphs[|doc.paragraphs| - 1], doc`lines
    ensures doc.Valid() && doc.paragraphs == old(doc.paragraphs)
    ensures doc.lines == v + [L(d, doc.keepData, a + s)]
  {
    Append(doc, s);
    WrittenToNew(v, d, doc.keepData, a, s);
  }

  /** `add_paragraph()`, left empty. */
  method AddEmptyParagraph(doc: Document)
    requires doc.Valid()
    modifies doc`paragraphs, doc`lines
    ensures doc.Valid() && Grew(doc)
    ensures doc.lines == old(doc.lines) + [L(doc.initialIndent, doc.keepData, "")]
  {
    var _ := doc.AddParagraph();
  }

  /** One level back, then an empty paragraph. */
  method CloseParagraph(doc: Document)
    requires doc.Valid()
    modifies doc`paragraphs, doc`lines, doc`initialIndent
    ensures doc.Valid() && Grew(doc) && doc.initialIndent == old(doc.initialIndent) - 1
    ensures doc.lines == old(doc.lines) + [L(old(doc.initialIndent) - 1, doc.keepData, "")]
  {
    doc.Dedent();
    AddEmptyParagraph(doc);
  }

  /** One level deeper, `s` in a new paragraph; then back. */
  method NewLineDeeper(doc: Document, s: string)
    requires doc.Valid()
    modifies doc`paragraphs, doc`lines, doc`initialIndent
    ensures doc.Valid() && Grew(doc) && doc.initialIndent == old(doc.initialIndent)
    ensures doc.lines == old(doc.lines) + [L(doc.initialIndent + 1, doc.keepData, s)]
  {
    doc.Indent();
    NewLine(doc, s);
    doc.Dedent();
  }

  /** `s` in a new paragraph, then one level deeper. */
  method OpenLine(doc: Document, s: string)
    requires doc.Valid()
    modifies doc`paragraphs, doc`lines, doc`initialIndent
    ensures doc.Valid() && Grew(doc) && doc.initialIndent == old(doc.initialIndent) + 1
    ensures doc.lines == old(doc.lines) + [L(old(doc.initialIndent), doc.keepData, s)]
  {
    NewLine(doc, s);
    doc.Indent();
  }

  /** One level back, then `s` in a new paragraph. */
  method CloseLine(doc: Document, s: string)
    requires doc.Valid()
    modifies doc`paragraphs, doc`lines, doc`initialIndent
    ensures doc.Valid() && Grew(doc) && doc.initialIndent == old(doc.initialIndent) - 1
    ensures doc.lines == old(doc.lines) + [L(old(doc.initialIndent) - 1, doc.keepData, s)]
  {
    doc.Dedent();
    NewLine(doc, s);
  }

  /** A new paragraph holding `a`, then `b` written to it. */
  method WriteTwoParts(doc: Document, a: string, b: string)
    requires doc.Valid()
    modifies doc`paragraphs, doc`lines
    ensures doc.Valid() && Grew(doc)
    ensures doc.lines == old(doc.lines) + [L(doc.initialIndent, doc.keepData, a + b)]
  {
    ghost var v := doc.lines;
    NewLine(doc, a);
    Append(doc, b);
    WrittenToNew(v, doc.initialIndent, doc.keepData, a, b);
  }

  /** A new paragraph holding `a`, then `b` and `c` written to it. */
  method WriteThreeParts(doc: Document, a: string, b: string, c: string)
    requires doc.Valid()
    modifies doc`paragraphs, doc`lines
    ensures doc.Valid() && Grew(doc)
    ensures doc.lines == old(doc.lines) + [L(doc.initialIndent, doc.keepData, a + (b + c))]
  {
    ghost var v := doc.lines;
    NewLine(doc, a);
    AppendTwice(doc, b, c);
    WrittenToNew(v, doc.initialIndent, doc.keepData, a, b + c);
  }

  /** `s` written to the last paragraph, which is the last of `block`. */
  method AppendToBlock(doc: Document, ghost v: seq<Line>, ghost block: seq<Line>, s: string)
    requires doc.Valid() && doc.paragraphs != [] && |block| > 0 && doc.lines == v + block
    modifies doc.paragraphs[|doc.paragraphs| - 1], doc`lines
    ensures doc.Valid() && doc.paragraphs == old(doc.paragraphs)
    ensures doc.lines == v + AppendLast(block, Kept(doc.keepData, s))
  {
    Append(doc, s);
    AppendLastConcat(v, block, Kept(doc.keepData, s));
  }

  /** `start_li()`, `get_current_paragraph().write(s)`, `end_li()`: a bullet line in the current paragraph. */
  method WriteItem(doc: Document, s: string)
    requires doc.Valid() && doc.paragraphs != []
    modifies doc.paragraphs[|doc.paragraphs| - 1], doc`lines
    ensures doc.Valid() && doc.paragraphs == old(doc.paragraphs)
    ensures doc.lines == AppendLast(old(doc.lines), Kept(doc.keepData, "* " + s + "\n"))
  {
    ghost var v := doc.lines;
    AppendTwice(doc, "* ", s);
    Append(doc, "\n");
    AppendLastTwice(v, Kept(doc.keepData, "* " + s), Kept(doc.keepData, "\n"));
    KeptConcat(doc.keepData, "* " + s, "\n");
  }

  /** Each item as a bullet line, in order, all in the current paragraph. */
  method WriteItems(doc: Document, items: seq<string>)
    requires doc.Valid() && doc.paragraphs != []
    modifies doc.paragraphs[|doc.paragraphs| - 1], doc`lines
    ensures doc.Valid() && doc.paragraphs == old(doc.paragraphs)
    ensures doc.lines == AppendLast(old(doc.lines), Kept(doc.keepData, ItemsText(items)))
  {
    ghost var v := doc.lines;
    var k := doc.keepData;
    AppendNothing(v);
    var i := 0;
    while i < |items|
      invariant 0 <= i <= |items|
      invariant doc.Valid() && doc.paragraphs == old(doc.paragraphs) && doc.keepData == k
      invariant doc.lines == AppendLast(v, Kept(k, ItemsText(items[..i])))
    {
      WriteNextItem(doc, v, items, i);
      i := i + 1;
    }
    assert items[..|items|] == items;
  }

  /** Item `i` written after the first `i` items. */
  method WriteNextItem(doc: Document, ghost v: seq<Line>, items: seq<string>, i: nat)
    requires doc.Valid() && doc.paragraphs != [] && i < |items| && |v| > 0
    requires doc.lines == AppendLast(v, Kept(doc.keepData, ItemsText(items[..i])))
    modifies doc.paragraphs[|doc.paragraphs| - 1], doc`lines
    ensures doc.Valid() && doc.paragraphs == old(doc.paragraphs)
    ensures doc.lines == AppendLast(v, Kept(doc.keepData, ItemsText(items[..i + 1])))
  {
    var k := doc.keepData;
    WriteItem(doc, items[i]);
    AppendLastTwice(v, Kept(k, ItemsText(items[..i])), Kept(k, "* " + items[i] + "\n"));
    KeptConcat(k, ItemsText(items[..i]), "* " + items[i] + "\n");
    assert items[..i + 1][..i] == items[..i];
  }

  /** `add_paragraph()`, then `start_ul()` and the items: a bullet list in one new paragraph. */
  method WriteBulletList(doc: Document, items: seq<string>)
    requires doc.Valid()
    modifies doc`paragraphs, doc`lines
    ensures doc.Valid() && Grew(doc)
    ensures doc.lines == old(doc.lines) + [L(doc.initialIndent, doc.keepData, Style.Break(true, "") + ItemsText(items))]
  {
    ghost var v := doc.lines;
    NewLine(doc, Style.Break(true, ""));
    WriteItems(doc, items);
    WrittenToNew(v, doc.initialIndent, doc.keepData, Style.Break(true, ""), ItemsText(items));
  }

  /** One paragraph per name, in order. */
  method WriteNames(doc: Document, names: seq<string>)
    requires doc.Valid()
    modifies doc`paragraphs, doc`lines
    ensures doc.Valid()
    ensures doc.lines == old(doc.lines) + NameLines(names, doc.initialIndent, doc.keepData)
  {
    ghost var v := doc.lines;
    var i := 0;
    var k := doc.keepData;
    ghost var d := doc.initialIndent;
    while i < |names|
      invariant 0 <= i <= |names|
      invariant doc.Valid() && doc.keepData == k && doc.initialIndent == d
      invariant doc.lines == v + NameLines(names, d, k)[..i]
    {
      NewLine(doc, names[i]);
      i := i + 1;
    }
  }

  /** `do_title` and `do_description`. */
  method WriteTitleAndDescription(doc: Document, title: string, description: string, render: string -> string)
    requires doc.Valid()
    modifies doc`paragraphs, doc`lines
    ensures doc.Valid()
    ensures doc.lines == old(doc.lines) + (TitleLines(title, doc.initialIndent, doc.keepData)
                                           + DescriptionLines(description, doc.initialIndent, doc.keepData, render))
  {
    ghost var v := doc.lines;
    ghost var d := doc.initialIndent;
    var k := doc.keepData;
    doc.DoTitle(title);
    ghost var v1 := doc.lines;
    doc.DoDescription(description, render(description));
    Assoc(v1, [L(d, k, Style.H2Text("DESCRIPTION"))], if description == "" then [] else [L(d, k, render(description))]);
    Assoc(v, TitleLines(title, d, k), DescriptionLines(description, d, k, render));
  }

  /** The `.. toctree::` directive, then its options and `names` one level deeper. */
  method WriteTocTree(doc: Document, names: seq<string>)
    requires doc.Valid()
    modifies doc`paragraphs, doc`lines, doc`initialIndent
    ensures doc.Valid() && doc.initialIndent == old(doc.initialIndent)
    ensures doc.lines == old(doc.lines) + TocTreeLines(names, doc.initialIndent, doc.keepData)
  {
    ghost var v := doc.lines;
    NewLine(doc, ".. toctree::");
    WriteTocTreeBody(doc, names);
    Assoc3(v, [L(doc.initialIndent, doc.keepData, ".. toctree::")], TocTreeOptions(doc.initialIndent, doc.keepData),
           NameLines(names, doc.initialIndent + 1, doc.keepData));
  }

  /** The toctree options and the names, one level deeper. */
  method WriteTocTreeBody(doc: Document, names: seq<string>)
    requires doc.Valid()
    modifies doc`paragraphs, doc`lines, doc`initialIndent
    ensures doc.Valid() && doc.initialIndent == old(doc.initialIndent)
    ensures doc.lines == old(doc.lines) + TocTreeOptions(doc.initialIndent, doc.keepData)
                         + NameLines(names, doc.initialIndent + 1, doc.keepData)
  {
    doc.Indent();
    WriteTocTreeOptions(doc);
    WriteNames(doc, names);
    doc.Dedent();
  }

  method WriteTocTreeOptions(doc: Document)
    requires doc.Valid()
    modifies doc`paragraphs, doc`lines
    ensures doc.Valid()
    ensures doc.lines == old(doc.lines) + TocTreeOptions(doc.initialIndent - 1, doc.keepData)
  {
    NewLine(doc, ":maxdepth: 1");
    NewLine(doc, ":titlesonly:");
    var _ := doc.AddParagraph();
  }

  /** `build_translation_map`'s loops: `translation_map[key] = value` for each pair in turn. */
  method Assign(doc: Document, pairs: seq<(string, string)>)
    modifies doc`translationMap
    ensures doc.translationMap == Assigned(old(doc.translationMap), pairs)
  {
    var i := 0;
    while i < |pairs|
      invariant 0 <= i <= |pairs|
      invariant doc.translationMap == Assigned(old(doc.translationMap), pairs[..i])
    {
      assert pairs[..i + 1][..i] == pairs[..i];
      doc.translationMap := doc.translationMap[pairs[i].0 := pairs[i].1];
      i := i + 1;
    }
    assert pairs[..|pairs|] == pairs;
  }

  // ---------------------------------------------------------------------
  // `OperationDocument`.

  class OperationDocument {
    const doc: Document

    constructor (doc: Document)
      ensures this.doc == doc
    {
      this.doc := doc;
    }

    /** `build_translation_map`: the parameters' names, then every operation's of the service. */
    method BuildTranslationMap(op: Operation, service: Service)
      modifies doc`translationMap
      ensures doc.translationMap
              == Assigned(Assigned(old(doc.translationMap), ParamNamePairs(op.params)), OperationNamePairs(service.operations))
    {
      Assign(doc, ParamNamePairs(op.params));
      Assign(doc, OperationNamePairs(service.operations));
    }

    /** `build`: the title, the description, the parameters and the filters of the operation. */
    method Build(op: Operation, service: Service, provider: string, render: string -> string)
      requires doc.Valid()
      modifies doc`paragraphs, doc`lines, doc`initialIndent
      ensures doc.Valid() && doc.initialIndent == old(doc.initialIndent)
      ensures doc.lines == old(doc.lines) + OperationPage(op, service, provider, old(doc.initialIndent), doc.keepData, render)
    {
      ghost var v := doc.lines;
      ghost var d := doc.initialIndent;
      var k := doc.keepData;
      WriteTitleAndDescription(doc, op.cliName, op.documentation, render);
      DoParameters(op, provider, service.cliName, render);
      DoFilters(op.filters, render);
      Assoc3(v, TitleLines(op.cliName, d, k) + DescriptionLines(op.documentation, d, k, render),
             ParametersLines(op, provider, service.cliName, d, k, render), FiltersLines(op.filters, d, k, render));
    }

    // -------------------------------------------------------------------
    // `do_parameters`.

    method DoParameters(op: Operation, provider: string, service: string, render: string -> string)
      requires doc.Valid()
      modifies doc`paragraphs, doc`lines, doc`initialIndent
      ensures doc.Valid() && doc.initialIndent == old(doc.initialIndent)
      ensures doc.lines == old(doc.lines) + ParametersLines(op, provider, service, old(doc.initialIndent), doc.keepData, render)
    {
      ghost var v := doc.lines;
      WriteSynopsis(op, provider, service);
      WriteParameterSections(op, render);
      Assoc(v, SynopsisLines(op, provider, service, old(doc.initialIndent), doc.keepData),
            ParameterSections(op, old(doc.initialIndent), doc.keepData, render));
    }

    /** The required parameters, the optional ones, and for a streaming operation the output file. */
    method WriteParameterSections(op: Operation, render: string -> string)
      requires doc.Valid()
      modifies doc`paragraphs, doc`lines, doc`initialIndent
      ensures doc.Valid() && doc.initialIndent == old(doc.initialIndent)
      ensures doc.lines == old(doc.lines) + ParameterSections(op, old(doc.initialIndent), doc.keepData, render)
    {
      ghost var v := doc.lines;
      ghost var d := doc.initialIndent;
      var k := doc.keepData;
      var required := Required(op.params);
      var optional := Optional(op.params);
      WriteSection("REQUIRED PARAMETERS", required, render);
      WriteSection("OPTIONAL PARAMETERS", optional, render);
      WritePositional(op.streaming);
      Assoc3(v, Section("REQUIRED PARAMETERS", required, d, k, render),
             Section("OPTIONAL PARAMETERS", optional, d, k, render), PositionalLines(op.streaming, d, k));
    }

    /** The synopsis: heading, literal block marker, the command line and its arguments. */
    method WriteSynopsis(op: Operation, provider: string, service: string)
      requires doc.Valid()
      modifies doc`paragraphs, doc`lines, doc`initialIndent
      ensures doc.Valid() && doc.initialIndent == old(doc.initialIndent)
      ensures doc.lines == old(doc.lines) + SynopsisLines(op, provider, service, old(doc.initialIndent), doc.keepData)
    {
      ghost var v := doc.lines;
      WriteSynopsisHead(op, provider, service);
      WriteSynopsisArguments(op);
      doc.Dedent();
      Assoc(v, SynopsisHead(op, provider, service, old(doc.initialIndent), doc.keepData),
            SynopsisBody(op, old(doc.initialIndent) + 2, doc.keepData));
    }

    /** The heading, `::`, and one level deeper an empty paragraph and the command line. */
    method WriteSynopsisHead(op: Operation, provider: string, service: string)
      requires doc.Valid()
      modifies doc`paragraphs, doc`lines, doc`initialIndent
      ensures doc.Valid() && doc.initialIndent == old(doc.initialIndent) + 1
      ensures doc.lines == old(doc.lines) + SynopsisHead(op, provider, service, old(doc.initialIndent), doc.keepData)
    {
      NewLine(doc, Style.H2Text("SYNOPSIS"));
      NewLine(doc, "::");
      doc.Indent();
      var _ := doc.AddParagraph();
      NewLine(doc, provider + " " + service + " " + op.cliName);
    }

    /** One level deeper: the required and the optional arguments, and the output file. */
    method WriteSynopsisArguments(op: Operation)
      requires doc.Valid()
      modifies doc`paragraphs, doc`lines, doc`initialIndent
      ensures doc.Valid() && doc.initialIndent == old(doc.initialIndent)
      ensures doc.lines == old(doc.lines) + SynopsisBody(op, old(doc.initialIndent) + 1, doc.keepData)
    {
      doc.Indent();
      WriteArguments(op);
      doc.Dedent();
    }

    /** The required arguments, the optional ones, and for a streaming operation the output file. */
    method WriteArguments(op: Operation)
      requires doc.Valid()
      modifies doc`paragraphs, doc`lines
      ensures doc.Valid()
      ensures doc.lines == old(doc.lines) + SynopsisBody(op, doc.initialIndent, doc.keepData)
    {
      ghost var v := doc.lines;
      WriteRequiredSynopses(Required(op.params));
      WriteOptionalSynopses(Optional(op.params));
      if op.streaming {
        NewLine(doc, "output_file");
      }
      Assoc3(v, Concat(RequiredSynopses(Required(op.params), doc.initialIndent, doc.keepData)),
             Concat(OptionalSynopses(Optional(op.params), doc.initialIndent, doc.keepData)),
             StreamingLines(op.streaming, doc.initialIndent, doc.keepData));
    }

    method WriteRequiredSynopses(ps: seq<Param>)
      requires doc.Valid()
      modifies doc`paragraphs, doc`lines
      ensures doc.Valid()
      ensures doc.lines == old(doc.lines) + Concat(RequiredSynopses(ps, doc.initialIndent, doc.keepData))
    {
      ghost var v := doc.lines;
      ghost var d := doc.initialIndent;
      ghost var k := doc.keepData;
      ghost var bs := RequiredSynopses(ps, d, k);
      var i := 0;
      while i < |ps|
        invariant 0 <= i <= |ps|
        invariant doc.Valid() && doc.initialIndent == d && doc.keepData == k
        invariant doc.lines == v + ConcatTo(bs, i)
      {
        WriteNextRequiredSynopsis(ps, i, v, bs, d, k);
        i := i + 1;
      }
    }

    /** Required argument `i` written after the first `i`. */
    method WriteNextRequiredSynopsis(ps: seq<Param>, i: nat, ghost v: seq<Line>, ghost bs: seq<seq<Line>>, ghost d: int, ghost k: bool)
      requires doc.Valid() && doc.initialIndent == d && doc.keepData == k
      requires i < |ps| && bs == RequiredSynopses(ps, d, k)
      requires doc.lines == v + ConcatTo(bs, i)
      modifies doc`paragraphs, doc`lines
      ensures doc.Valid() && doc.initialIndent == d && doc.keepData == k
      ensures doc.lines == v + ConcatTo(bs, i + 1)
    {
      WriteRequiredSynopsis(ps[i]);
      ConcatStep(v, bs, i);
    }

    /** A required argument; a boolean's false name goes to a paragraph of its own. */
    method WriteRequiredSynopsis(p: Param)
      requires doc.Valid()
      modifies doc`paragraphs, doc`lines
      ensures doc.Valid()
      ensures doc.lines == old(doc.lines) + RequiredSynopsis(p, doc.initialIndent, doc.keepData)
    {
      if p.shape != Leaf(BooleanType) {
        WriteTwoParts(doc, p.cliName + " ", "<value>");
      } else {
        NewLine(doc, p.cliName + " ");
        NewLine(doc, FalseNameValue(p) + " ");
      }
    }

    method WriteOptionalSynopses(ps: seq<Param>)
      requires doc.Valid()
      modifies doc`paragraphs, doc`lines
      ensures doc.Valid()
      ensures doc.lines == old(doc.lines) + Concat(OptionalSynopses(ps, doc.initialIndent, doc.keepData))
    {
      ghost var v := doc.lines;
      ghost var d := doc.initialIndent;
      ghost var k := doc.keepData;
      ghost var bs := OptionalSynopses(ps, d, k);
      var i := 0;
      while i < |ps|
        invariant 0 <= i <= |ps|
        invariant doc.Valid() && doc.initialIndent == d && doc.keepData == k
        invariant doc.lines == v + ConcatTo(bs, i)
      {
        WriteNextOptionalSynopsis(ps, i, v, bs, d, k);
        i := i + 1;
      }
    }

    /** Optional argument `i` written after the first `i`. */
    method WriteNextOptionalSynopsis(ps: seq<Param>, i: nat, ghost v: seq<Line>, ghost bs: seq<seq<Line>>, ghost d: int, ghost k: bool)
      requires doc.Valid() && doc.initialIndent == d && doc.keepData == k
      requires i < |ps| && bs == OptionalSynopses(ps, d, k)
      requires doc.lines == v + ConcatTo(bs, i)
      modifies doc`paragraphs, doc`lines
      ensures doc.Valid() && doc.initialIndent == d && doc.keepData == k
      ensures doc.lines == v + ConcatTo(bs, i + 1)
    {
      WriteOptionalSynopsis(ps[i]);
      ConcatStep(v, bs, i);
    }

    /** An optional argument in brackets, with `<value>` unless it is a boolean. */
    method WriteOptionalSynopsis(p: Param)
      requires doc.Valid()
      modifies doc`paragraphs, doc`lines
      ensures doc.Valid()
      ensures doc.lines == old(doc.lines) + OptionalSynopsis(p, doc.initialIndent, doc.keepData)
    {
      if p.shape != Leaf(BooleanType) {
        WriteThreeParts(doc, "[" + p.cliName + " ", "<value>", "]");
        assert "[" + p.cliName + " " + ("<value>" + "]") == "[" + p.cliName + " " + "<value>" + "]";
      } else {
        WriteTwoParts(doc, "[" + p.cliName + " ", "]");
        assert "[" + p.cliName + " " + "]" == "[" + p.cliName + " " + "" + "]";
      }
    }

    /** A titled group: each parameter and its syntax block, or `None`. */
    method WriteSection(title: string, ps: seq<Param>, render: string -> string)
      requires doc.Valid()
      modifies doc`paragraphs, doc`lines, doc`initialIndent
      ensures doc.Valid() && doc.initialIndent == old(doc.initialIndent)
      ensures doc.lines == old(doc.lines) + Section(title, ps, old(doc.initialIndent), doc.keepData, render)
    {
      ghost var v := doc.lines;
      ghost var d := doc.initialIndent;
      var k := doc.keepData;
      NewLine(doc, Style.H2Text(title));
      WriteEntries(ps, render);
      if ps == [] {
        NewLine(doc, "None");
      }
      Assoc3(v, [L(d, k, Style.H2Text(title))], Concat(ParameterEntries(ps, d, k, render)),
             if ps == [] then [L(d, k, "None")] else []);
    }

    method WriteEntries(ps: seq<Param>, render: string -> string)
      requires doc.Valid()
      modifies doc`paragraphs, doc`lines, doc`initialIndent
      ensures doc.Valid() && doc.initialIndent == old(doc.initialIndent)
      ensures doc.lines == old(doc.lines) + Concat(ParameterEntries(ps, old(doc.initialIndent), doc.keepData, render))
    {
      ghost var v := doc.lines;
      ghost var d := doc.initialIndent;
      ghost var k := doc.keepData;
      ghost var bs := ParameterEntries(ps, d, k, render);
      var i := 0;
      while i < |ps|
        invariant 0 <= i <= |ps|
        invariant doc.Valid() && doc.initialIndent == d && doc.keepData == k
        invariant doc.lines == v + ConcatTo(bs, i)
      {
        WriteNextEntry(ps, render, i, v, bs, d, k);
        i := i + 1;
      }
    }

    /** Parameter `i` and its syntax block written after the first `i`. */
    method WriteNextEntry(ps: seq<Param>, render: string -> string, i: nat, ghost v: seq<Line>, ghost bs: seq<seq<Line>>, ghost d: int, ghost k: bool)
      requires doc.Valid() && doc.initialIndent == d && doc.keepData == k
      requires i < |ps| && bs == ParameterEntries(ps, d, k, render)
      requires doc.lines == v + ConcatTo(bs, i)
      modifies doc`paragraphs, doc`lines, doc`initialIndent
      ensures doc.Valid() && doc.initialIndent == d && doc.keepData == k
      ensures doc.lines == v + ConcatTo(bs, i + 1)
    {
      WriteEntry(ps[i], render);
      ConcatStep(v, bs, i);
    }

    /** `do_parameter(param)` then `do_example(param)`. */
    method WriteEntry(p: Param, render: string -> string)
      requires doc.Valid()
      modifies doc`paragraphs, doc`lines, doc`initialIndent
      ensures doc.Valid() && doc.initialIndent == old(doc.initialIndent)
      ensures doc.lines == old(doc.lines) + ParameterEntry(p, old(doc.initialIndent), doc.keepData, render)
    {
      ghost var v := doc.lines;
      DoParameter(p, false, render);
      DoExample(p);
      Assoc(v, ParameterLines(p, false, old(doc.initialIndent), doc.keepData, render),
            ExampleSection(p, old(doc.initialIndent), doc.keepData));
    }

    /** For a streaming operation: the heading, the output file and its description one level deeper. */
    method WritePositional(streaming: bool)
      requires doc.Valid()
      modifies doc`paragraphs, doc`lines, doc`initialIndent
      ensures doc.Valid() && doc.initialIndent == old(doc.initialIndent)
      ensures doc.lines == old(doc.lines) + PositionalLines(streaming, old(doc.initialIndent), doc.keepData)
    {
      if streaming {
        NewLine(doc, Style.H2Text("POSITIONAL ARGUMENTS"));
        WriteTwoParts(doc, Style.CodeText("output_file"), " (blob)");
        doc.Indent();
        NewLine(doc, "The output file");
        doc.Dedent();
      }
    }

    // -------------------------------------------------------------------
    // `do_parameter`.

    /** `do_parameter(param, subitem)`: the head, the sub-items one level deeper, and an empty paragraph. */
    method DoParameter(p: Param, subitem: bool, render: string -> string)
      requires doc.Valid()
      modifies doc`paragraphs, doc`lines, doc`initialIndent
      ensures doc.Valid() && doc.initialIndent == old(doc.initialIndent)
      ensures doc.lines == old(doc.lines) + ParameterLines(p, subitem, old(doc.initialIndent), doc.keepData, render)
      decreases p, 3
    {
      ghost var v := doc.lines;
      ghost var d := doc.initialIndent;
      var k := doc.keepData;
      WriteParameterHead(p, subitem, render);
      WriteSubParameters(p, render);
      CloseParagraph(doc);
      Enclosed(v, L(d, k, ParameterHead(p, subitem, render)), SubParameterLines(p, d + 1, k, render), L(d, k, ""));
    }

    /**
     * The head paragraph: the name in code, a boolean's false name, the type,
     * and, after indenting, the rendered documentation.
     */
    method WriteParameterHead(p: Param, subitem: bool, render: string -> string)
      requires doc.Valid()
      modifies doc`paragraphs, doc`lines, doc`initialIndent
      ensures doc.Valid() && doc.initialIndent == old(doc.initialIndent) + 1
      ensures doc.lines == old(doc.lines) + [L(old(doc.initialIndent), doc.keepData, ParameterHead(p, subitem, render))]
    {
      ghost var v := doc.lines;
      ghost var d := doc.initialIndent;
      ghost var a := Style.CodeText(ParamName(p, subitem)) + FalseNameText(p);
      WriteNameAndFalseName(p, subitem);
      Extend(doc, v, d, a, " (" + TypeText(p) + ")");
      doc.Indent();
      if p.documentation != "" {
        Extend(doc, v, d, a + (" (" + TypeText(p) + ")"), render(p.documentation));
      } else {
        assert a + (" (" + TypeText(p) + ")") + "" == a + (" (" + TypeText(p) + ")");
      }
    }

    /** The name in code and, for a boolean with a false name, a bar and that name in code. */
    method WriteNameAndFalseName(p: Param, subitem: bool)
      requires doc.Valid()
      modifies doc`paragraphs, doc`lines
      ensures doc.Valid() && Grew(doc)
      ensures doc.lines == old(doc.lines) + [L(doc.initialIndent, doc.keepData, Style.CodeText(ParamName(p, subitem)) + FalseNameText(p))]
    {
      var name := Style.CodeText(if subitem then p.pyName else p.cliName);
      if p.shape == Leaf(BooleanType) && p.falseName.Some? && p.falseName.value != "" {
        WriteThreeParts(doc, name, " | ", Style.CodeText(p.falseName.value));
      } else {
        NewLine(doc, name);
        assert name + "" == name;
      }
    }

    /** A structure's members, or a list's non-scalar member, as sub-items at the current indentation. */
    method WriteSubParameters(p: Param, render: string -> string)
      requires doc.Valid()
      modifies doc`paragraphs, doc`lines, doc`initialIndent
      ensures doc.Valid() && doc.initialIndent == old(doc.initialIndent)
      ensures doc.lines == old(doc.lines) + SubParameterLines(p, old(doc.initialIndent), doc.keepData, render)
      decreases p, 2
    {
      match p.shape
      case StructureOf(_) => WriteFieldParameters(p, render);
      case ListOf(m) =>
        if !IsScalar(m) {
          DoParameter(m, true, render);
        }
      case _ =>
    }

    method WriteFieldParameters(p: Param, render: string -> string)
      requires doc.Valid() && p.shape.StructureOf?
      modifies doc`paragraphs, doc`lines, doc`initialIndent
      ensures doc.Valid() && doc.initialIndent == old(doc.initialIndent)
      ensures doc.lines == old(doc.lines) + Concat(FieldParameters(p, old(doc.initialIndent), doc.keepData, render))
      decreases p, 1
    {
      ghost var v := doc.lines;
      ghost var d := doc.initialIndent;
      ghost var k := doc.keepData;
      ghost var bs := FieldParameters(p, d, k, render);
      var i := 0;
      while i < |p.shape.fields|
        invariant 0 <= i <= |p.shape.fields|
        invariant doc.Valid() && doc.initialIndent == d && doc.keepData == k
        invariant doc.lines == v + ConcatTo(bs, i)
      {
        WriteNextField(p, render, i, v, bs, d, k);
        i := i + 1;
      }
    }

    /** Member `i` of the structure written after the first `i`. */
    method WriteNextField(p: Param, render: string -> string, i: nat, ghost v: seq<Line>, ghost bs: seq<seq<Line>>, ghost d: int, ghost k: bool)
      requires doc.Valid() && doc.initialIndent == d && doc.keepData == k && p.shape.StructureOf?
      requires i < |p.shape.fields| && bs == FieldParameters(p, d, k, render)
      requires doc.lines == v + ConcatTo(bs, i)
      modifies doc`paragraphs, doc`lines, doc`initialIndent
      ensures doc.Valid() && doc.initialIndent == d && doc.keepData == k
      ensures doc.lines == v + ConcatTo(bs, i + 1)
      decreases p, 0
    {
      DoParameter(p.shape.fields[i], true, render);
      ConcatStep(v, bs, i);
    }

    // -------------------------------------------------------------------
    // `do_filters`.

    /** `do_filters`: nothing without filters, else a heading and each filter in name order. */
    method DoFilters(filters: Option<Dict<Filter>>, render: string -> string)
      requires doc.Valid()
      modifies doc`paragraphs, doc`lines, doc`initialIndent
      ensures doc.Valid() && doc.initialIndent == old(doc.initialIndent)
      ensures doc.lines == old(doc.lines) + FiltersLines(filters, old(doc.initialIndent), doc.keepData, render)
    {
      if filters.Some? {
        ghost var v := doc.lines;
        var fs := filters.value;
        NewLine(doc, Style.H2Text("FILTERS"));
        var _ := doc.AddParagraph();
        var names := FilterNames(fs);
        WriteFilters(fs, names, render);
        ghost var d := old(doc.initialIndent);
        Paired(v, L(d, doc.keepData, Style.H2Text("FILTERS")), L(d, doc.keepData, ""),
               Concat(FilterBlocks(fs, names, d, doc.keepData, render)));
      }
    }

    method WriteFilters(fs: Dict<Filter>, names: seq<string>, render: string -> string)
      requires doc.Valid() && forall n :: n in names ==> n in Keys(fs)
      modifies doc`paragraphs, doc`lines, doc`initialIndent
      ensures doc.Valid() && doc.initialIndent == old(doc.initialIndent)
      ensures doc.lines == old(doc.lines) + Concat(FilterBlocks(fs, names, old(doc.initialIndent), doc.keepData, render))
    {
      ghost var v := doc.lines;
      ghost var d := doc.initialIndent;
      ghost var k := doc.keepData;
      ghost var bs := FilterBlocks(fs, names, d, k, render);
      var i := 0;
      while i < |names|
        invariant 0 <= i <= |names|
        invariant doc.Valid() && doc.initialIndent == d && doc.keepData == k
        invariant doc.lines == v + ConcatTo(bs, i)
      {
        WriteNextFilter(fs, names, render, i, v, bs, d, k);
        i := i + 1;
      }
    }

    /** Filter `i` written after the first `i`. */
    method WriteNextFilter(fs: Dict<Filter>, names: seq<string>, render: string -> string, i: nat, ghost v: seq<Line>, ghost bs: seq<seq<Line>>, ghost d: int, ghost k: bool)
      requires doc.Valid() && doc.initialIndent == d && doc.keepData == k && forall n :: n in names ==> n in Keys(fs)
      requires i < |names| && bs == FilterBlocks(fs, names, d, k, render)
      requires doc.lines == v + ConcatTo(bs, i)
      modifies doc`paragraphs, doc`lines, doc`initialIndent
      ensures doc.Valid() && doc.initialIndent == d && doc.keepData == k
      ensures doc.lines == v + ConcatTo(bs, i + 1)
    {
      WriteFilter(names[i], Lookup(fs, names[i]), render);
      ConcatStep(v, bs, i);
    }

    /** A filter's name in code, then one level deeper its documentation and valid values. */
    method WriteFilter(name: string, f: Filter, render: string -> string)
      requires doc.Valid()
      modifies doc`paragraphs, doc`lines, doc`initialIndent
      ensures doc.Valid() && doc.initialIndent == old(doc.initialIndent)
      ensures doc.lines == old(doc.lines) + FilterLines(name, f, old(doc.initialIndent), doc.keepData, render)
    {
      NewLine(doc, Style.CodeText(name));
      doc.Indent();
      WriteFilterBody(f, render);
      doc.Dedent();
    }

    method WriteFilterBody(f: Filter, render: string -> string)
      requires doc.Valid()
      modifies doc`paragraphs, doc`lines
      ensures doc.Valid()
      ensures doc.lines == old(doc.lines) + [L(doc.initialIndent, doc.keepData, FilterDocText(f, render))]
                           + (if f.choices.Some? then [L(doc.initialIndent, doc.keepData, "Valid Values: " + Style.CodeText(Join(f.choices.value, "|")))] else [])
    {
      ghost var v := doc.lines;
      var _ := doc.AddParagraph();
      if f.documentation.Some? {
        Extend(doc, v, doc.initialIndent, "", render(f.documentation.value));
        assert "" + render(f.documentation.value) == FilterDocText(f, render);
      }
      if f.choices.Some? {
        WriteTwoParts(doc, "Valid Values: ", Style.CodeText(Join(f.choices.value, "|")));
      }
    }

    // -------------------------------------------------------------------
    // `do_example` and `_do_example`.

    /** `do_example(param)`: for a list, structure or map, its syntax block; the event it emits is left out. */
    method DoExample(p: Param)
      requires doc.Valid()
      modifies doc`paragraphs, doc`lines, doc`initialIndent
      ensures doc.Valid() && doc.initialIndent == old(doc.initialIndent)
      ensures doc.lines == old(doc.lines) + ExampleSection(p, old(doc.initialIndent), doc.keepData)
    {
      if !p.shape.Leaf? {
        WriteSyntaxSection(p);
      }
    }

    /** The syntax block of a list, structure or map, closed by an empty paragraph at the indentation it started at. */
    method WriteSyntaxSection(p: Param)
      requires doc.Valid()
      modifies doc`paragraphs, doc`lines, doc`initialIndent
      ensures doc.Valid() && doc.initialIndent == old(doc.initialIndent)
      ensures doc.lines == old(doc.lines) + SyntaxBlock(p, old(doc.initialIndent), doc.keepData) + [L(old(doc.initialIndent), doc.keepData, "")]
    {
      WriteSyntaxBlock(p);
      var _ := doc.AddParagraph();
    }

    /** `SyntaxBlock`: the italic title of the block with `::`, then its body. */
    method WriteSyntaxBlock(p: Param)
      requires doc.Valid()
      modifies doc`paragraphs, doc`lines, doc`initialIndent
      ensures doc.Valid() && doc.initialIndent == old(doc.initialIndent)
      ensures doc.lines == old(doc.lines) + SyntaxBlock(p, old(doc.initialIndent), doc.keepData)
    {
      doc.Indent();
      WriteSyntaxLines(p);
      doc.Dedent();
    }

    /** At the current level, the italic title with `::`; one level deeper, the block's body. */
    method WriteSyntaxLines(p: Param)
      requires doc.Valid()
      modifies doc`paragraphs, doc`lines, doc`initialIndent
      ensures doc.Valid() && doc.initialIndent == old(doc.initialIndent)
      ensures doc.lines == old(doc.lines) + SyntaxBlock(p, old(doc.initialIndent) - 1, doc.keepData)
    {
      ghost var v := doc.lines;
      ghost var d := doc.initialIndent;
      ghost var k := doc.keepData;
      WriteTwoParts(doc, Style.ItalicsText("JSON Parameter Syntax"), "::");
      WriteSyntaxBody(p);
      Paired(v, L(d, k, Style.ItalicsText("JSON Parameter Syntax") + "::"), L(d + 1, k, ""), Example(p, d + 1, k, false));
    }

    /** One level deeper: an empty paragraph and the example. */
    method WriteSyntaxBody(p: Param)
      requires doc.Valid()
      modifies doc`paragraphs, doc`lines, doc`initialIndent
      ensures doc.Valid() && doc.initialIndent == old(doc.initialIndent)
      ensures doc.lines == old(doc.lines) + [L(old(doc.initialIndent) + 1, doc.keepData, "")]
                           + Example(p, old(doc.initialIndent) + 1, doc.keepData, false)
    {
      doc.Indent();
      var _ := doc.AddParagraph();
      WriteExample(p);
      doc.Dedent();
    }

    /** `_do_example(param)`: the paragraphs of `Example`, with the corrected structure member head. */
    method WriteExample(p: Param)
      requires doc.Valid()
      modifies doc`paragraphs, doc`lines, doc`initialIndent
      ensures doc.Valid() && Grew(doc) && doc.initialIndent == old(doc.initialIndent)
      ensures doc.lines == old(doc.lines) + Example(p, old(doc.initialIndent), doc.keepData, false)
      decreases p, 6
    {
      match p.shape
      case ListOf(_) => WriteList(p);
      case MapOf(_, _) => WriteMap(p);
      case StructureOf(_) => WriteStructure(p);
      case Leaf(_) =>
        var _ := doc.AddParagraph();
    }

    /** The list branch of `_do_example`: `[`, the member, `]`. */
    method WriteList(p: Param)
      requires doc.Valid() && p.shape.ListOf?
      modifies doc`paragraphs, doc`lines, doc`initialIndent
      ensures doc.Valid() && Grew(doc) && doc.initialIndent == old(doc.initialIndent)
      ensures doc.lines == old(doc.lines) + ListExample(p, old(doc.initialIndent), doc.keepData, false)
      decreases p, 5
    {
      if IsScalar(p.shape.member) {
        WriteScalarList(ExampleValueName(p.shape.member));
      } else {
        WriteNestedList(p);
      }
    }

    /** A list of scalars: `[`, the member's placeholder `name` and `, ...`, and `]`, written to one paragraph. */
    method WriteScalarList(name: string)
      requires doc.Valid()
      modifies doc`paragraphs, doc`lines
      ensures doc.Valid() && Grew(doc)
      ensures doc.lines == old(doc.lines) + [L(doc.initialIndent, doc.keepData, "[" + name + ", ...]")]
    {
      WriteThreeParts(doc, "[", name + ", ...", "]");
      assert "[" + (name + ", ..." + "]") == "[" + name + ", ...]";
    }

    /** A list of lists, maps, structures or other types: `[`, the member's example and `...` one level deeper, `]`. */
    method WriteNestedList(p: Param)
      requires doc.Valid() && p.shape.ListOf?
      modifies doc`paragraphs, doc`lines, doc`initialIndent
      ensures doc.Valid() && Grew(doc) && doc.initialIndent == old(doc.initialIndent)
      ensures var d := old(doc.initialIndent); var k := doc.keepData;
        doc.lines == old(doc.lines) + ([L(d, k, "[")] + Example(p.shape.member, d + 1, k, false) + [L(d + 1, k, "..."), L(d, k, "]")])
      decreases p, 4
    {
      ghost var v := doc.lines;
      ghost var d := doc.initialIndent;
      ghost var k := doc.keepData;
      OpenLine(doc, "[");
      WriteListTail(p);
      Wrapped(v, L(d, k, "["), Example(p.shape.member, d + 1, k, false), L(d + 1, k, "..."), L(d, k, "]"));
    }

    /** One level inside the brackets: the member's example and `...`; then `]` back at the list's own level. */
    method WriteListTail(p: Param)
      requires doc.Valid() && p.shape.ListOf?
      modifies doc`paragraphs, doc`lines, doc`initialIndent
      ensures doc.Valid() && Grew(doc) && doc.initialIndent == old(doc.initialIndent) - 1
      ensures doc.lines == old(doc.lines) + Example(p.shape.member, old(doc.initialIndent), doc.keepData, false)
                           + [L(old(doc.initialIndent), doc.keepData, "...")] + [L(old(doc.initialIndent) - 1, doc.keepData, "]")]
      decreases p, 3
    {
      WriteExample(p.shape.member);
      NewLine(doc, "...");
      CloseLine(doc, "]");
    }

    /** The map branch of `_do_example`: `{`, one entry and `...` one level deeper, `}`. */
    method WriteMap(p: Param)
      requires doc.Valid() && p.shape.MapOf?
      modifies doc`paragraphs, doc`lines, doc`initialIndent
      ensures doc.Valid() && Grew(doc) && doc.initialIndent == old(doc.initialIndent)
      ensures doc.lines == old(doc.lines) + MapExample(p, old(doc.initialIndent), doc.keepData, false)
      decreases p, 3
    {
      ghost var v := doc.lines;
      ghost var d := doc.initialIndent;
      ghost var k := doc.keepData;
      OpenLine(doc, "{");
      WriteMapTail(p);
      Wrapped(v, L(d, k, "{"), MapEntry(p.shape.key, p.shape.member, d + 1, k, false), L(d + 1, k, "..."), L(d, k, "}"));
    }

    /** One level inside the braces: the map's entry and `...`; then `}` back at the map's own level. */
    method WriteMapTail(p: Param)
      requires doc.Valid() && p.shape.MapOf?
      modifies doc`paragraphs, doc`lines, doc`initialIndent
      ensures doc.Valid() && Grew(doc) && doc.initialIndent == old(doc.initialIndent) - 1
      ensures doc.lines == old(doc.lines) + MapEntry(p.shape.key, p.shape.member, old(doc.initialIndent), doc.keepData, false)
                           + [L(old(doc.initialIndent), doc.keepData, "...")] + [L(old(doc.initialIndent) - 1, doc.keepData, "}")]
      decreases p, 2
    {
      WriteMapEntry(p);
      NewLine(doc, "...");
      CloseLine(doc, "}");
    }

    /** A map's entry: the key placeholder, then the member's placeholder on the same line or its example one level deeper. */
    method WriteMapEntry(p: Param)
      requires doc.Valid() && p.shape.MapOf?
      modifies doc`paragraphs, doc`lines, doc`initialIndent
      ensures doc.Valid() && Grew(doc) && doc.initialIndent == old(doc.initialIndent)
      ensures doc.lines == old(doc.lines) + MapEntry(p.shape.key, p.shape.member, old(doc.initialIndent), doc.keepData, false)
      decreases p, 1
    {
      var keyString := ExampleValueName(p.shape.key);
      var m := p.shape.member;
      if IsScalar(m) {
        WriteTwoParts(doc, keyString + ": ", ExampleValueName(m));
      } else {
        WriteNestedEntry(p);
      }
    }

    /** A map entry whose value is a list, map or structure: the key, then the value's example one level deeper. */
    method WriteNestedEntry(p: Param)
      requires doc.Valid() && p.shape.MapOf?
      modifies doc`paragraphs, doc`lines, doc`initialIndent
      ensures doc.Valid() && Grew(doc) && doc.initialIndent == old(doc.initialIndent)
      ensures doc.lines == old(doc.lines) + [L(old(doc.initialIndent), doc.keepData, ExampleValueName(p.shape.key) + ": ")]
                           + Example(p.shape.member, old(doc.initialIndent) + 1, doc.keepData, false)
      decreases p, 0
    {
      OpenLine(doc, ExampleValueName(p.shape.key) + ": ");
      WriteExample(p.shape.member);
      doc.Dedent();
    }

    /** The structure branch of `_do_example`: `{`, each member in order one level deeper, `}`. */
    method WriteStructure(p: Param)
      requires doc.Valid() && p.shape.StructureOf?
      modifies doc`paragraphs, doc`lines, doc`initialIndent
      ensures doc.Valid() && Grew(doc) && doc.initialIndent == old(doc.initialIndent)
      ensures doc.lines == old(doc.lines) + StructureExample(p, old(doc.initialIndent), doc.keepData, false)
      decreases p, 5
    {
      ghost var v := doc.lines;
      ghost var d := doc.initialIndent;
      ghost var k := doc.keepData;
      OpenLine(doc, "{");
      WriteMembers(p);
      CloseLine(doc, "}");
      Enclosed(v, L(d, k, "{"), Concat(Blocks(p, d + 1, k, false)), L(d, k, "}"));
    }

    /** The structure loop: each member's paragraphs in order. */
    method WriteMembers(p: Param)
      requires doc.Valid() && p.shape.StructureOf?
      modifies doc`paragraphs, doc`lines, doc`initialIndent
      ensures doc.Valid() && doc.initialIndent == old(doc.initialIndent)
      ensures doc.lines == old(doc.lines) + Concat(Blocks(p, old(doc.initialIndent), doc.keepData, false))
      decreases p, 4
    {
      ghost var v := doc.lines;
      ghost var d := doc.initialIndent;
      ghost var k := doc.keepData;
      ghost var bs := Blocks(p, d, k, false);
      var i := 0;
      while i < |p.shape.fields|
        invariant 0 <= i <= |p.shape.fields|
        invariant doc.Valid() && doc.initialIndent == d && doc.keepData == k
        invariant doc.lines == v + ConcatTo(bs, i)
      {
        WriteNextMember(p, i, v, bs, d, k);
        i := i + 1;
      }
    }

    /** Member `i` written after the first `i` members' paragraphs. */
    method WriteNextMember(p: Param, i: nat, ghost v: seq<Line>, ghost bs: seq<seq<Line>>, ghost d: int, ghost k: bool)
      requires doc.Valid() && doc.initialIndent == d && doc.keepData == k && p.shape.StructureOf?
      requires i < |p.shape.fields| && bs == Blocks(p, d, k, false)
      requires doc.lines == v + ConcatTo(bs, i)
      modifies doc`paragraphs, doc`lines, doc`initialIndent
      ensures doc.Valid() && doc.initialIndent == d && doc.keepData == k
      ensures doc.lines == v + ConcatTo(bs, i + 1)
      decreases p, 3
    {
      WriteMember(p, i);
      ConcatStep(v, bs, i);
    }

    /** One pass of the structure loop: member `j`'s paragraphs, and a comma unless it is the last. */
    method WriteMember(p: Param, j: nat)
      requires doc.Valid() && p.shape.StructureOf? && j < |p.shape.fields|
      modifies doc`paragraphs, doc`lines, doc`initialIndent
      ensures doc.Valid() && Grew(doc) && doc.initialIndent == old(doc.initialIndent)
      ensures doc.lines == old(doc.lines) + Blocks(p, old(doc.initialIndent), doc.keepData, false)[j]
      decreases p, 2
    {
      ghost var v := doc.lines;
      ghost var block := Member(p, j, doc.initialIndent, doc.keepData, false);
      WriteMemberLines(p, j);
      WriteSeparator(j < |p.shape.fields| - 1, v, block);
      BlockIsMember(p, j, old(doc.initialIndent), doc.keepData);
    }

    /** `get_current_paragraph().write(',')` when `comma` holds; the current paragraph is the last of `block`. */
    method WriteSeparator(comma: bool, ghost v: seq<Line>, ghost block: seq<Line>)
      requires doc.Valid() && doc.paragraphs != [] && |block| > 0 && doc.lines == v + block
      modifies doc.paragraphs[|doc.paragraphs| - 1], doc`lines
      ensures doc.Valid() && doc.paragraphs == old(doc.paragraphs)
      ensures doc.lines == v + Separated(block, doc.keepData, comma)
    {
      if comma {
        var current := doc.GetCurrentParagraph();
        assert current.Ok?;
        AppendToBlock(doc, v, block, ",");
      }
    }

    /** Member `j`'s key line, with its placeholder for a scalar and followed by its example for a list, map or structure. */
    method WriteMemberLines(p: Param, j: nat)
      requires doc.Valid() && p.shape.StructureOf? && j < |p.shape.fields|
      modifies doc`paragraphs, doc`lines, doc`initialIndent
      ensures doc.Valid() && Grew(doc) && doc.initialIndent == old(doc.initialIndent)
      ensures doc.lines == old(doc.lines) + Member(p, j, old(doc.initialIndent), doc.keepData, false)
      decreases p, 1
    {
      if Nested(p.shape.fields[j]) {
        WriteNestedMember(p, j);
      } else {
        WriteFlatMember(p, j);
        assert Member(p, j, old(doc.initialIndent), doc.keepData, false)
            == [L(old(doc.initialIndent), doc.keepData, MemberHead(p.shape.fields[j], false))] + [];
      }
    }

    /** A scalar member's key and placeholder in one paragraph; an empty paragraph for a member of any other type. */
    method WriteFlatMember(p: Param, j: nat)
      requires doc.Valid() && p.shape.StructureOf? && j < |p.shape.fields| && !Nested(p.shape.fields[j])
      modifies doc`paragraphs, doc`lines
      ensures doc.Valid() && Grew(doc)
      ensures doc.lines == old(doc.lines) + [L(doc.initialIndent, doc.keepData, MemberHead(p.shape.fields[j], false))]
    {
      var m := p.shape.fields[j];
      if IsScalar(m) {
        NewLine(doc, MemberKey(m) + ExampleValueName(m));
      } else {
        NewLine(doc, "");
      }
    }

    /** A list, map or structure member: its key, then its example one level deeper. */
    method WriteNestedMember(p: Param, j: nat)
      requires doc.Valid() && p.shape.StructureOf? && j < |p.shape.fields| && Nested(p.shape.fields[j])
      modifies doc`paragraphs, doc`lines, doc`initialIndent
      ensures doc.Valid() && Grew(doc) && doc.initialIndent == old(doc.initialIndent)
      ensures var m := p.shape.fields[j];
        doc.lines == old(doc.lines) + [L(old(doc.initialIndent), doc.keepData, MemberKey(m))]
                     + Example(m, old(doc.initialIndent) + 1, doc.keepData, false)
      decreases p, 0
    {
      var m := p.shape.fields[j];
      NewLine(doc, MemberKey(m));
      doc.Indent();
      WriteExample(m);
      doc.Dedent();
    }
  }

  // ---------------------------------------------------------------------
  // `ServiceDocument`.

  class ServiceDocument {
    const doc: Document

    constructor (doc: Document)
      ensures this.doc == doc
    {
      this.doc := doc;
    }

    /** `build_translation_map`: every operation's name. */
    method BuildTranslationMap(service: Service)
      modifies doc`translationMap
      ensures doc.translationMap == Assigned(old(doc.translationMap), OperationNamePairs(service.operations))
    {
      Assign(doc, OperationNamePairs(service.operations));
    }

    /** `build(do_man)`: title, description, and the table of contents for a man page or for HTML. */
    method Build(service: Service, doMan: bool, render: string -> string)
      requires doc.Valid()
      modifies doc`paragraphs, doc`lines, doc`initialIndent
      ensures doc.Valid() && doc.initialIndent == old(doc.initialIndent)
      ensures doc.lines == old(doc.lines) + ServicePage(service, doMan, old(doc.initialIndent), doc.keepData, render)
    {
      ghost var v := doc.lines;
      ghost var d := doc.initialIndent;
      var k := doc.keepData;
      WriteTitleAndDescription(doc, service.fullName, service.documentation, render);
      if doMan {
        DoManToc(service);
      } else {
        DoToc(service);
      }
      Assoc(v, TitleLines(service.fullName, d, k) + DescriptionLines(service.documentation, d, k, render),
            if doMan then ServiceManTocLines(service, d, k) else ServiceTocLines(service, d, k));
    }

    /** `do_toc`: a toctree of the operations' CLI names, in ascending order. */
    method DoToc(service: Service)
      requires doc.Valid()
      modifies doc`paragraphs, doc`lines, doc`initialIndent
      ensures doc.Valid() && doc.initialIndent == old(doc.initialIndent)
      ensures doc.lines == old(doc.lines) + ServiceTocLines(service, old(doc.initialIndent), doc.keepData)
    {
      ghost var v := doc.lines;
      ghost var d := doc.initialIndent;
      ghost var k := doc.keepData;
      NewLine(doc, Style.H2Text("Available Commands"));
      AddEmptyParagraph(doc);
      var names := Sort(OperationCliNames(service.operations));
      WriteTocTree(doc, names);
      Paired(v, L(d, k, Style.H2Text("Available Commands")), L(d, k, ""), TocTreeLines(names, d, k));
    }

    /** `do_man_toc`: the operations' CLI names as a bullet list, in ascending order, then an empty paragraph. */
    method DoManToc(service: Service)
      requires doc.Valid()
      modifies doc`paragraphs, doc`lines
      ensures doc.Valid()
      ensures doc.lines == old(doc.lines) + ServiceManTocLines(service, doc.initialIndent, doc.keepData)
    {
      NewLine(doc, Style.H2Text("Available Commands"));
      var names := Sort(OperationCliNames(service.operations));
      WriteBulletList(doc, names);
      var _ := doc.AddParagraph();
    }

    /** `do_operation_summary`: a reference one level deeper and the documentation one more level deeper. */
    method DoOperationSummary(op: Operation, render: string -> string)
      requires doc.Valid()
      modifies doc`paragraphs, doc`lines, doc`initialIndent
      ensures doc.Valid() && doc.initialIndent == old(doc.initialIndent)
      ensures doc.lines == old(doc.lines) + OperationSummaryLines(op, old(doc.initialIndent), doc.keepData, render)
    {
      doc.Indent();
      NewLine(doc, Style.RefText(op.cliName, None));
      WriteSummaryDocumentation(op, render);
      doc.Dedent();
    }

    method WriteSummaryDocumentation(op: Operation, render: string -> string)
      requires doc.Valid()
      modifies doc`paragraphs, doc`lines, doc`initialIndent
      ensures doc.Valid() && doc.initialIndent == old(doc.initialIndent)
      ensures doc.lines == old(doc.lines) + [L(old(doc.initialIndent) + 1, doc.keepData, DocText(op.documentation, render))]
    {
      ghost var v := doc.lines;
      doc.Indent();
      var _ := doc.AddParagraph();
      if op.documentation != "" {
        Extend(doc, v, doc.initialIndent, "", render(op.documentation));
        assert "" + render(op.documentation) == DocText(op.documentation, render);
      }
      doc.Dedent();
    }
  }

  // ---------------------------------------------------------------------
  // `ProviderDocument`.

  class ProviderDocument {
    const doc: Document

    constructor (doc: Document)
      ensures this.doc == doc
    {
      this.doc := doc;
    }

    /** `do_usage(title)`: the `aws` heading, and the rendered title written to it. */
    method DoUsage(title: string, render: string -> string)
      requires doc.Valid()
      modifies doc`paragraphs, doc`lines
      ensures doc.Valid()
      ensures doc.lines == old(doc.lines) + UsageLines(title, doc.initialIndent, doc.keepData, render)
    {
      WriteTwoParts(doc, Style.H2Text("aws"), render(title));
    }

    /** `do_synopsis(synopsis)`: `::`, an empty paragraph, the synopsis one level deeper, an empty paragraph. */
    method DoSynopsis(synopsis: string)
      requires doc.Valid()
      modifies doc`paragraphs, doc`lines, doc`initialIndent
      ensures doc.Valid() && doc.initialIndent == old(doc.initialIndent)
      ensures doc.lines == old(doc.lines) + ProviderSynopsisLines(synopsis, old(doc.initialIndent), doc.keepData)
    {
      NewLine(doc, "::");
      var _ := doc.AddParagraph();
      doc.Indent();
      NewLine(doc, synopsis);
      doc.Dedent();
      var _ := doc.AddParagraph();
    }

    /** `do_toc`: a toctree of the available services' index pages, in ascending order. */
    method DoToc(services: seq<string>)
      requires doc.Valid()
      modifies doc`paragraphs, doc`lines, doc`initialIndent
      ensures doc.Valid() && doc.initialIndent == old(doc.initialIndent)
      ensures doc.lines == old(doc.lines) + ProviderTocLines(services, old(doc.initialIndent), doc.keepData)
    {
      ghost var v := doc.lines;
      NewLine(doc, Style.H2Text("Available Services"));
      var names := Sort(services);
      WriteTocTree(doc, IndexPages(names));
      Assoc(v, [L(doc.initialIndent, doc.keepData, Style.H2Text("Available Services"))],
            TocTreeLines(IndexPages(names), doc.initialIndent, doc.keepData));
    }

    /** `do_man_toc`: the available services as a bullet list, in ascending order. */
    method DoManToc(services: seq<string>)
      requires doc.Valid()
      modifies doc`paragraphs, doc`lines
      ensures doc.Valid()
      ensures doc.lines == old(doc.lines) + ProviderManTocLines(services, doc.initialIndent, doc.keepData)
    {
      NewLine(doc, Style.H2Text("Available Services"));
      var names := Sort(services);
      WriteBulletList(doc, names);
    }

    /** `do_options(options)`: the heading, then each `--` option in the dictionary's order. */
    method DoOptions(options: Dict<ManOption>)
      requires doc.Valid()
      modifies doc`paragraphs, doc`lines, doc`initialIndent
      ensures doc.Valid() && doc.initialIndent == old(doc.initialIndent)
      ensures doc.lines == old(doc.lines) + OptionsLines(options, old(doc.initialIndent), doc.keepData)
    {
      ghost var v := doc.lines;
      NewLine(doc, Style.H2Text("OPTIONS"));
      WriteOptions(options);
      Assoc(v, [L(old(doc.initialIndent), doc.keepData, Style.H2Text("OPTIONS"))],
            Concat(OptionBlocks(options, old(doc.initialIndent), doc.keepData)));
    }

    method WriteOptions(options: Dict<ManOption>)
      requires doc.Valid()
      modifies doc`paragraphs, doc`lines, doc`initialIndent
      ensures doc.Valid() && doc.initialIndent == old(doc.initialIndent)
      ensures doc.lines == old(doc.lines) + Concat(OptionBlocks(options, old(doc.initialIndent), doc.keepData))
    {
      ghost var v := doc.lines;
      ghost var d := doc.initialIndent;
      ghost var k := doc.keepData;
      ghost var bs := OptionBlocks(options, d, k);
      var i := 0;
      while i < |options|
        invariant 0 <= i <= |options|
        invariant doc.Valid() && doc.initialIndent == d && doc.keepData == k
        invariant doc.lines == v + ConcatTo(bs, i)
      {
        WriteNextOption(options, i, v, bs, d, k);
        i := i + 1;
      }
    }

    /** Option `i` written after the first `i`. */
    method WriteNextOption(options: Dict<ManOption>, i: nat, ghost v: seq<Line>, ghost bs: seq<seq<Line>>, ghost d: int, ghost k: bool)
      requires doc.Valid() && doc.initialIndent == d && doc.keepData == k
      requires i < |options| && bs == OptionBlocks(options, d, k)
      requires doc.lines == v + ConcatTo(bs, i)
      modifies doc`paragraphs, doc`lines, doc`initialIndent
      ensures doc.Valid() && doc.initialIndent == d && doc.keepData == k
      ensures doc.lines == v + ConcatTo(bs, i + 1)
    {
      WriteOption(options[i]);
      ConcatStep(v, bs, i);
    }

    /** An option spelled with `--`: its usage in code, its help one level deeper, and its sorted choices. */
    method WriteOption(e: (string, ManOption))
      requires doc.Valid()
      modifies doc`paragraphs, doc`lines, doc`initialIndent
      ensures doc.Valid() && doc.initialIndent == old(doc.initialIndent)
      ensures doc.lines == old(doc.lines) + OptionLines(e, old(doc.initialIndent), doc.keepData)
    {
      if StartsWith(e.0, "--") {
        ghost var v := doc.lines;
        ghost var d := doc.initialIndent;
        WriteOptionHead(e);
        ChoicesAppended(e, d, doc.keepData);
        WriteChoices(e.1, v, OptionHead(e, d, doc.keepData));
      }
    }

    /** The usage paragraph, and the help one level deeper when there is one. */
    method WriteOptionHead(e: (string, ManOption))
      requires doc.Valid()
      modifies doc`paragraphs, doc`lines, doc`initialIndent
      ensures doc.Valid() && Grew(doc) && doc.initialIndent == old(doc.initialIndent)
      ensures doc.lines == old(doc.lines) + OptionHead(e, old(doc.initialIndent), doc.keepData)
    {
      var usage := e.0;
      if e.1.metavar.Some? {
        usage := usage + (" <" + e.1.metavar.value + ">");
      } else {
        assert usage + "" == usage;
      }
      NewLine(doc, Style.CodeText(usage));
      if e.1.help.Some? {
        NewLineDeeper(doc, e.1.help.value);
      }
    }

    /** The sorted choices as bullet lines, written to the last paragraph, which is the last of `head`. */
    method WriteChoices(o: ManOption, ghost v: seq<Line>, ghost head: seq<Line>)
      requires doc.Valid() && doc.paragraphs != [] && |head| > 0 && doc.lines == v + head
      modifies doc.paragraphs[|doc.paragraphs| - 1], doc`lines, doc`initialIndent
      ensures doc.Valid() && doc.initialIndent == old(doc.initialIndent)
      ensures doc.lines == v + AppendLast(head, Kept(doc.keepData, ChoiceItems(o)))
    {
      if o.choices.Some? {
        WriteSortedItems(doc, o.choices.value);
        AppendLastConcat(v, head, Kept(doc.keepData, ItemsText(Sort(o.choices.value))));
      } else {
        AppendNothing(head);
      }
    }
  }

  /** One level deeper, `sorted(choices)` as bullet lines in the last paragraph. */
  method WriteSortedItems(doc: Document, choices: seq<string>)
    requires doc.Valid() && doc.paragraphs != []
    modifies doc.paragraphs[|doc.paragraphs| - 1], doc`lines, doc`initialIndent
    ensures doc.Valid() && doc.paragraphs == old(doc.paragraphs) && doc.initialIndent == old(doc.initialIndent)
    ensures doc.lines == AppendLast(old(doc.lines), Kept(doc.keepData, ItemsText(Sort(choices))))
  {
    doc.Indent();
    var sorted := Sort(choices);
    WriteItems(doc, sorted);
    doc.Dedent();
  }

  /** An option's usage line, and its help line when it has help. */
  ghost function OptionHead(e: (string, ManOption), d: int, k: bool): (r: seq<Line>) {
    [L(d, k, Style.CodeText(OptionUsage(e.0, e.1)))] + (if e.1.help.Some? then [L(d + 1, k, e.1.help.value)] else [])
  }

  /** A `--` option's lines are its head with the choices written to the last of them. */
  lemma ChoicesAppended(e: (string, ManOption), d: int, k: bool)
    requires StartsWith(e.0, "--")
    ensures |OptionHead(e, d, k)| > 0
    ensures OptionLines(e, d, k) == AppendLast(OptionHead(e, d, k), Kept(k, ChoiceItems(e.1)))
  {
    var code := Style.CodeText(OptionUsage(e.0, e.1));
    if e.1.help.Some? {
      KeptConcat(k, e.1.help.value, ChoiceItems(e.1));
    } else {
      KeptConcat(k, code, ChoiceItems(e.1));
    }
  }
}
