/**
 * The paragraphs the man-page documents of bcdoc/mangen.py add, apart from
 * the JSON syntax examples of `ManSyntax`: a parameter's description, the
 * synopsis and parameter sections of an operation, its filters, the tables
 * of contents of a service and of the provider, the provider's options, and
 * the translation map each document builds.
 *
 * As in `ManSyntax`, a paragraph is a `Line`: the indentation it was created
 * at and its text. `d` is the document's indentation when the operation
 * starts, `k` its `keep_data`, and `render` gives the text the doc-string
 * parser leaves in the current paragraph for a piece of documentation.
 * Markup the style writes outside a `para.write` call (list bullets and
 * breaks) goes to the current paragraph, with the style at depth zero and
 * paragraph breaks on.
 */
module ManPages {
  import opened Wrappers
  import opened Text
  import opened Params
  import Style
  import opened DocumentModel
  import opened ManSyntax

  // ---------------------------------------------------------------------
  // `do_example`: the syntax block of a list, structure or map parameter.

  function ExampleSection(p: Param, d: int, k: bool): seq<Line> {
    if p.shape.Leaf? then []
    else SyntaxBlock(p, d, k) + [L(d, k, "")]
  }

  /** One level deeper, the italic title with `::`; two levels deeper, an empty paragraph and the example. */
  function SyntaxBlock(p: Param, d: int, k: bool): seq<Line> {
    [L(d + 1, k, Style.ItalicsText("JSON Parameter Syntax") + "::"), L(d + 2, k, "")] + Example(p, d + 2, k, false)
  }

  /**
   * Only lists, structures and maps get a syntax block, it never reaches to
   * the left of the indentation it started at, and it ends back there.
   */
  lemma ExampleSectionKinds(p: Param, d: int, k: bool)
    ensures ExampleSection(p, d, k) != [] <==> TypeName(p) in ["list", "structure", "map"]
    ensures IndentedFrom(ExampleSection(p, d, k), d)
    ensures ExampleSection(p, d, k) != [] ==> ExampleSection(p, d, k)[|ExampleSection(p, d, k)| - 1] == Line(d, "")
  {
    TypeNameKind(p);
    if !p.shape.Leaf? {
      ExampleIndented(p, d + 2, k, false);
      var head := [L(d + 1, k, Style.ItalicsText("JSON Parameter Syntax") + "::"), L(d + 2, k, "")];
      IndentedConcat(head, Example(p, d + 2, k, false), d);
      IndentedConcat(head + Example(p, d + 2, k, false), [L(d, k, "")], d);
    }
  }

  // ---------------------------------------------------------------------
  // `do_parameter`.

  /** `py_name` for a sub-item, `cli_name` otherwise. */
  function ParamName(p: Param, subitem: bool): string {
    if subitem then p.pyName else p.cliName
  }

  /** The type shown in parentheses: a list of scalars names its member type. */
  function TypeText(p: Param): string {
    if p.shape.ListOf? && IsScalar(p.shape.member) then "list of " + TypeName(p.shape.member)
    else TypeName(p)
  }

  /** A boolean with a (non-empty) `false_name` shows it after a bar. */
  function FalseNameText(p: Param): string {
    if p.shape == Leaf(BooleanType) && p.falseName.Some? && p.falseName.value != "" then
      " | " + Style.CodeText(p.falseName.value)
    else ""
  }

  /** What a doc string leaves in the current paragraph; an empty one is not fed. */
  function DocText(documentation: string, render: string -> string): string {
    if documentation == "" then "" else render(documentation)
  }

  /** The first paragraph of a parameter: name, false name, type and documentation. */
  function ParameterHead(p: Param, subitem: bool, render: string -> string): string {
    Style.CodeText(ParamName(p, subitem)) + FalseNameText(p) + (" (" + TypeText(p) + ")") + DocText(p.documentation, render)
  }

  /** The type text and the bar, stated in terms of the source's type names. */
  lemma ParameterHeadByName(p: Param)
    ensures TypeText(p) != TypeName(p) <==> TypeName(p) == "list" && TypeName(p.shape.member) in ScalarTypes
    ensures TypeText(p) != TypeName(p) ==> TypeText(p) == "list of " + TypeName(p.shape.member)
    ensures FalseNameText(p) != "" <==> TypeName(p) == "boolean" && p.falseName.Some? && p.falseName.value != ""
  {
    TypeNameKind(p);
    if p.shape.ListOf? {
      ScalarByName(p.shape.member);
      if IsScalar(p.shape.member) {
        assert ("list of " + TypeName(p.shape.member))[..4] == "list";
      }
    }
  }

  /**
   * A parameter's paragraphs: its head, the paragraphs of its sub-items one
   * level deeper, and an empty paragraph back at `d`.
   */
  function ParameterLines(p: Param, subitem: bool, d: int, k: bool, render: string -> string): (r: seq<Line>)
    decreases p, 2
  {
    [L(d, k, ParameterHead(p, subitem, render))] + SubParameterLines(p, d + 1, k, render) + [L(d, k, "")]
  }

  /** The sub-items of a parameter, at `d`: a structure's members, or a list's non-scalar member. */
  function SubParameterLines(p: Param, d: int, k: bool, render: string -> string): seq<Line>
    decreases p, 1
  {
    match p.shape
    case StructureOf(_) => Concat(FieldParameters(p, d, k, render))
    case ListOf(m) => if IsScalar(m) then [] else ParameterLines(m, true, d, k, render)
    case _ => []
  }

  /** The paragraphs of each member of a structure, as sub-items at `d`. */
  function FieldParameters(p: Param, d: int, k: bool, render: string -> string): (bs: seq<seq<Line>>)
    requires p.shape.StructureOf?
    ensures |bs| == |p.shape.fields|
    decreases p, 0
  {
    var fs := p.shape.fields;
    seq(|fs|, i requires 0 <= i < |fs| => ParameterLines(fs[i], true, d, k, render))
  }

  /** `do_parameter` restores the indentation: nothing is to the left of `d`, and it starts and ends at `d`. */
  lemma {:induction false} ParameterIndented(p: Param, subitem: bool, d: int, k: bool, render: string -> string)
    ensures var r := ParameterLines(p, subitem, d, k, render);
      IndentedFrom(r, d) && r[0].indent == d && r[|r| - 1] == Line(d, "")
    decreases p, 2
  {
    SubIndented(p, d + 1, k, render);
    var head := [L(d, k, ParameterHead(p, subitem, render))];
    IndentedConcat(head, SubParameterLines(p, d + 1, k, render), d);
    IndentedConcat(head + SubParameterLines(p, d + 1, k, render), [L(d, k, "")], d);
  }

  lemma {:induction false} SubIndented(p: Param, d: int, k: bool, render: string -> string)
    ensures IndentedFrom(SubParameterLines(p, d, k, render), d)
    decreases p, 1
  {
    match p.shape
    case StructureOf(_) =>
      var bs := FieldParameters(p, d, k, render);
      forall j | 0 <= j < |bs| ensures IndentedFrom(bs[j], d) {
        ParameterIndented(p.shape.fields[j], true, d, k, render);
      }
      ConcatIndented(bs, |bs|, d);
    case ListOf(m) =>
      if !IsScalar(m) {
        ParameterIndented(m, true, d, k, render);
      }
    case _ =>
  }

  // ---------------------------------------------------------------------
  // `do_parameters`.

  /** `[p for p in params if p.required]`. */
  function Required(ps: seq<Param>): seq<Param> {
    if ps == [] then []
    else Required(ps[..|ps| - 1]) + (if ps[|ps| - 1].required then [ps[|ps| - 1]] else [])
  }

  /** `[p for p in params if not p.required]`. */
  function Optional(ps: seq<Param>): seq<Param> {
    if ps == [] then []
    else Optional(ps[..|ps| - 1]) + (if ps[|ps| - 1].required then [] else [ps[|ps| - 1]])
  }

  /** `ps` is `a` and `b` merged, each keeping its own order. */
  predicate Interleaving(ps: seq<Param>, a: seq<Param>, b: seq<Param>)
    decreases |ps|
  {
    if ps == [] then a == [] && b == []
    else
      || (a != [] && a[|a| - 1] == ps[|ps| - 1] && Interleaving(ps[..|ps| - 1], a[..|a| - 1], b))
      || (b != [] && b[|b| - 1] == ps[|ps| - 1] && Interleaving(ps[..|ps| - 1], a, b[..|b| - 1]))
  }

  /**
   * The required and the optional parameters split the list: each group
   * holds only its kind, in the original order, and together they hold every
   * parameter exactly once.
   */
  lemma SplitKeepsOrder(ps: seq<Param>)
    ensures Interleaving(ps, Required(ps), Optional(ps))
    ensures forall p :: p in Required(ps) ==> p.required
    ensures forall p :: p in Optional(ps) ==> !p.required
    ensures multiset(Required(ps)) + multiset(Optional(ps)) == multiset(ps)
  {
    SplitInterleaves(ps);
    SplitKinds(ps);
    SplitCounts(ps);
  }

  lemma {:induction false} SplitInterleaves(ps: seq<Param>)
    ensures Interleaving(ps, Required(ps), Optional(ps))
    decreases |ps|
  {
    if ps != [] {
      var front, x := ps[..|ps| - 1], ps[|ps| - 1];
      SplitInterleaves(front);
      if x.required {
        assert Required(ps)[..|Required(ps)| - 1] == Required(front);
        assert Optional(ps) == Optional(front);
      } else {
        assert Optional(ps)[..|Optional(ps)| - 1] == Optional(front);
        assert Required(ps) == Required(front);
      }
    }
  }

  lemma {:induction false} SplitKinds(ps: seq<Param>)
    ensures forall p :: p in Required(ps) ==> p.required
    ensures forall p :: p in Optional(ps) ==> !p.required
    decreases |ps|
  {
    if ps != [] {
      SplitKinds(ps[..|ps| - 1]);
    }
  }

  lemma {:induction false} SplitCounts(ps: seq<Param>)
    ensures multiset(Required(ps)) + multiset(Optional(ps)) == multiset(ps)
    decreases |ps|
  {
    if ps != [] {
      var front := ps[..|ps| - 1];
      SplitCounts(front);
      assert ps == front + [ps[|ps| - 1]];
    }
  }

  /** `'%s ' % param.false_name`: Python shows a missing name as `None`. */
  function FalseNameValue(p: Param): string {
    if p.falseName.Some? then p.falseName.value else "None"
  }

  /** A required parameter in the synopsis; a boolean shows its false name on a paragraph of its own. */
  function RequiredSynopsis(p: Param, d: int, k: bool): seq<Line> {
    if p.shape == Leaf(BooleanType) then [L(d, k, p.cliName + " "), L(d, k, FalseNameValue(p) + " ")]
    else [L(d, k, p.cliName + " " + "<value>")]
  }

  /** An optional parameter in the synopsis, in brackets; a boolean takes no value. */
  function OptionalSynopsis(p: Param, d: int, k: bool): seq<Line> {
    [L(d, k, "[" + p.cliName + " " + (if p.shape == Leaf(BooleanType) then "" else "<value>") + "]")]
  }

  function RequiredSynopses(ps: seq<Param>, d: int, k: bool): (bs: seq<seq<Line>>)
    ensures |bs| == |ps|
  {
    seq(|ps|, i requires 0 <= i < |ps| => RequiredSynopsis(ps[i], d, k))
  }

  function OptionalSynopses(ps: seq<Param>, d: int, k: bool): (bs: seq<seq<Line>>)
    ensures |bs| == |ps|
  {
    seq(|ps|, i requires 0 <= i < |ps| => OptionalSynopsis(ps[i], d, k))
  }

  function StreamingLines(streaming: bool, d: int, k: bool): seq<Line> {
    if streaming then [L(d, k, "output_file")] else []
  }

  /** The heading and the command line of the synopsis. */
  function SynopsisHead(op: Operation, provider: string, service: string, d: int, k: bool): seq<Line> {
    [L(d, k, Style.H2Text("SYNOPSIS")), L(d, k, "::"), L(d + 1, k, ""),
     L(d + 1, k, provider + " " + service + " " + op.cliName)]
  }

  /** The arguments of the synopsis, at `d`: required, optional, then the output file. */
  function SynopsisBody(op: Operation, d: int, k: bool): seq<Line> {
    Concat(RequiredSynopses(Required(op.params), d, k)) + Concat(OptionalSynopses(Optional(op.params), d, k))
    + StreamingLines(op.streaming, d, k)
  }

  /** Every paragraph's text differs from `t`. */
  predicate Avoids(lines: seq<Line>, t: string) {
    forall i :: 0 <= i < |lines| ==> lines[i].text != t
  }

  lemma {:induction false} ConcatAvoids(bs: seq<seq<Line>>, n: nat, t: string)
    requires n <= |bs| && forall j :: 0 <= j < |bs| ==> Avoids(bs[j], t)
    ensures Avoids(ConcatTo(bs, n), t)
  {
    if n > 0 {
      ConcatAvoids(bs, n - 1, t);
    }
  }

  /**
   * With data kept, an `output_file` argument appears in the synopsis exactly
   * when the operation streams its output: no parameter's synopsis reads so.
   */
  lemma OutputFileOnlyWhenStreaming(op: Operation, provider: string, service: string, d: int)
    ensures var s := SynopsisHead(op, provider, service, d, true) + SynopsisBody(op, d + 2, true);
      (exists i :: 0 <= i < |s| && s[i] == Line(d + 2, "output_file")) <==> op.streaming
  {
    var req := RequiredSynopses(Required(op.params), d + 2, true);
    var opt := OptionalSynopses(Optional(op.params), d + 2, true);
    forall j | 0 <= j < |req| ensures Avoids(req[j], "output_file") {
      var p := Required(op.params)[j];
      if p.shape == Leaf(BooleanType) {
        assert (p.cliName + " ")[|p.cliName|] == ' ';
        assert (FalseNameValue(p) + " ")[|FalseNameValue(p)|] == ' ';
      } else {
        assert (p.cliName + " " + "<value>")[|p.cliName| + 7] == '>';
      }
    }
    forall j | 0 <= j < |opt| ensures Avoids(opt[j], "output_file") {
      var p := Optional(op.params)[j];
      assert opt[j][0].text[0] == '[';
    }
    ConcatAvoids(req, |req|, "output_file");
    ConcatAvoids(opt, |opt|, "output_file");
    var s := SynopsisHead(op, provider, service, d, true) + SynopsisBody(op, d + 2, true);
    var head := SynopsisHead(op, provider, service, d, true);
    var args := Concat(req) + Concat(opt);
    assert SynopsisBody(op, d + 2, true) == args + StreamingLines(op.streaming, d + 2, true);
    if op.streaming {
      assert s[|s| - 1] == Line(d + 2, "output_file");
    } else {
      assert s == head + args;
      forall i | 0 <= i < |s| ensures s[i] != Line(d + 2, "output_file") {
        if i >= |head| {
          var j := i - |head|;
          if j < |Concat(req)| {
            assert s[i] == Concat(req)[j];
          } else {
            assert s[i] == Concat(opt)[j - |Concat(req)|];
          }
        }
      }
    }
  }

  /** A top-level parameter's description, followed by its syntax block. */
  function ParameterEntry(p: Param, d: int, k: bool, render: string -> string): seq<Line> {
    ParameterLines(p, false, d, k, render) + ExampleSection(p, d, k)
  }

  function ParameterEntries(ps: seq<Param>, d: int, k: bool, render: string -> string): (bs: seq<seq<Line>>)
    ensures |bs| == |ps|
  {
    seq(|ps|, i requires 0 <= i < |ps| => ParameterEntry(ps[i], d, k, render))
  }

  /** A titled group of parameters; an empty group shows `None`. */
  function Section(title: string, ps: seq<Param>, d: int, k: bool, render: string -> string): seq<Line> {
    [L(d, k, Style.H2Text(title))] + Concat(ParameterEntries(ps, d, k, render)) + (if ps == [] then [L(d, k, "None")] else [])
  }

  /** The last paragraph of the first `n` runs is the last paragraph of run `n`, when that run has one. */
  lemma ConcatLast(bs: seq<seq<Line>>, n: nat)
    requires 0 < n <= |bs| && bs[n - 1] != []
    ensures ConcatTo(bs, n) != [] && ConcatTo(bs, n)[|ConcatTo(bs, n)| - 1] == bs[n - 1][|bs[n - 1]| - 1]
  {
  }

  /**
   * An empty group is its heading and `None`; a non-empty one ends with the
   * empty paragraph that closes its last parameter, so `None` shows exactly
   * for an empty group.
   */
  lemma NoneOnlyWhenEmpty(title: string, ps: seq<Param>, d: int, k: bool, render: string -> string)
    ensures ps == [] ==> Section(title, ps, d, k, render) == [L(d, k, Style.H2Text(title)), L(d, k, "None")]
    ensures ps != [] ==> var s := Section(title, ps, d, k, render); s[|s| - 1] == Line(d, "")
  {
    if ps != [] {
      SectionClosed(title, ps, d, k, render);
    }
  }

  lemma SectionClosed(title: string, ps: seq<Param>, d: int, k: bool, render: string -> string)
    requires ps != []
    ensures var s := Section(title, ps, d, k, render); s[|s| - 1] == Line(d, "")
  {
    var bs := ParameterEntries(ps, d, k, render);
    EntryClosed(ps[|ps| - 1], d, k, render);
    LastOfRuns([L(d, k, Style.H2Text(title))], bs, Line(d, ""));
  }

  /** Runs of paragraphs after a head end with the last paragraph of the last run. */
  lemma LastOfRuns(head: seq<Line>, bs: seq<seq<Line>>, x: Line)
    requires bs != [] && bs[|bs| - 1] != [] && bs[|bs| - 1][|bs[|bs| - 1]| - 1] == x
    ensures var s := head + Concat(bs) + []; s != [] && s[|s| - 1] == x
  {
    ConcatLast(bs, |bs|);
  }

  /** A top-level parameter's entry ends with an empty paragraph at the indentation it started at. */
  lemma EntryClosed(p: Param, d: int, k: bool, render: string -> string)
    ensures var e := ParameterEntry(p, d, k, render); e != [] && e[|e| - 1] == Line(d, "")
  {
    ParameterIndented(p, false, d, k, render);
    ExampleSectionKinds(p, d, k);
  }

  function PositionalLines(streaming: bool, d: int, k: bool): seq<Line> {
    if streaming then
      [L(d, k, Style.H2Text("POSITIONAL ARGUMENTS")), L(d, k, Style.CodeText("output_file") + " (blob)"),
       L(d + 1, k, "The output file")]
    else []
  }

  /** `do_parameters`: the synopsis, the required and the optional parameters, and the output file. */
  function ParametersLines(op: Operation, provider: string, service: string, d: int, k: bool, render: string -> string): seq<Line> {
    SynopsisLines(op, provider, service, d, k) + ParameterSections(op, d, k, render)
  }

  /** The synopsis: its heading and command line, then the arguments two levels deeper. */
  function SynopsisLines(op: Operation, provider: string, service: string, d: int, k: bool): seq<Line> {
    SynopsisHead(op, provider, service, d, k) + SynopsisBody(op, d + 2, k)
  }

  /** The required and the optional parameters, and the output file. */
  function ParameterSections(op: Operation, d: int, k: bool, render: string -> string): seq<Line> {
    Section("REQUIRED PARAMETERS", Required(op.params), d, k, render)
    + Section("OPTIONAL PARAMETERS", Optional(op.params), d, k, render)
    + PositionalLines(op.streaming, d, k)
  }

  // ---------------------------------------------------------------------
  // The pages.

  /** `do_title`: the title as a level-one heading, then an empty paragraph. */
  function TitleLines(title: string, d: int, k: bool): seq<Line> {
    [L(d, k, Style.H1Text(title)), L(d, k, "")]
  }

  /** `do_description`: the heading, and a paragraph for a non-empty description. */
  function DescriptionLines(description: string, d: int, k: bool, render: string -> string): seq<Line> {
    [L(d, k, Style.H2Text("DESCRIPTION"))] + (if description == "" then [] else [L(d, k, render(description))])
  }

  /** `OperationDocument.build`: title, description, parameters and filters. */
  function OperationPage(op: Operation, service: Service, provider: string, d: int, k: bool, render: string -> string): seq<Line> {
    TitleLines(op.cliName, d, k) + DescriptionLines(op.documentation, d, k, render)
    + ParametersLines(op, provider, service.cliName, d, k, render) + FiltersLines(op.filters, d, k, render)
  }

  /** `ServiceDocument.build`: title, description and the table of contents for a man page or for HTML. */
  function ServicePage(service: Service, doMan: bool, d: int, k: bool, render: string -> string): seq<Line> {
    TitleLines(service.fullName, d, k) + DescriptionLines(service.documentation, d, k, render)
    + (if doMan then ServiceManTocLines(service, d, k) else ServiceTocLines(service, d, k))
  }

  // ---------------------------------------------------------------------
  // `do_filters`.

  function FilterDocText(f: Filter, render: string -> string): string {
    if f.documentation.Some? then render(f.documentation.value) else ""
  }

  /** A filter: its name, the paragraph for its documentation and, when it has choices, the valid values. */
  function FilterLines(name: string, f: Filter, d: int, k: bool, render: string -> string): seq<Line> {
    [L(d, k, Style.CodeText(name)), L(d + 1, k, FilterDocText(f, render))]
    + (if f.choices.Some? then [L(d + 1, k, "Valid Values: " + Style.CodeText(Join(f.choices.value, "|")))] else [])
  }

  /** `sorted(operation.filters)`. */
  function FilterNames(fs: Dict<Filter>): (names: seq<string>)
    ensures Sorted(names) && multiset(names) == multiset(Keys(fs))
    ensures forall n :: n in names ==> n in Keys(fs)
  {
    var names := Sort(Keys(fs));
    assert forall n :: n in names ==> n in multiset(Keys(fs));
    names
  }

  function FilterBlocks(fs: Dict<Filter>, names: seq<string>, d: int, k: bool, render: string -> string): (bs: seq<seq<Line>>)
    requires forall n :: n in names ==> n in Keys(fs)
    ensures |bs| == |names|
  {
    seq(|names|, i requires 0 <= i < |names| => FilterLines(names[i], Lookup(fs, names[i]), d, k, render))
  }

  /** Nothing without filters; otherwise a heading, an empty paragraph and each filter in name order. */
  function FiltersLines(filters: Option<Dict<Filter>>, d: int, k: bool, render: string -> string): seq<Line> {
    if filters.None? then []
    else
      var fs := filters.value;
      [L(d, k, Style.H2Text("FILTERS")), L(d, k, "")] + Concat(FilterBlocks(fs, FilterNames(fs), d, k, render))
  }

  // ---------------------------------------------------------------------
  // `build_translation_map`.

  /** The dictionary after `m[key] = value` for each pair in turn. */
  function Assigned(m: map<string, string>, pairs: seq<(string, string)>): map<string, string> {
    if pairs == [] then m
    else Assigned(m, pairs[..|pairs| - 1])[pairs[|pairs| - 1].0 := pairs[|pairs| - 1].1]
  }

  /** The last assignment to a key is the one that stays. */
  lemma {:induction false} LastAssignmentWins(m: map<string, string>, pairs: seq<(string, string)>, i: nat)
    requires i < |pairs| && forall j :: i < j < |pairs| ==> pairs[j].0 != pairs[i].0
    ensures pairs[i].0 in Assigned(m, pairs) && Assigned(m, pairs)[pairs[i].0] == pairs[i].1
  {
    if i < |pairs| - 1 {
      LastAssignmentWins(m, pairs[..|pairs| - 1], i);
    }
  }

  /** A key no pair assigns keeps its entry, or its absence. */
  lemma {:induction false} UnassignedKept(m: map<string, string>, pairs: seq<(string, string)>, key: string)
    requires forall j :: 0 <= j < |pairs| ==> pairs[j].0 != key
    ensures (key in Assigned(m, pairs)) == (key in m)
    ensures key in m ==> Assigned(m, pairs)[key] == m[key]
  {
    if pairs != [] {
      UnassignedKept(m, pairs[..|pairs| - 1], key);
    }
  }

  /** Exactly the assigned keys are added. */
  lemma {:induction false} AssignedKeys(m: map<string, string>, pairs: seq<(string, string)>)
    ensures Assigned(m, pairs).Keys == m.Keys + set i | 0 <= i < |pairs| :: pairs[i].0
  {
    if pairs != [] {
      var front := pairs[..|pairs| - 1];
      AssignedKeys(m, front);
      assert forall i :: 0 <= i < |front| ==> front[i] == pairs[i];
      assert (set i | 0 <= i < |pairs| :: pairs[i].0) == (set i | 0 <= i < |front| :: front[i].0) + {pairs[|pairs| - 1].0};
    }
  }

  /** `(param.name, param.cli_name)` for each parameter. */
  function ParamNamePairs(ps: seq<Param>): (r: seq<(string, string)>)
    ensures |r| == |ps|
  {
    seq(|ps|, i requires 0 <= i < |ps| => (ps[i].name, ps[i].cliName))
  }

  /** `(operation.name, operation.cli_name)` for each operation. */
  function OperationNamePairs(ops: seq<Operation>): (r: seq<(string, string)>)
    ensures |r| == |ops|
  {
    seq(|ops|, i requires 0 <= i < |ops| => (ops[i].name, ops[i].cliName))
  }

  /** An operation document's map: its parameters' names, then every operation's of its service. */
  function OperationTranslation(params: seq<Param>, ops: seq<Operation>): map<string, string> {
    Assigned(Assigned(map[], ParamNamePairs(params)), OperationNamePairs(ops))
  }

  /** On a clash with a parameter's name, an operation's CLI name wins (the last such operation's). */
  lemma OperationNameWins(params: seq<Param>, ops: seq<Operation>, i: nat)
    requires i < |ops| && forall j :: i < j < |ops| ==> ops[j].name != ops[i].name
    ensures ops[i].name in OperationTranslation(params, ops)
    ensures OperationTranslation(params, ops)[ops[i].name] == ops[i].cliName
  {
    LastAssignmentWins(Assigned(map[], ParamNamePairs(params)), OperationNamePairs(ops), i);
  }

  /** A parameter name no operation uses maps to the CLI name of the last parameter with that name. */
  lemma ParameterNameKept(params: seq<Param>, ops: seq<Operation>, i: nat)
    requires i < |params| && forall j :: i < j < |params| ==> params[j].name != params[i].name
    requires forall j :: 0 <= j < |ops| ==> ops[j].name != params[i].name
    ensures params[i].name in OperationTranslation(params, ops)
    ensures OperationTranslation(params, ops)[params[i].name] == params[i].cliName
  {
    LastAssignmentWins(map[], ParamNamePairs(params), i);
    UnassignedKept(Assigned(map[], ParamNamePairs(params)), OperationNamePairs(ops), params[i].name);
  }

  // ---------------------------------------------------------------------
  // Tables of contents and bullet lists.

  /** `[op.cli_name for op in service.operations]`. */
  function OperationCliNames(ops: seq<Operation>): (r: seq<string>)
    ensures |r| == |ops|
  {
    seq(|ops|, i requires 0 <= i < |ops| => ops[i].cliName)
  }

  /** One paragraph per name, at `d`. */
  function NameLines(names: seq<string>, d: int, k: bool): (r: seq<Line>)
    ensures |r| == |names|
  {
    seq(|names|, i requires 0 <= i < |names| => L(d, k, names[i]))
  }

  /** The toctree options, one level deeper than the directive, and the blank paragraph after them. */
  function TocTreeOptions(d: int, k: bool): seq<Line> {
    [L(d + 1, k, ":maxdepth: 1"), L(d + 1, k, ":titlesonly:"), L(d + 1, k, "")]
  }

  /** A service's `do_toc`: a toctree of its operations' CLI names, in ascending order. */
  function ServiceTocLines(service: Service, d: int, k: bool): seq<Line> {
    [L(d, k, Style.H2Text("Available Commands")), L(d, k, "")] + TocTreeLines(Sort(OperationCliNames(service.operations)), d, k)
  }

  /** The toctree directive, then its options and the names one level deeper. */
  function TocTreeLines(names: seq<string>, d: int, k: bool): seq<Line> {
    [L(d, k, ".. toctree::")] + TocTreeOptions(d, k) + NameLines(names, d + 1, k)
  }

  /** `start_li()`, the item, `end_li()` for each item: a bullet line per item. */
  function ItemsText(items: seq<string>): string {
    if items == [] then ""
    else ItemsText(items[..|items| - 1]) + ("* " + items[|items| - 1] + "\n")
  }

  /** The bullet lines of the items. */
  function Bullets(items: seq<string>): (r: seq<string>)
    ensures |r| == |items|
  {
    seq(|items|, i requires 0 <= i < |items| => "* " + items[i])
  }

  lemma JoinSnoc(ws: seq<string>, w: string, sep: string)
    requires ws != []
    ensures Join(ws + [w], sep) == Join(ws, sep) + sep + w
    decreases |ws|
  {
    if |ws| > 1 {
      assert (ws + [w])[1..] == ws[1..] + [w];
      JoinSnoc(ws[1..], w, sep);
    }
  }

  /** The bullet text is the bullet lines, each ended by a line break. */
  lemma {:induction false} ItemsTextJoin(items: seq<string>)
    ensures ItemsText(items) == Join(Bullets(items) + [""], "\n")
    decreases |items|
  {
    if items != [] {
      var front := items[..|items| - 1];
      ItemsTextJoin(front);
      assert Bullets(items) == Bullets(front) + ["* " + items[|items| - 1]];
      assert Bullets(items) + [""] == (Bullets(front) + ["* " + items[|items| - 1]]) + [""];
      JoinSnoc(Bullets(front) + ["* " + items[|items| - 1]], "", "\n");
      if front == [] {
        assert Bullets(front) + ["* " + items[|items| - 1]] == ["* " + items[|items| - 1]];
      } else {
        JoinSnoc(Bullets(front), "* " + items[|items| - 1], "\n");
        JoinSnoc(Bullets(front), "", "\n");
      }
    }
  }

  /**
   * A bullet list reads back line by line: split at line breaks, it gives one
   * bullet per item, in order, provided no item holds a line break.
   */
  lemma BulletsReadBack(items: seq<string>)
    requires forall i, j :: 0 <= i < |items| && 0 <= j < |items[i]| ==> items[i][j] != '\n'
    ensures SplitOn(ItemsText(items), '\n') == Bullets(items) + [""]
  {
    ItemsTextJoin(items);
    var ws := Bullets(items) + [""];
    forall j, i | 0 <= j < |ws| && 0 <= i < |ws[j]| ensures ws[j][i] != '\n' {
      if j < |items| && i >= 2 {
        assert ws[j][i] == items[j][i - 2];
      }
    }
    SplitOnJoin(ws, '\n');
  }

  /** A service's `do_man_toc`: its operations' CLI names as a bullet list in one paragraph, then an empty one. */
  function ServiceManTocLines(service: Service, d: int, k: bool): seq<Line> {
    [L(d, k, Style.H2Text("Available Commands")),
     L(d, k, Style.Break(true, "") + ItemsText(Sort(OperationCliNames(service.operations)))), L(d, k, "")]
  }

  /** `do_operation_summary`: a reference one level deeper and the operation's documentation below it. */
  function OperationSummaryLines(op: Operation, d: int, k: bool, render: string -> string): seq<Line> {
    [L(d + 1, k, Style.RefText(op.cliName, None)), L(d + 2, k, DocText(op.documentation, render))]
  }

  /** The provider's `do_usage`: the `aws` heading, followed by the rendered title. */
  function UsageLines(title: string, d: int, k: bool, render: string -> string): seq<Line> {
    [L(d, k, Style.H2Text("aws") + render(title))]
  }

  /** The provider's `do_synopsis`: a literal block holding the synopsis one level deeper. */
  function ProviderSynopsisLines(synopsis: string, d: int, k: bool): seq<Line> {
    [L(d, k, "::"), L(d, k, ""), L(d + 1, k, synopsis), L(d, k, "")]
  }

  /** `service_name + '/index'` for each name. */
  function IndexPages(names: seq<string>): (r: seq<string>)
    ensures |r| == |names|
  {
    seq(|names|, i requires 0 <= i < |names| => names[i] + "/index")
  }

  /** The provider's `do_toc`: a toctree of the available services' index pages, in ascending order. */
  function ProviderTocLines(services: seq<string>, d: int, k: bool): seq<Line> {
    [L(d, k, Style.H2Text("Available Services"))] + TocTreeLines(IndexPages(Sort(services)), d, k)
  }

  /** The provider's `do_man_toc`: the available services as a bullet list in one paragraph. */
  function ProviderManTocLines(services: seq<string>, d: int, k: bool): seq<Line> {
    [L(d, k, Style.H2Text("Available Services")), L(d, k, Style.Break(true, "") + ItemsText(Sort(services)))]
  }

  // ---------------------------------------------------------------------
  // The provider's `do_options`.

  /** An entry of the options dictionary; each key of the source's dictionary is optional. */
  datatype ManOption = ManOption(metavar: Option<string>, help: Option<string>, choices: Option<seq<string>>)

  /** The option name, and its metavariable in angle brackets when it has one. */
  function OptionUsage(name: string, o: ManOption): string {
    name + (if o.metavar.Some? then " <" + o.metavar.value + ">" else "")
  }

  /** The option's choices as a bullet list, in ascending order. */
  function ChoiceItems(o: ManOption): string {
    if o.choices.Some? then ItemsText(Sort(o.choices.value)) else ""
  }

  /**
   * A `--` option: its usage, then its help one level deeper; the choices go
   * to whichever paragraph is last. Any other option shows nothing.
   */
  function OptionLines(e: (string, ManOption), d: int, k: bool): seq<Line> {
    if !StartsWith(e.0, "--") then []
    else if e.1.help.Some? then
      [L(d, k, Style.CodeText(OptionUsage(e.0, e.1))), L(d + 1, k, e.1.help.value + ChoiceItems(e.1))]
    else [L(d, k, Style.CodeText(OptionUsage(e.0, e.1)) + ChoiceItems(e.1))]
  }

  function OptionBlocks(options: Dict<ManOption>, d: int, k: bool): (bs: seq<seq<Line>>)
    ensures |bs| == |options|
  {
    seq(|options|, i requires 0 <= i < |options| => OptionLines(options[i], d, k))
  }

  function OptionsLines(options: Dict<ManOption>, d: int, k: bool): seq<Line> {
    [L(d, k, Style.H2Text("OPTIONS"))] + Concat(OptionBlocks(options, d, k))
  }

  /**
   * Only options spelled with `--` are documented; each starts with a
   * paragraph at `d` that opens with its usage in code, and anything after
   * it is one level deeper.
   */
  lemma OptionShape(e: (string, ManOption), d: int, k: bool)
    ensures OptionLines(e, d, k) == [] <==> !StartsWith(e.0, "--")
    ensures OptionLines(e, d, k) != [] ==>
      var r := OptionLines(e, d, k);
      r[0].indent == d && StartsWith(r[0].text, Kept(k, Style.CodeText(OptionUsage(e.0, e.1))))
      && IndentedFrom(r[1..], d + 1)
  {
    if StartsWith(e.0, "--") {
      var code := Style.CodeText(OptionUsage(e.0, e.1));
      var r := OptionLines(e, d, k);
      if e.1.help.None? {
        KeptConcat(k, code, ChoiceItems(e.1));
        assert (Kept(k, code) + Kept(k, ChoiceItems(e.1)))[..|Kept(k, code)|] == Kept(k, code);
      }
      assert r[0].text[..|Kept(k, code)|] == Kept(k, code);
    }
  }
}
