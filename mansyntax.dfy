/**
 * The JSON syntax examples of bcdoc/mangen.py (`example_value_name` and
 * `_do_example`) as the paragraphs they add to a document: one `Line` per
 * paragraph, with the document indentation it was created at and its text.
 *
 * `_do_example` writes `"name": {` for a structure member and then recurses,
 * and the recursive call opens the structure with `{` of its own, so every
 * structure nested in a structure is opened twice and closed once. `Example`
 * takes `asWritten` to describe either that output or the intended one, in
 * which a structure member is introduced like a list or map member.
 */
module ManSyntax {
  import opened Wrappers
  import opened Text
  import opened Params
  import opened DocumentModel

  /** A paragraph created at indentation `d` and given the text `s`, kept or not. */
  function L(d: int, k: bool, s: string): Line {
    Line(d, Kept(k, s))
  }

  /** `'"%s"' % c` for each choice. */
  function Quoted(cs: seq<string>): (r: seq<string>)
    ensures |r| == |cs|
  {
    seq(|cs|, i requires 0 <= i < |cs| => "\"" + cs[i] + "\"")
  }

  /** `example_value_name`: a placeholder for a value of the parameter's type. */
  function ExampleValueName(p: Param): string {
    match p.shape
    case Leaf(StringType) =>
      if p.enumValues.Some? then Join(Quoted(p.enumValues.value), "|") else "\"string\""
    case Leaf(BooleanType) => "true|false"
    case _ => TypeName(p)
  }

  /** The placeholder by type name: quoted choices or `"string"` for strings, `true|false` for booleans, the type name otherwise. */
  lemma ExampleValueNameByType(p: Param)
    ensures TypeName(p) == "string" && p.enumValues.Some? ==> ExampleValueName(p) == Join(Quoted(p.enumValues.value), "|")
    ensures TypeName(p) == "string" && p.enumValues.None? ==> ExampleValueName(p) == "\"string\""
    ensures TypeName(p) == "boolean" ==> ExampleValueName(p) == "true|false"
    ensures TypeName(p) != "string" && TypeName(p) != "boolean" ==> ExampleValueName(p) == TypeName(p)
  {
    TypeNameKind(p);
  }

  /**
   * For a string parameter with choices, none of which contains `|`, the
   * placeholder reads back as the quoted choices, in order, by splitting it
   * on `|`.
   */
  lemma ExampleValueNameChoices(p: Param)
    requires p.shape == Leaf(StringType) && p.enumValues.Some? && |p.enumValues.value| > 0
    requires forall j, i :: 0 <= j < |p.enumValues.value| && 0 <= i < |p.enumValues.value[j]| ==>
               p.enumValues.value[j][i] != '|'
    ensures SplitOn(ExampleValueName(p), '|') == Quoted(p.enumValues.value)
    ensures forall j :: 0 <= j < |p.enumValues.value| ==>
              SplitOn(ExampleValueName(p), '|')[j] == "\"" + p.enumValues.value[j] + "\""
  {
    var vs := p.enumValues.value;
    var qs := Quoted(vs);
    forall j, i | 0 <= j < |qs| && 0 <= i < |qs[j]| ensures qs[j][i] != '|' {
      assert qs[j] == "\"" + vs[j] + "\"";
      if 0 < i < |qs[j]| - 1 {
        assert qs[j][i] == vs[j][i - 1];
      }
    }
    assert "|" == ['|'];
    SplitOnJoin(qs, '|');
  }

  // ---------------------------------------------------------------------
  // The example paragraphs.

  /**
   * The paragraphs `_do_example(p)` adds when the document's indentation is
   * `d`: a list, a map or a structure opens at `d`, its content sits one
   * level deeper, and it closes at `d`; any other type leaves one empty
   * paragraph. `k` is the document's `keep_data`.
   */
  function Example(p: Param, d: int, k: bool, asWritten: bool): (r: seq<Line>)
    ensures |r| > 0 && r[0].indent == d && r[|r| - 1].indent == d
    decreases p, 3
  {
    match p.shape
    case ListOf(_) => ListExample(p, d, k, asWritten)
    case MapOf(_, _) => MapExample(p, d, k, asWritten)
    case StructureOf(_) => StructureExample(p, d, k, asWritten)
    case Leaf(_) => [L(d, k, "")]
  }

  /** A list: `[` and the member's placeholder on one line, or the member's example and `...` one level deeper. */
  function ListExample(p: Param, d: int, k: bool, asWritten: bool): (r: seq<Line>)
    requires p.shape.ListOf?
    ensures |r| > 0 && r[0].indent == d && r[|r| - 1].indent == d
    decreases p, 2
  {
    var m := p.shape.member;
    if IsScalar(m) then [L(d, k, "[" + ExampleValueName(m) + ", ...]")]
    else [L(d, k, "[")] + Example(m, d + 1, k, asWritten) + [L(d + 1, k, "..."), L(d, k, "]")]
  }

  /** A map: `{`, one entry and `...` one level deeper, and `}`. */
  function MapExample(p: Param, d: int, k: bool, asWritten: bool): (r: seq<Line>)
    requires p.shape.MapOf?
    ensures |r| > 0 && r[0].indent == d && r[|r| - 1].indent == d
    decreases p, 2
  {
    [L(d, k, "{")] + MapEntry(p.shape.key, p.shape.member, d + 1, k, asWritten) + [L(d + 1, k, "..."), L(d, k, "}")]
  }

  /** A structure: `{`, its members one level deeper, and `}`. */
  function StructureExample(p: Param, d: int, k: bool, asWritten: bool): (r: seq<Line>)
    requires p.shape.StructureOf?
    ensures |r| > 0 && r[0].indent == d && r[|r| - 1].indent == d
    decreases p, 2
  {
    [L(d, k, "{")] + Concat(Blocks(p, d + 1, k, asWritten)) + [L(d, k, "}")]
  }

  /** The single entry of a map example: a key placeholder and the member's placeholder or example. */
  function MapEntry(key: Param, m: Param, d: int, k: bool, asWritten: bool): (r: seq<Line>)
    ensures |r| > 0 && r[0].indent == d
    decreases m, 4
  {
    var keyText := ExampleValueName(key) + ": ";
    if IsScalar(m) then [L(d, k, keyText + ExampleValueName(m))]
    else [L(d, k, keyText)] + Example(m, d + 1, k, asWritten)
  }

  /** The key of a structure member in the example. */
  function MemberKey(m: Param): string {
    "\"" + m.pyName + "\": "
  }

  /** Whether a member's example follows its key line: it does for lists, maps and structures. */
  predicate Nested(m: Param) {
    !IsScalar(m) && !m.shape.Leaf?
  }

  /**
   * The first line of a member: its key and placeholder for a scalar, its key
   * for a list, map or structure (followed by `{` for a structure as
   * written), and nothing for any other type.
   */
  function MemberHead(m: Param, asWritten: bool): string {
    if IsScalar(m) then MemberKey(m) + ExampleValueName(m)
    else if m.shape.Leaf? then ""
    else if m.shape.StructureOf? && asWritten then MemberKey(m) + "{"
    else MemberKey(m)
  }

  /** The paragraphs of member `j`: its head line and, one level deeper, its own example when it has one. */
  function Member(parent: Param, j: nat, d: int, k: bool, asWritten: bool): (r: seq<Line>)
    requires parent.shape.StructureOf? && j < |parent.shape.fields|
    ensures |r| > 0 && r[0] == L(d, k, MemberHead(parent.shape.fields[j], asWritten))
    decreases parent, 0
  {
    var m := parent.shape.fields[j];
    [L(d, k, MemberHead(m, asWritten))] + if Nested(m) then Example(m, d + 1, k, asWritten) else []
  }

  /** A member's paragraphs, with a comma written to the last one unless it is the structure's last member. */
  function Separated(block: seq<Line>, k: bool, comma: bool): (r: seq<Line>)
    requires |block| > 0
    ensures |r| == |block|
  {
    if comma then AppendLast(block, Kept(k, ",")) else block
  }

  /** The paragraphs of each member of a structure, in order. */
  function Blocks(parent: Param, d: int, k: bool, asWritten: bool): (bs: seq<seq<Line>>)
    requires parent.shape.StructureOf?
    ensures |bs| == |parent.shape.fields|
    decreases parent, 1
  {
    var fields := parent.shape.fields;
    seq(|fields|, j requires 0 <= j < |fields| => Separated(Member(parent, j, d, k, asWritten), k, j < |fields| - 1))
  }

  /** Member `j`'s run of paragraphs, with its separating comma. */
  lemma BlockIsMember(parent: Param, j: nat, d: int, k: bool)
    requires parent.shape.StructureOf? && j < |parent.shape.fields|
    ensures Blocks(parent, d, k, false)[j] == Separated(Member(parent, j, d, k, false), k, j < |parent.shape.fields| - 1)
  {
  }

  /** The first `n` runs of paragraphs, one after the other. */
  function ConcatTo(bs: seq<seq<Line>>, n: nat): seq<Line>
    requires n <= |bs|
  {
    if n == 0 then [] else ConcatTo(bs, n - 1) + bs[n - 1]
  }

  function Concat(bs: seq<seq<Line>>): seq<Line> {
    ConcatTo(bs, |bs|)
  }

  // ---------------------------------------------------------------------
  // Commas.

  predicate EndsWithComma(s: string) {
    |s| > 0 && s[|s| - 1] == ','
  }

  /** Text that is empty or ends in a closing bracket. */
  predicate Closed(s: string) {
    s == "" || s[|s| - 1] == ']' || s[|s| - 1] == '}'
  }

  /** An example's last paragraph is empty or closes a bracket. */
  lemma ExampleClosed(p: Param, d: int, k: bool, asWritten: bool)
    ensures var r := Example(p, d, k, asWritten); Closed(r[|r| - 1].text)
  {
    var r := Example(p, d, k, asWritten);
    if p.shape.ListOf? && IsScalar(p.shape.member) {
      var t := "[" + ExampleValueName(p.shape.member) + ", ...]";
      assert t[|t| - 1] == ']';
    }
  }

  lemma {:induction false} JoinLast(ws: seq<string>, sep: string)
    requires |ws| > 0 && ws[|ws| - 1] != ""
    ensures var j := Join(ws, sep); |j| > 0 && j[|j| - 1] == ws[|ws| - 1][|ws[|ws| - 1]| - 1]
    decreases |ws|
  {
    if |ws| > 1 {
      JoinLast(ws[1..], sep);
      assert ws[1..][|ws[1..]| - 1] == ws[|ws| - 1];
    }
  }

  /** A scalar placeholder is empty or ends in a letter or a quote. */
  lemma ScalarNameNoComma(m: Param)
    requires IsScalar(m)
    ensures !EndsWithComma(ExampleValueName(m))
  {
    var t := m.shape.leafType;
    if t == StringType && m.enumValues.Some? && |m.enumValues.value| > 0 {
      var qs := Quoted(m.enumValues.value);
      var last := qs[|qs| - 1];
      assert last == "\"" + m.enumValues.value[|qs| - 1] + "\"";
      JoinLast(qs, "|");
    } else if t == StringType && m.enumValues.Some? {
      assert ExampleValueName(m) == Join([], "|") == "";
    }
  }

  /** The line of a scalar member, its key and its placeholder, does not end in a comma. */
  lemma ScalarLineNoComma(m: Param)
    requires IsScalar(m)
    ensures !EndsWithComma(MemberKey(m) + ExampleValueName(m))
  {
    ScalarNameNoComma(m);
    var v := ExampleValueName(m);
    var t := MemberKey(m) + v;
    if v != "" {
      assert t[|t| - 1] == v[|v| - 1];
    } else {
      assert t == MemberKey(m);
    }
  }

  /** The last paragraph of a member: its head line, or the last line of its nested example. */
  lemma MemberLast(parent: Param, j: nat, d: int, k: bool, asWritten: bool)
    requires parent.shape.StructureOf? && j < |parent.shape.fields|
    ensures var r := Member(parent, j, d, k, asWritten);
      var m := parent.shape.fields[j];
      var e := Example(m, d + 1, k, asWritten);
      r[|r| - 1] == if Nested(m) then e[|e| - 1] else L(d, k, MemberHead(m, asWritten))
  {
  }

  /** The last paragraph of a member, before any comma, never ends in one. */
  lemma MemberNoComma(parent: Param, j: nat, d: int, k: bool, asWritten: bool)
    requires parent.shape.StructureOf? && j < |parent.shape.fields|
    ensures var r := Member(parent, j, d, k, asWritten); !EndsWithComma(r[|r| - 1].text)
  {
    var m := parent.shape.fields[j];
    MemberLast(parent, j, d, k, asWritten);
    if IsScalar(m) {
      ScalarLineNoComma(m);
    } else if Nested(m) {
      ExampleClosed(m, d + 1, k, asWritten);
    }
  }

  /**
   * While data is kept, a member's last paragraph ends in a comma exactly
   * when the member is not the structure's last.
   */
  lemma BlockComma(parent: Param, j: nat, d: int, asWritten: bool)
    requires parent.shape.StructureOf? && j < |parent.shape.fields|
    ensures var b := Blocks(parent, d, true, asWritten)[j];
      |b| > 0 && (EndsWithComma(b[|b| - 1].text) <==> j < |parent.shape.fields| - 1)
  {
    MemberNoComma(parent, j, d, true, asWritten);
  }

  // ---------------------------------------------------------------------
  // Indentation.

  predicate IndentedFrom(lines: seq<Line>, d: int) {
    forall i :: 0 <= i < |lines| ==> lines[i].indent >= d
  }

  lemma IndentedConcat(a: seq<Line>, b: seq<Line>, d: int)
    requires IndentedFrom(a, d) && IndentedFrom(b, d)
    ensures IndentedFrom(a + b, d)
  {
  }

  lemma {:induction false} ConcatIndented(bs: seq<seq<Line>>, n: nat, d: int)
    requires n <= |bs| && forall j :: 0 <= j < |bs| ==> IndentedFrom(bs[j], d)
    ensures IndentedFrom(ConcatTo(bs, n), d)
  {
    if n > 0 {
      ConcatIndented(bs, n - 1, d);
      IndentedConcat(ConcatTo(bs, n - 1), bs[n - 1], d);
    }
  }

  /** Nothing in an example sits to the left of the indentation it started at. */
  lemma {:induction false} ExampleIndented(p: Param, d: int, k: bool, asWritten: bool)
    ensures IndentedFrom(Example(p, d, k, asWritten), d)
    decreases p, 3
  {
    match p.shape
    case ListOf(_) => ListIndented(p, d, k, asWritten);
    case MapOf(_, _) => MapIndented(p, d, k, asWritten);
    case StructureOf(_) => StructureIndented(p, d, k, asWritten);
    case Leaf(_) =>
  }

  lemma {:induction false} ListIndented(p: Param, d: int, k: bool, asWritten: bool)
    requires p.shape.ListOf?
    ensures IndentedFrom(ListExample(p, d, k, asWritten), d)
    decreases p, 2
  {
    var m := p.shape.member;
    if !IsScalar(m) {
      var e := Example(m, d + 1, k, asWritten);
      ExampleIndented(m, d + 1, k, asWritten);
      IndentedConcat([L(d, k, "[")], e, d);
      IndentedConcat([L(d, k, "[")] + e, [L(d + 1, k, "..."), L(d, k, "]")], d);
    }
  }

  lemma {:induction false} MapIndented(p: Param, d: int, k: bool, asWritten: bool)
    requires p.shape.MapOf?
    ensures IndentedFrom(MapExample(p, d, k, asWritten), d)
    decreases p, 2
  {
    var entry := MapEntry(p.shape.key, p.shape.member, d + 1, k, asWritten);
    MapEntryIndented(p.shape.key, p.shape.member, d + 1, k, asWritten);
    IndentedConcat([L(d, k, "{")], entry, d);
    IndentedConcat([L(d, k, "{")] + entry, [L(d + 1, k, "..."), L(d, k, "}")], d);
  }

  lemma {:induction false} StructureIndented(p: Param, d: int, k: bool, asWritten: bool)
    requires p.shape.StructureOf?
    ensures IndentedFrom(StructureExample(p, d, k, asWritten), d)
    decreases p, 2
  {
    BlocksIndented(p, d + 1, k, asWritten);
    var body := Concat(Blocks(p, d + 1, k, asWritten));
    IndentedConcat([L(d, k, "{")], body, d);
    IndentedConcat([L(d, k, "{")] + body, [L(d, k, "}")], d);
  }

  lemma {:induction false} MapEntryIndented(key: Param, m: Param, d: int, k: bool, asWritten: bool)
    ensures IndentedFrom(MapEntry(key, m, d, k, asWritten), d)
    decreases m, 4
  {
    if !IsScalar(m) {
      ExampleIndented(m, d + 1, k, asWritten);
      var keyText := ExampleValueName(key) + ": ";
      IndentedConcat([L(d, k, keyText)], Example(m, d + 1, k, asWritten), d);
    }
  }

  lemma {:induction false} BlocksIndented(parent: Param, d: int, k: bool, asWritten: bool)
    requires parent.shape.StructureOf?
    ensures IndentedFrom(Concat(Blocks(parent, d, k, asWritten)), d)
    decreases parent, 1
  {
    var bs := Blocks(parent, d, k, asWritten);
    forall j | 0 <= j < |bs| ensures IndentedFrom(bs[j], d) {
      MemberIndented(parent, j, d, k, asWritten);
      var block := Member(parent, j, d, k, asWritten);
      forall i | 0 <= i < |bs[j]| ensures bs[j][i].indent >= d {
        assert bs[j][i].indent == block[i].indent;
      }
    }
    ConcatIndented(bs, |bs|, d);
  }

  lemma {:induction false} MemberIndented(parent: Param, j: nat, d: int, k: bool, asWritten: bool)
    requires parent.shape.StructureOf? && j < |parent.shape.fields|
    ensures IndentedFrom(Member(parent, j, d, k, asWritten), d)
    decreases parent, 0
  {
    var m := parent.shape.fields[j];
    if Nested(m) {
      ExampleIndented(m, d + 1, k, asWritten);
      IndentedConcat([L(d, k, MemberHead(m, asWritten))], Example(m, d + 1, k, asWritten), d);
    } else {
      assert Member(parent, j, d, k, asWritten) == [L(d, k, MemberHead(m, asWritten))];
    }
  }

  // ---------------------------------------------------------------------
  // Bracket balance.

  function CharDepth(c: char): int {
    if c == '{' || c == '[' then 1 else if c == '}' || c == ']' then -1 else 0
  }

  /** Opening brackets and braces minus closing ones. */
  function Depth(s: string): int {
    if s == [] then 0 else Depth(s[..|s| - 1]) + CharDepth(s[|s| - 1])
  }

  predicate BraceFree(s: string) {
    '{' !in s && '}' !in s && '[' !in s && ']' !in s
  }

  lemma {:induction false} DepthConcat(a: string, b: string)
    ensures Depth(a + b) == Depth(a) + Depth(b)
    decreases |b|
  {
    if b == [] {
      assert a + b == a;
    } else {
      assert (a + b)[..|a + b| - 1] == a + b[..|b| - 1];
      DepthConcat(a, b[..|b| - 1]);
    }
  }

  lemma {:induction false} BraceFreeDepth(s: string)
    requires BraceFree(s)
    ensures Depth(s) == 0
    decreases |s|
  {
    if s != [] {
      var t := s[..|s| - 1];
      assert forall c :: c in t ==> c in s;
      BraceFreeDepth(t);
    }
  }

  /** An opening bracket, brace-free text, and the closing `, ...]` of a list of scalars. */
  lemma ScalarListDepth(x: string)
    requires BraceFree(x)
    ensures Depth("[" + x + ", ...]") == 0
  {
    BraceFreeDepth(x);
    BraceFreeDepth(", ...");
    DepthConcat(", ...", "]");
    assert ", ...]" == ", ..." + "]";
    assert "["[..0] == [] && "]"[..0] == [];
    DepthConcat("[", x);
    DepthConcat("[" + x, ", ...]");
  }

  lemma OneCharDepth(c: char)
    ensures Depth([c]) == CharDepth(c)
  {
    assert [c][..0] == [];
  }

  /** The bracket depth of the first `n` paragraphs, as rendered one after the other. */
  function DepthTo(lines: seq<Line>, n: nat): int
    requires n <= |lines|
  {
    if n == 0 then 0 else DepthTo(lines, n - 1) + Depth(lines[n - 1].text)
  }

  function LinesDepth(lines: seq<Line>): int {
    DepthTo(lines, |lines|)
  }

  lemma {:induction false} DepthToAgree(x: seq<Line>, y: seq<Line>, n: nat)
    requires n <= |x| && n <= |y| && x[..n] == y[..n]
    ensures DepthTo(x, n) == DepthTo(y, n)
  {
    if n > 0 {
      assert x[..n - 1] == x[..n][..n - 1] && y[..n - 1] == y[..n][..n - 1];
      assert x[n - 1] == x[..n][n - 1] && y[n - 1] == y[..n][n - 1];
      DepthToAgree(x, y, n - 1);
    }
  }

  lemma OneLineDepth(line: Line)
    ensures LinesDepth([line]) == Depth(line.text)
  {
    assert DepthTo([line], 0) == 0;
  }

  lemma {:induction false} DepthToConcat(a: seq<Line>, b: seq<Line>, j: nat)
    requires j <= |b|
    ensures DepthTo(a + b, |a| + j) == LinesDepth(a) + DepthTo(b, j)
  {
    if j == 0 {
      assert (a + b)[..|a|] == a[..|a|];
      DepthToAgree(a + b, a, |a|);
    } else {
      DepthToConcat(a, b, j - 1);
      assert (a + b)[|a| + j - 1] == b[j - 1];
    }
  }

  lemma LinesDepthConcat(a: seq<Line>, b: seq<Line>)
    ensures LinesDepth(a + b) == LinesDepth(a) + LinesDepth(b)
  {
    DepthToConcat(a, b, |b|);
  }

  /** `lines` wrapped between one opening and one closing paragraph. */
  lemma WrappedDepth(first: Line, lines: seq<Line>, last: seq<Line>)
    ensures LinesDepth([first] + lines + last) == Depth(first.text) + LinesDepth(lines) + LinesDepth(last)
  {
    OneLineDepth(first);
    LinesDepthConcat([first], lines);
    LinesDepthConcat([first] + lines, last);
  }

  /** The closing paragraphs `...` and a bracket of a list or map example. */
  lemma TrailerDepth(d: int, k: bool, c: char)
    ensures LinesDepth([L(d + 1, k, "..."), L(d, k, [c])]) == if k then CharDepth(c) else 0
  {
    OneLineDepth(L(d + 1, k, "..."));
    OneLineDepth(L(d, k, [c]));
    LinesDepthConcat([L(d + 1, k, "...")], [L(d, k, [c])]);
    assert [L(d + 1, k, "...")] + [L(d, k, [c])] == [L(d + 1, k, "..."), L(d, k, [c])];
    BraceFreeDepth("...");
    OneCharDepth(c);
  }

  lemma LinesDepthAppendLast(lines: seq<Line>, s: string)
    requires |lines| > 0
    ensures LinesDepth(AppendLast(lines, s)) == LinesDepth(lines) + Depth(s)
  {
    var r := AppendLast(lines, s);
    assert r[..|r| - 1] == lines[..|lines| - 1];
    DepthToAgree(r, lines, |r| - 1);
    DepthConcat(lines[|lines| - 1].text, s);
  }

  /** Names, type names and choices free of brackets, all the way down. */
  predicate Plain(p: Param)
    decreases p
  {
    && BraceFree(p.pyName)
    && (p.enumValues.Some? ==> forall i :: 0 <= i < |p.enumValues.value| ==> BraceFree(p.enumValues.value[i]))
    && match p.shape
       case Leaf(t) => BraceFree(LeafName(t))
       case ListOf(m) => Plain(m)
       case MapOf(key, m) => Plain(key) && Plain(m)
       case StructureOf(fields) => forall i :: 0 <= i < |fields| ==> Plain(fields[i])
  }

  lemma {:induction false} JoinBraceFree(ws: seq<string>, sep: string)
    requires BraceFree(sep) && forall i :: 0 <= i < |ws| ==> BraceFree(ws[i])
    ensures BraceFree(Join(ws, sep))
    decreases |ws|
  {
    if |ws| > 1 {
      JoinBraceFree(ws[1..], sep);
    }
  }

  lemma QuotedChoicesPlain(vs: seq<string>)
    requires forall i :: 0 <= i < |vs| ==> BraceFree(vs[i])
    ensures BraceFree(Join(Quoted(vs), "|"))
  {
    var qs := Quoted(vs);
    forall i | 0 <= i < |qs| ensures BraceFree(qs[i]) {
      assert qs[i] == "\"" + vs[i] + "\"";
    }
    JoinBraceFree(qs, "|");
  }

  /** The fixed placeholders and type names contain no brackets. */
  lemma StringNamePlain()
    ensures BraceFree("\"string\"")
  {
  }

  lemma BooleanNamePlain()
    ensures BraceFree("true|false")
  {
  }

  lemma ContainerNamesPlain()
    ensures BraceFree("list") && BraceFree("map") && BraceFree("structure")
  {
  }

  lemma ExampleValueNamePlain(p: Param)
    requires Plain(p)
    ensures BraceFree(ExampleValueName(p))
  {
    if p.shape == Leaf(StringType) && p.enumValues.Some? {
      QuotedChoicesPlain(p.enumValues.value);
    } else if p.shape == Leaf(StringType) {
      StringNamePlain();
    } else if p.shape == Leaf(BooleanType) {
      BooleanNamePlain();
    } else if !p.shape.Leaf? {
      ContainerNamesPlain();
    }
  }

  /** A member's key line: brace-free, plus the `{` the as-written example adds. */
  lemma KeyDepth(m: Param, extra: string)
    requires BraceFree(m.pyName)
    ensures Depth(MemberKey(m) + extra) == Depth(extra)
  {
    BraceFreeDepth(MemberKey(m));
    DepthConcat(MemberKey(m), extra);
  }

  /**
   * Structures introduced by a structure member, counted all the way down:
   * each is opened twice and closed once by the as-written example.
   */
  function NestedStructures(p: Param): nat
    decreases p, 2
  {
    match p.shape
    case ListOf(m) => if IsScalar(m) then 0 else NestedStructures(m)
    case MapOf(_, m) => if IsScalar(m) then 0 else NestedStructures(m)
    case StructureOf(fields) => FieldStructures(p, |fields|)
    case Leaf(_) => 0
  }

  function FieldStructures(parent: Param, n: nat): nat
    requires parent.shape.StructureOf? && n <= |parent.shape.fields|
    decreases parent, 1, n
  {
    if n == 0 then 0
    else FieldStructures(parent, n - 1) + MemberStructures(parent.shape.fields[n - 1])
  }

  function MemberStructures(m: Param): nat
    decreases m, 3
  {
    if IsScalar(m) || m.shape.Leaf? then 0
    else if m.shape.StructureOf? then 1 + NestedStructures(m)
    else NestedStructures(m)
  }

  /**
   * The bracket depth an example leaves behind. The intended example
   * (`asWritten` false) closes every bracket it opens; the example as written
   * is left open by one level for every structure that is a structure's
   * member (all text is dropped while data is not kept).
   */
  lemma {:induction false} ExampleDepth(p: Param, d: int, k: bool, asWritten: bool)
    requires Plain(p)
    ensures LinesDepth(Example(p, d, k, asWritten)) == if k && asWritten then NestedStructures(p) else 0
    decreases p, 2
  {
    match p.shape
    case ListOf(m) => ListDepth(p, d, k, asWritten);
    case MapOf(key, m) => MapDepth(p, d, k, asWritten);
    case StructureOf(fields) => StructureDepth(p, d, k, asWritten);
    case Leaf(_) => OneLineDepth(L(d, k, ""));
  }

  lemma {:induction false} ListDepth(p: Param, d: int, k: bool, asWritten: bool)
    requires Plain(p) && p.shape.ListOf?
    ensures LinesDepth(Example(p, d, k, asWritten)) == if k && asWritten then NestedStructures(p) else 0
    decreases p, 1
  {
    var m := p.shape.member;
    if IsScalar(m) {
      ExampleValueNamePlain(m);
      ScalarListDepth(ExampleValueName(m));
      OneLineDepth(L(d, k, "[" + ExampleValueName(m) + ", ...]"));
    } else {
      ExampleDepth(m, d + 1, k, asWritten);
      WrappedDepth(L(d, k, "["), Example(m, d + 1, k, asWritten), [L(d + 1, k, "..."), L(d, k, "]")]);
      TrailerDepth(d, k, ']');
      OneCharDepth('[');
    }
  }

  lemma {:induction false} MapDepth(p: Param, d: int, k: bool, asWritten: bool)
    requires Plain(p) && p.shape.MapOf?
    ensures LinesDepth(Example(p, d, k, asWritten)) == if k && asWritten then NestedStructures(p) else 0
    decreases p, 1
  {
    var key, m := p.shape.key, p.shape.member;
    var entry := MapEntry(key, m, d + 1, k, asWritten);
    MapEntryDepth(key, m, d + 1, k, asWritten);
    WrappedDepth(L(d, k, "{"), entry, [L(d + 1, k, "..."), L(d, k, "}")]);
    TrailerDepth(d, k, '}');
    OneCharDepth('{');
  }

  lemma {:induction false} MapEntryDepth(key: Param, m: Param, d: int, k: bool, asWritten: bool)
    requires Plain(key) && Plain(m)
    ensures LinesDepth(MapEntry(key, m, d, k, asWritten)) ==
      if k && asWritten && !IsScalar(m) then NestedStructures(m) else 0
    decreases m, 3
  {
    var keyText := ExampleValueName(key) + ": ";
    ExampleValueNamePlain(key);
    if IsScalar(m) {
      ExampleValueNamePlain(m);
      BraceFreeDepth(keyText + ExampleValueName(m));
      OneLineDepth(L(d, k, keyText + ExampleValueName(m)));
    } else {
      BraceFreeDepth(keyText);
      ExampleDepth(m, d + 1, k, asWritten);
      OneLineDepth(L(d, k, keyText));
      LinesDepthConcat([L(d, k, keyText)], Example(m, d + 1, k, asWritten));
    }
  }

  lemma {:induction false} StructureDepth(p: Param, d: int, k: bool, asWritten: bool)
    requires Plain(p) && p.shape.StructureOf?
    ensures LinesDepth(Example(p, d, k, asWritten)) == if k && asWritten then NestedStructures(p) else 0
    decreases p, 1
  {
    var fields := p.shape.fields;
    var bs := Blocks(p, d + 1, k, asWritten);
    forall j | 0 <= j < |bs|
      ensures LinesDepth(bs[j]) == if k && asWritten then MemberStructures(fields[j]) else 0
    {
      MemberDepth(p, j, d + 1, k, asWritten);
      SeparatedDepth(Member(p, j, d + 1, k, asWritten), k, j < |fields| - 1);
    }
    ConcatDepth(p, bs, |bs|, k && asWritten);
    WrappedDepth(L(d, k, "{"), Concat(bs), [L(d, k, "}")]);
    OneLineDepth(L(d, k, "}"));
    OneCharDepth('{');
    OneCharDepth('}');
  }

  lemma {:induction false} ConcatDepth(parent: Param, bs: seq<seq<Line>>, n: nat, on: bool)
    requires parent.shape.StructureOf? && |bs| == |parent.shape.fields| && n <= |bs|
    requires forall j :: 0 <= j < |bs| ==>
      LinesDepth(bs[j]) == if on then MemberStructures(parent.shape.fields[j]) else 0
    ensures LinesDepth(ConcatTo(bs, n)) == if on then FieldStructures(parent, n) else 0
  {
    if n > 0 {
      ConcatDepth(parent, bs, n - 1, on);
      LinesDepthConcat(ConcatTo(bs, n - 1), bs[n - 1]);
    }
  }

  lemma SeparatedDepth(block: seq<Line>, k: bool, comma: bool)
    requires |block| > 0
    ensures LinesDepth(Separated(block, k, comma)) == LinesDepth(block)
  {
    if comma {
      LinesDepthAppendLast(block, Kept(k, ","));
      BraceFreeDepth(Kept(k, ","));
    }
  }

  lemma {:induction false} MemberDepth(parent: Param, j: nat, d: int, k: bool, asWritten: bool)
    requires Plain(parent) && parent.shape.StructureOf? && j < |parent.shape.fields|
    ensures LinesDepth(Member(parent, j, d, k, asWritten)) ==
      if k && asWritten then MemberStructures(parent.shape.fields[j]) else 0
    decreases parent, 0
  {
    var m := parent.shape.fields[j];
    var head := L(d, k, MemberHead(m, asWritten));
    assert Plain(m);
    HeadDepth(m, asWritten);
    OneLineDepth(head);
    if Nested(m) {
      ExampleDepth(m, d + 1, k, asWritten);
      LinesDepthConcat([head], Example(m, d + 1, k, asWritten));
    } else {
      assert Member(parent, j, d, k, asWritten) == [head];
    }
  }

  /** A head line is balanced, except for the extra `{` of a structure member as written. */
  lemma HeadDepth(m: Param, asWritten: bool)
    requires Plain(m)
    ensures Depth(MemberHead(m, asWritten)) == if m.shape.StructureOf? && asWritten then 1 else 0
  {
    if IsScalar(m) {
      ScalarHeadDepth(m, asWritten);
    } else if m.shape.StructureOf? && asWritten {
      OpenHeadDepth(m);
    } else if !m.shape.Leaf? {
      BraceFreeDepth(MemberKey(m));
    }
  }

  lemma ScalarHeadDepth(m: Param, asWritten: bool)
    requires Plain(m) && IsScalar(m)
    ensures Depth(MemberHead(m, asWritten)) == 0
  {
    ExampleValueNamePlain(m);
    KeyDepth(m, ExampleValueName(m));
    BraceFreeDepth(ExampleValueName(m));
  }

  lemma OpenHeadDepth(m: Param)
    requires Plain(m) && m.shape.StructureOf?
    ensures Depth(MemberHead(m, true)) == 1
  {
    KeyDepth(m, "{");
    OneCharDepth('{');
  }

  /** The corrected example closes every bracket it opens. */
  lemma ExampleBalanced(p: Param, d: int, k: bool)
    requires Plain(p)
    ensures LinesDepth(Example(p, d, k, false)) == 0
  {
    ExampleDepth(p, d, k, false);
  }

  /** An empty structure named `inner`. */
  function Inner(): Param {
    Param("Inner", "--inner", "inner", false, "", None, None, StructureOf([]))
  }

  /** A structure whose one member is `Inner()`. */
  function Outer(): Param {
    Param("Outer", "--outer", "outer", false, "", None, None, StructureOf([Inner()]))
  }

  /**
   * A structure whose one member is an empty structure: as written, the
   * member's line already opens a brace and its example opens another, so
   * the example ends one brace deep.
   */
  lemma AsWrittenUnbalanced()
    ensures Member(Outer(), 0, 1, true, true)[0].text == "\"inner\": {"
    ensures LinesDepth(Example(Outer(), 0, true, true)) == 1
    ensures LinesDepth(Example(Outer(), 0, true, false)) == 0
  {
    OuterPlain();
    ExampleDepth(Outer(), 0, true, true);
    ExampleDepth(Outer(), 0, true, false);
    OuterNested();
  }

  lemma OuterPlain()
    ensures Plain(Outer())
  {
    assert Plain(Inner());
  }

  lemma OuterNested()
    ensures NestedStructures(Outer()) == 1
  {
    assert NestedStructures(Inner()) == FieldStructures(Inner(), 0) == 0;
    assert MemberStructures(Inner()) == 1;
    assert NestedStructures(Outer()) == FieldStructures(Outer(), 1);
  }
}
