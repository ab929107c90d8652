/**
 * String helpers shared by the model: Python's `c * n`, `str.isspace`,
 * `str.split()` with no separator, `sep.join(words)`, `str.startswith`,
 * dictionary-driven word translation and `sorted` on lists of strings.
 */
module Text {

  /** Python's `c * n` for a one-character string `c`. */
  function Repeat(c: char, n: nat): (r: string)
    ensures |r| == n
    ensures forall i :: 0 <= i < n ==> r[i] == c
  {
    if n == 0 then "" else [c] + Repeat(c, n - 1)
  }

  /** The characters Python's `str.isspace` and `str.split()` treat as whitespace. */
  predicate IsSpace(c: char) {
    || c == ' '
    || '\t' <= c <= '\r'
    || '\U{1C}' <= c <= '\U{1F}'
    || c == '\U{85}' || c == '\U{A0}' || c == '\U{1680}'
    || '\U{2000}' <= c <= '\U{200A}'
    || c == '\U{2028}' || c == '\U{2029}' || c == '\U{202F}'
    || c == '\U{205F}' || c == '\U{3000}'
  }

  /** Python's `s.isspace()`: false on the empty string. */
  predicate AllSpace(s: string) {
    |s| > 0 && forall i :: 0 <= i < |s| ==> IsSpace(s[i])
  }

  /** A word as `str.split()` produces it: non-empty, no whitespace. */
  predicate IsWord(w: string) {
    |w| > 0 && forall i :: 0 <= i < |w| ==> !IsSpace(w[i])
  }

  predicate AllWords(ws: seq<string>) {
    forall i :: 0 <= i < |ws| ==> IsWord(ws[i])
  }

  predicate StartsWith(s: string, prefix: string) {
    |prefix| <= |s| && s[..|prefix|] == prefix
  }

  /** Length of the leading run of non-whitespace characters of `s`. */
  function WordEnd(s: string): (n: nat)
    ensures n <= |s|
    ensures forall i :: 0 <= i < n ==> !IsSpace(s[i])
    ensures n < |s| ==> IsSpace(s[n])
  {
    if s == [] || IsSpace(s[0]) then 0 else 1 + WordEnd(s[1..])
  }

  /** Python's `s.split()`: the maximal runs of non-whitespace, in order. */
  function Split(s: string): (ws: seq<string>)
    ensures AllWords(ws)
    decreases |s|
  {
    if s == [] then []
    else if IsSpace(s[0]) then Split(s[1..])
    else
      var n := WordEnd(s);
      [s[..n]] + Split(s[n..])
  }

  /** Python's `sep.join(ws)`. */
  function Join(ws: seq<string>, sep: string): string {
    if ws == [] then ""
    else if |ws| == 1 then ws[0]
    else ws[0] + sep + Join(ws[1..], sep)
  }

  /** `[m.get(w, w) for w in ws]`: each word replaced by its entry in `m`, if any. */
  function TranslateWords(m: map<string, string>, ws: seq<string>): (r: seq<string>)
    ensures |r| == |ws|
    ensures forall i :: 0 <= i < |ws| && ws[i] !in m ==> r[i] == ws[i]
    ensures forall i :: 0 <= i < |ws| && ws[i] in m ==> r[i] == m[ws[i]]
  {
    seq(|ws|, i requires 0 <= i < |ws| => if ws[i] in m then m[ws[i]] else ws[i])
  }

  /** Every replacement in `m` is itself a single word. */
  predicate WordValues(m: map<string, string>) {
    forall k :: k in m ==> IsWord(m[k])
  }

  lemma TranslateKeepsWords(m: map<string, string>, ws: seq<string>)
    requires WordValues(m) && AllWords(ws)
    ensures AllWords(TranslateWords(m, ws))
  {
  }

  /** Splitting yields nothing exactly for the empty and the whitespace-only strings. */
  lemma {:induction false} SplitEmpty(s: string)
    ensures Split(s) == [] <==> (s == [] || AllSpace(s))
    decreases |s|
  {
    if s != [] && IsSpace(s[0]) {
      SplitEmpty(s[1..]);
      if AllSpace(s[1..]) {
        assert forall i :: 1 <= i < |s| ==> s[i] == s[1..][i - 1];
      }
      if AllSpace(s) && |s| > 1 {
        assert AllSpace(s[1..]) by {
          assert forall i :: 0 <= i < |s| - 1 ==> s[1..][i] == s[i + 1];
        }
      }
    }
  }

  /** A word followed by nothing or by whitespace splits off as the first word. */
  lemma {:induction false} SplitAfterWord(w: string, t: string)
    requires IsWord(w)
    requires t == [] || IsSpace(t[0])
    ensures Split(w + t) == [w] + Split(t)
  {
    var s := w + t;
    WordEndOfWord(w, t);
    assert s[..|w|] == w;
    assert s[|w|..] == t;
  }

  lemma {:induction false} WordEndOfWord(w: string, t: string)
    requires forall i :: 0 <= i < |w| ==> !IsSpace(w[i])
    requires t == [] || IsSpace(t[0])
    ensures WordEnd(w + t) == |w|
    decreases |w|
  {
    if w != [] {
      assert (w + t)[1..] == w[1..] + t;
      WordEndOfWord(w[1..], t);
    }
  }

  /** Joining words with single spaces and splitting again gives the words back. */
  lemma {:induction false} SplitJoin(ws: seq<string>)
    requires AllWords(ws)
    ensures Split(Join(ws, " ")) == ws
    decreases |ws|
  {
    if |ws| == 1 {
      SplitAfterWord(ws[0], "");
      assert ws[0] + "" == ws[0];
    } else if |ws| > 1 {
      var rest := Join(ws[1..], " ");
      var t := " " + rest;
      SplitJoin(ws[1..]);
      SplitAfterWord(ws[0], t);
      SplitLeadingSpace(t);
      assert t[1..] == rest;
      assert Join(ws, " ") == ws[0] + t;
    }
  }

  /** Leading whitespace is skipped. */
  lemma SplitLeadingSpace(s: string)
    requires s != [] && IsSpace(s[0])
    ensures Split(s) == Split(s[1..])
  {
  }

  /** Python's `s.split(c)` for a one-character separator: the pieces between separators, empty ones included. */
  function SplitOn(s: string, c: char): (r: seq<string>)
    ensures |r| > 0
    decreases |s|
  {
    if s == [] then [""]
    else
      var rest := SplitOn(s[1..], c);
      if s[0] == c then [""] + rest else [[s[0]] + rest[0]] + rest[1..]
  }

  /** A prefix free of the separator extends the first piece. */
  lemma {:induction false} SplitOnPrefix(w: string, t: string, c: char)
    requires forall i :: 0 <= i < |w| ==> w[i] != c
    ensures var r := SplitOn(t, c); SplitOn(w + t, c) == [w + r[0]] + r[1..]
    decreases |w|
  {
    if w != [] {
      var r := SplitOn(t, c);
      SplitOnPrefix(w[1..], t, c);
      assert (w + t)[1..] == w[1..] + t;
      var rest := SplitOn(w[1..] + t, c);
      assert rest == [w[1..] + r[0]] + r[1..];
      assert (w + t)[0] == w[0] != c;
      assert SplitOn(w + t, c) == [[w[0]] + rest[0]] + rest[1..];
      assert [w[0]] + (w[1..] + r[0]) == w + r[0];
    } else {
      var r := SplitOn(t, c);
      assert w + t == t && w + r[0] == r[0];
      assert r == [r[0]] + r[1..];
    }
  }

  /**
   * Splitting on the separator undoes joining with it, provided there is at
   * least one piece and no piece contains the separator.
   */
  lemma {:induction false} SplitOnJoin(ws: seq<string>, c: char)
    requires |ws| > 0
    requires forall j, i :: 0 <= j < |ws| && 0 <= i < |ws[j]| ==> ws[j][i] != c
    ensures SplitOn(Join(ws, [c]), c) == ws
    decreases |ws|
  {
    if |ws| == 1 {
      SplitOnPrefix(ws[0], "", c);
      assert ws[0] + "" == ws[0];
    } else {
      var rest := Join(ws[1..], [c]);
      SplitOnJoin(ws[1..], c);
      SplitOnPrefix(ws[0], [c] + rest, c);
      assert ([c] + rest)[1..] == rest;
      assert SplitOn([c] + rest, c) == [""] + ws[1..];
      assert Join(ws, [c]) == ws[0] + ([c] + rest);
      assert ws[0] + "" == ws[0];
      assert [ws[0]] + ws[1..] == ws;
    }
  }

  // ---------------------------------------------------------------------
  // Ordering of strings as Python compares them (code point by code point,
  // a proper prefix first) and `sorted`.

  predicate LessEq(a: string, b: string)
    decreases |a|
  {
    a == [] || (b != [] && (a[0] < b[0] || (a[0] == b[0] && LessEq(a[1..], b[1..]))))
  }

  lemma {:induction false} LessEqTotal(a: string, b: string)
    ensures LessEq(a, b) || LessEq(b, a)
    decreases |a|
  {
    if a != [] && b != [] && a[0] == b[0] {
      LessEqTotal(a[1..], b[1..]);
    }
  }

  lemma {:induction false} LessEqTrans(a: string, b: string, c: string)
    requires LessEq(a, b) && LessEq(b, c)
    ensures LessEq(a, c)
    decreases |a|
  {
    if a != [] && a[0] == b[0] && b[0] == c[0] {
      LessEqTrans(a[1..], b[1..], c[1..]);
    }
  }

  lemma {:induction false} LessEqAntisymmetric(a: string, b: string)
    requires LessEq(a, b) && LessEq(b, a)
    ensures a == b
    decreases |a|
  {
    if a != [] {
      LessEqAntisymmetric(a[1..], b[1..]);
      assert a == [a[0]] + a[1..] && b == [b[0]] + b[1..];
    }
  }

  predicate Sorted(s: seq<string>) {
    forall i, j :: 0 <= i < j < |s| ==> LessEq(s[i], s[j])
  }

  /** Inserts `x` into the sorted `s` before the first element it does not exceed. */
  function Insert(x: string, s: seq<string>): (r: seq<string>)
    requires Sorted(s)
    ensures Sorted(r)
    ensures multiset(r) == multiset(s) + multiset{x}
  {
    if s == [] then [x]
    else if LessEq(x, s[0]) then
      InsertFront(x, s);
      [x] + s
    else
      var t := Insert(x, s[1..]);
      InsertBehind(x, s, t);
      [s[0]] + t
  }

  lemma InsertFront(x: string, s: seq<string>)
    requires Sorted(s) && s != [] && LessEq(x, s[0])
    ensures Sorted([x] + s)
  {
    forall j | 0 <= j < |s| ensures LessEq(x, s[j]) {
      if j > 0 { LessEqTrans(x, s[0], s[j]); }
    }
  }

  lemma InsertBehind(x: string, s: seq<string>, t: seq<string>)
    requires Sorted(s) && s != [] && !LessEq(x, s[0])
    requires Sorted(t) && multiset(t) == multiset(s[1..]) + multiset{x}
    ensures Sorted([s[0]] + t)
    ensures multiset([s[0]] + t) == multiset(s) + multiset{x}
  {
    LessEqTotal(x, s[0]);
    assert s == [s[0]] + s[1..];
    forall j | 0 <= j < |t| ensures LessEq(s[0], t[j]) {
      assert t[j] in multiset(t);
      if t[j] != x {
        assert t[j] in multiset(s[1..]);
        var k :| 0 <= k < |s[1..]| && s[1..][k] == t[j];
        assert s[k + 1] == t[j];
      }
    }
  }

  /** Python's `sorted(s)` on a list of strings. */
  function Sort(s: seq<string>): (r: seq<string>)
    ensures Sorted(r)
    ensures multiset(r) == multiset(s)
  {
    if s == [] then []
    else
      assert s == [s[0]] + s[1..];
      Insert(s[0], Sort(s[1..]))
  }
}
