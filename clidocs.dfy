/**
 * The CLI help handlers of bcdoc/clidocs.py. Each handler writes straight to
 * its output buffer `fp`, or through its ReST style, which writes to the same
 * buffer; the buffer also carries the `keep_data`/`do_translation` flags the
 * style sets and the render target (`man` or `html`).
 *
 * Feeding a doc string to the doc-string parser is outside the model: a
 * `render` function gives the text a doc string leaves in the buffer.
 */
module CliDocs {
  import opened Wrappers
  import opened Text
  import opened Params
  import opened Style

  class CliDocumentHandler {
    /** The output buffer, with the flags and target the style reads and sets. */
    const fp: RestBuffer
    const style: ReSTStyle
    var translationMap: map<string, string>

    /** The style writes to this handler's own buffer. */
    predicate Valid() {
      style.doc == fp
    }

    constructor (target: string)
      ensures Valid() && fresh(fp) && fresh(style)
      ensures fp.text == "" && fp.keepData && !fp.doTranslation && fp.target == target
      ensures style.level == 0 && style.indentWidth == 2 && style.doP && style.aHref == None
      ensures translationMap == map[]
    {
      var buffer := new RestBuffer(target);
      fp := buffer;
      style := new ReSTStyle(buffer, 2);
      translationMap := map[];
    }

    /** `translate_words`: each word replaced by its entry in the map, if it has one. */
    function TranslateWords(words: seq<string>): (r: seq<string>)
      reads this
      ensures |r| == |words|
      ensures forall i :: 0 <= i < |words| ==>
        r[i] == if words[i] in translationMap then translationMap[words[i]] else words[i]
    {
      Text.TranslateWords(translationMap, words)
    }

    /** `handle_data`: non-empty data goes to the buffer while data is kept. */
    method HandleData(data: string)
      modifies fp`text
      ensures fp.text == old(fp.text) + (if data != "" && fp.keepData then data else "")
    {
      if data != "" && fp.keepData {
        fp.Write(data);
      }
    }

    /** `include_doc_string`: a missing or empty doc string is not parsed at all. */
    method IncludeDocString(docString: Option<string>, render: string -> string)
      modifies fp`text
      ensures fp.text == old(fp.text) + (if Truthy(docString) then render(docString.value) else "")
    {
      if docString.Some? && docString.value != "" {
        fp.Write(render(docString.value));
      }
    }
  }

  // ---------------------------------------------------------------------
  // The provider's CLI data: fetched once, with named choice lists resolved.

  /** An option's `choices`: a list, or a name (a template over `{provider}`) to look up in the session. */
  datatype Choices = ChoiceList(items: seq<string>) | ChoiceName(template: string)

  /** The keys an option's dictionary may carry. */
  datatype OptionData = OptionData(metavar: Option<string>, help: Option<string>, choices: Option<Choices>)

  /** The part of the session's `cli` data the handlers read: the options, in order. */
  datatype CliData = CliData(options: Dict<OptionData>)

  /** `template.format(provider=name)`: every `{provider}` field replaced by the name. */
  function FormatProvider(template: string, provider: string): string
    decreases |template|
  {
    if template == [] then []
    else if StartsWith(template, "{provider}") then provider + FormatProvider(template[10..], provider)
    else [template[0]] + FormatProvider(template[1..], provider)
  }

  /** A template without replacement fields formats to itself. */
  lemma {:induction false} FormatWithoutFields(template: string, provider: string)
    requires forall i :: 0 <= i < |template| ==> template[i] != '{'
    ensures FormatProvider(template, provider) == template
    decreases |template|
  {
    if template != [] {
      FormatWithoutFields(template[1..], provider);
      assert template == [template[0]] + template[1..];
    }
  }

  /** A key starting with `--`: the only keys the options section and the choice lookup look at. */
  predicate IsLongOption(key: string) {
    |key| >= 2 && key[0] == '-' && key[1] == '-'
  }

  predicate NeedsLookup(e: (string, OptionData)) {
    IsLongOption(e.0) && e.1.choices.Some? && e.1.choices.value.ChoiceName?
  }

  function LookupKey(e: (string, OptionData), provider: string): string
    requires NeedsLookup(e)
  {
    FormatProvider(e.1.choices.value.template, provider)
  }

  /** The session has the data this option's choices name (trivially so when they name nothing). */
  predicate Resolvable(e: (string, OptionData), provider: string, data: map<string, seq<string>>) {
    NeedsLookup(e) ==> LookupKey(e, provider) in data
  }

  /** The option with named choices replaced by the list the session holds under the name. */
  function Resolve(e: (string, OptionData), provider: string, data: map<string, seq<string>>): (string, OptionData)
    requires Resolvable(e, provider, data)
  {
    if NeedsLookup(e) then (e.0, e.1.(choices := Some(ChoiceList(data[LookupKey(e, provider)])))) else e
  }

  /** The position of the first option whose lookup fails, or the number of options. */
  function FirstUnresolvable(opts: Dict<OptionData>, provider: string, data: map<string, seq<string>>): (k: nat)
    ensures k <= |opts|
    ensures forall i :: 0 <= i < k ==> Resolvable(opts[i], provider, data)
    ensures k < |opts| ==> !Resolvable(opts[k], provider, data)
  {
    if opts == [] then 0
    else if !Resolvable(opts[0], provider, data) then 0
    else 1 + FirstUnresolvable(opts[1..], provider, data)
  }

  lemma ResolvedStep(opts: Dict<OptionData>, i: nat, provider: string, data: map<string, seq<string>>)
    requires i < |opts| && forall j :: 0 <= j <= i ==> Resolvable(opts[j], provider, data)
    ensures ResolvedUpTo(opts, i + 1, provider, data)
            == ResolvedUpTo(opts, i, provider, data)[i := Resolve(opts[i], provider, data)]
    ensures !NeedsLookup(opts[i]) ==> ResolvedUpTo(opts, i + 1, provider, data) == ResolvedUpTo(opts, i, provider, data)
  {
  }

  /** The options with the first `k` resolved in place and the rest as fetched. */
  function ResolvedUpTo(opts: Dict<OptionData>, k: nat, provider: string, data: map<string, seq<string>>): (r: Dict<OptionData>)
    requires k <= |opts| && forall i :: 0 <= i < k ==> Resolvable(opts[i], provider, data)
    ensures |r| == |opts|
  {
    seq(|opts|, i requires 0 <= i < |opts| => if i < k then Resolve(opts[i], provider, data) else opts[i])
  }

  /**
   * `get_cli_data`: the cache after the call and the call's outcome. With an
   * empty cache, `fetched` (what `session.get_data('cli')` returns) is stored
   * at once and its named choices are resolved in place, option by option, by
   * looking the formatted name up in `data`; a name the session lacks raises,
   * leaving the options before it resolved in the cache.
   */
  function FetchCliData(cache: Option<CliData>, provider: string, fetched: CliData, data: map<string, seq<string>>)
    : (Option<CliData>, Result<CliData>)
  {
    if cache.Some? then (cache, Ok(cache.value))
    else
      var opts := fetched.options;
      var k := FirstUnresolvable(opts, provider, data);
      var stored := CliData(ResolvedUpTo(opts, k, provider, data));
      if k == |opts| then (Some(stored), Ok(stored))
      else (Some(stored), Err(KeyError(LookupKey(opts[k], provider))))
  }

  /**
   * The data is fetched at most once: after any call, successful or not, the
   * cache is filled, and every later call returns the cached data unchanged,
   * whatever the session holds by then.
   */
  lemma FetchOnce(cache: Option<CliData>, provider: string, fetched: CliData, data: map<string, seq<string>>,
                  provider': string, fetched': CliData, data': map<string, seq<string>>)
    ensures var first := FetchCliData(cache, provider, fetched, data);
      && first.0.Some?
      && FetchCliData(first.0, provider', fetched', data') == (first.0, Ok(first.0.value))
  {
  }

  /**
   * A fetch from an empty cache succeeds exactly when every named choice list
   * is in the session; then the options keep their keys, order and other
   * fields, every `--` option with choices has a list, and the rest are as
   * fetched.
   */
  lemma FetchResolves(provider: string, fetched: CliData, data: map<string, seq<string>>)
    ensures var (cache, r) := FetchCliData(None, provider, fetched, data);
      && (r.Ok? <==> forall i :: 0 <= i < |fetched.options| ==> Resolvable(fetched.options[i], provider, data))
      && (r.Ok? ==>
            var opts := r.value.options;
            && cache == Some(r.value)
            && Keys(opts) == Keys(fetched.options)
            && (forall i :: 0 <= i < |opts| && IsLongOption(opts[i].0) && opts[i].1.choices.Some? ==>
                  opts[i].1.choices.value.ChoiceList?)
            && (forall i :: 0 <= i < |opts| ==>
                  opts[i].1.metavar == fetched.options[i].1.metavar && opts[i].1.help == fetched.options[i].1.help)
            && (forall i :: 0 <= i < |opts| && !NeedsLookup(fetched.options[i]) ==> opts[i] == fetched.options[i]))
  {
    var opts := fetched.options;
    var k := FirstUnresolvable(opts, provider, data);
    if forall i :: 0 <= i < |opts| ==> Resolvable(opts[i], provider, data) {
      assert k == |opts|;
    }
  }

  // ---------------------------------------------------------------------
  // The provider's options section.

  /** The option's usage: its key, then ` <metavar>` when it has one. */
  function Usage(e: (string, OptionData)): string {
    e.0 + (if e.1.metavar.Some? then " <" + e.1.metavar.value + ">" else "")
  }

  /** The values `sorted(choices)` iterates: the list's items, or a string's characters. */
  function ChoiceItems(c: Choices): seq<string> {
    match c
    case ChoiceList(items) => items
    case ChoiceName(s) => seq(|s|, i requires 0 <= i < |s| => [s[i]])
  }

  /** What `li(item)` writes for each item, in order. */
  function LiRun(items: seq<string>, spaces: string): string {
    if items == [] then ""
    else LiRun(items[..|items| - 1], spaces) + LiText(items[|items| - 1], spaces)
  }

  /** `do_p` after `li` on each item: set by any non-empty item. */
  function ListDoP(items: seq<string>, doP: bool): bool {
    if items == [] then doP
    else ListDoP(items[..|items| - 1], doP) || items[|items| - 1] != ""
  }

  /** After a run of `li`, `do_p` is on exactly when it was on before or some item was non-empty. */
  lemma {:induction false} ListDoPAnyItem(items: seq<string>, doP: bool)
    ensures ListDoP(items, doP) <==> doP || exists i :: 0 <= i < |items| && items[i] != ""
  {
    if items != [] {
      var init := items[..|items| - 1];
      ListDoPAnyItem(init, doP);
      assert forall i :: 0 <= i < |init| ==> init[i] == items[i];
      if items[|items| - 1] != "" {
        assert exists i :: 0 <= i < |items| && items[i] != "";
      }
    }
  }

  function SortedChoices(e: (string, OptionData)): seq<string>
    requires e.1.choices.Some?
  {
    Sort(ChoiceItems(e.1.choices.value))
  }

  /** Usage, help and the paragraph break that follows them. */
  function OptionHead(e: (string, OptionData), render: string -> string, doP: bool, spaces: string): string {
    CodeText(Usage(e)) + (if Truthy(e.1.help) then render(e.1.help.value) else "") + Break(doP, spaces)
  }

  /** What `li` on item `i` adds to the run over the first `i` items, and to `do_p`. */
  lemma LiStep(start: string, items: seq<string>, i: nat, doP: bool, spaces: string)
    requires i < |items|
    ensures start + LiRun(items[..i], spaces) + LiText(items[i], spaces) == start + LiRun(items[..i + 1], spaces)
    ensures ListDoP(items[..i + 1], doP) == (items[i] != "" || ListDoP(items[..i], doP))
  {
    assert items[..i + 1][..i] == items[..i];
    Regrouped(start, LiRun(items[..i], spaces), LiText(items[i], spaces));
  }

  lemma Regrouped(a: string, b: string, c: string)
    ensures a + b + c == a + (b + c)
  {
  }

  /** The choices as a bullet list between two paragraph breaks. */
  function ChoicesText(items: seq<string>, doP: bool, spaces: string): string {
    Break(doP, spaces) + LiRun(items, spaces) + Break(ListDoP(items, doP), spaces)
  }

  lemma ChoicesTextParts(start: string, t1: string, t2: string, t3: string, items: seq<string>, doP: bool, spaces: string)
    requires t1 == start + Break(doP, spaces)
    requires t2 == t1 + LiRun(items, spaces)
    requires t3 == t2 + Break(ListDoP(items, doP), spaces)
    ensures t3 == start + ChoicesText(items, doP, spaces)
  {
    var b1, run, b2 := Break(doP, spaces), LiRun(items, spaces), Break(ListDoP(items, doP), spaces);
    Grouped(start, b1, run, b2);
  }

  lemma Grouped(a: string, b: string, c: string, d: string)
    ensures a + b + c + d == a + (b + c + d)
  {
  }

  /** The block `options` writes for one `--` option, given `do_p` and the indentation. */
  function OptionText(e: (string, OptionData), render: string -> string, doP: bool, spaces: string): string {
    OptionHead(e, render, doP, spaces)
    + if e.1.choices.Some? then ChoicesText(SortedChoices(e), doP, spaces) else ""
  }

  lemma OptionTextSplit(start: string, e: (string, OptionData), render: string -> string, doP: bool, spaces: string)
    requires e.1.choices.Some?
    ensures start + OptionHead(e, render, doP, spaces) + ChoicesText(SortedChoices(e), doP, spaces)
            == start + OptionText(e, render, doP, spaces)
  {
  }

  function OptionDoP(e: (string, OptionData), doP: bool): bool {
    if e.1.choices.Some? then ListDoP(SortedChoices(e), doP) else doP
  }

  /** What one entry of the options writes: the block for a `--` key, nothing for any other. */
  function EntryText(e: (string, OptionData), render: string -> string, doP: bool, spaces: string): string {
    if IsLongOption(e.0) then OptionText(e, render, doP, spaces) else ""
  }

  function EntryDoP(e: (string, OptionData), doP: bool): bool {
    if IsLongOption(e.0) then OptionDoP(e, doP) else doP
  }

  /** `do_p` after the first `n` entries of the options section. */
  function OptionsDoP(opts: Dict<OptionData>, n: nat, doP: bool): bool
    requires n <= |opts|
  {
    if n == 0 then doP else EntryDoP(opts[n - 1], OptionsDoP(opts, n - 1, doP))
  }

  /** `do_translation` after the first `n` entries: each `--` option's usage, written in code, turns it off. */
  function OptionsTranslation(opts: Dict<OptionData>, n: nat, doTranslation: bool): bool
    requires n <= |opts|
  {
    if n == 0 then doTranslation
    else if IsLongOption(opts[n - 1].0) then false
    else OptionsTranslation(opts, n - 1, doTranslation)
  }

  /** Translation is off after the options exactly when it was off before or some entry is a `--` option. */
  lemma {:induction false} OptionsTranslationAny(opts: Dict<OptionData>, n: nat, doTranslation: bool)
    requires n <= |opts|
    ensures OptionsTranslation(opts, n, doTranslation)
            == (doTranslation && forall i :: 0 <= i < n ==> !IsLongOption(opts[i].0))
  {
    if n > 0 {
      OptionsTranslationAny(opts, n - 1, doTranslation);
    }
  }

  /** The text for the `--` options among the first `n` entries, in order; other keys write nothing. */
  function OptionsBody(opts: Dict<OptionData>, n: nat, render: string -> string, doP: bool, spaces: string): string
    requires n <= |opts|
  {
    if n == 0 then ""
    else OptionsBody(opts, n - 1, render, doP, spaces) + EntryText(opts[n - 1], render, OptionsDoP(opts, n - 1, doP), spaces)
  }

  /** Writing entry `n` after the first `n` entries' text gives the first `n + 1` entries' text. */
  lemma OptionsStep(start: string, before: string, after: string, opts: Dict<OptionData>, n: nat,
                    render: string -> string, doP: bool, spaces: string)
    requires n < |opts|
    requires before == start + OptionsBody(opts, n, render, doP, spaces)
    requires after == before + EntryText(opts[n], render, OptionsDoP(opts, n, doP), spaces)
    ensures after == start + OptionsBody(opts, n + 1, render, doP, spaces)
  {
    Regrouped(start, OptionsBody(opts, n, render, doP, spaces), EntryText(opts[n], render, OptionsDoP(opts, n, doP), spaces));
  }

  /** Keys that do not start with `--` contribute nothing to the options section. */
  lemma {:induction false} OptionsBodySkips(opts: Dict<OptionData>, n: nat, render: string -> string, doP: bool, spaces: string)
    requires n <= |opts| && forall i :: 0 <= i < |opts| ==> !IsLongOption(opts[i].0)
    ensures OptionsBody(opts, n, render, doP, spaces) == "" && OptionsDoP(opts, n, doP) == doP
  {
    if n > 0 {
      OptionsBodySkips(opts, n - 1, render, doP, spaces);
    }
  }

  /** The choices appear as list items in ascending order, each choice as often as it occurs. */
  lemma ChoicesSorted(e: (string, OptionData))
    requires e.1.choices.Some?
    ensures Sorted(SortedChoices(e))
    ensures multiset(SortedChoices(e)) == multiset(ChoiceItems(e.1.choices.value))
  {
  }

  class ProviderDocumentHandler {
    const base: CliDocumentHandler
    /** `_cli_data`: the session's CLI data once fetched. */
    var cliData: Option<CliData>

    constructor (target: string)
      ensures fresh(base) && base.Valid() && cliData == None
      ensures base.fp.text == "" && base.fp.target == target && base.style.doP && base.style.level == 0
    {
      base := new CliDocumentHandler(target);
      cliData := None;
    }

    /**
     * `get_cli_data`, with the session as `fetched` (its `cli` data) and
     * `data` (the named choice lists it holds).
     */
    method GetCliData(provider: string, fetched: CliData, data: map<string, seq<string>>) returns (r: Result<CliData>)
      modifies this`cliData
      ensures (cliData, r) == FetchCliData(old(cliData), provider, fetched, data)
    {
      if cliData.Some? {
        return Ok(cliData.value);
      }
      var opts := fetched.options;
      cliData := Some(fetched);
      assert ResolvedUpTo(opts, 0, provider, data) == opts;
      var i := 0;
      while i < |opts|
        invariant i <= |opts|
        invariant forall j :: 0 <= j < i ==> Resolvable(opts[j], provider, data)
        invariant cliData == Some(CliData(ResolvedUpTo(opts, i, provider, data)))
      {
        var e := opts[i];
        if IsLongOption(e.0) && e.1.choices.Some? && e.1.choices.value.ChoiceName? {
          var key := FormatProvider(e.1.choices.value.template, provider);
          if key !in data {
            assert FirstUnresolvable(opts, provider, data) == i;
            return Err(KeyError(key));
          }
          cliData := Some(CliData(cliData.value.options[i := Resolve(e, provider, data)]));
        }
        ResolvedStep(opts, i, provider, data);
        i := i + 1;
      }
      assert FirstUnresolvable(opts, provider, data) == |opts|;
      r := Ok(cliData.value);
    }

    /** `li(choice)` for each choice, in order. */
    method WriteChoices(items: seq<string>)
      requires base.Valid()
      modifies base.fp`text, base.style`doP
      ensures base.fp.text == old(base.fp.text) + LiRun(items, base.style.CurrentSpaces())
      ensures base.style.doP == ListDoP(items, old(base.style.doP))
    {
      ghost var doP, spaces, start := base.style.doP, base.style.CurrentSpaces(), base.fp.text;
      for i := 0 to |items|
        invariant base.Valid() && base.style.CurrentSpaces() == spaces
        invariant base.fp.text == start + LiRun(items[..i], spaces)
        invariant base.style.doP == ListDoP(items[..i], doP)
      {
        WriteNextChoice(items, i, start, doP, spaces);
      }
      assert items[..|items|] == items;
    }

    /** `li` on item `i`, after the first `i` items. */
    method WriteNextChoice(items: seq<string>, i: nat, ghost start: string, ghost doP: bool, ghost spaces: string)
      requires base.Valid() && i < |items| && base.style.CurrentSpaces() == spaces
      requires base.fp.text == start + LiRun(items[..i], spaces) && base.style.doP == ListDoP(items[..i], doP)
      modifies base.fp`text, base.style`doP
      ensures base.Valid() && base.style.CurrentSpaces() == spaces
      ensures base.fp.text == start + LiRun(items[..i + 1], spaces) && base.style.doP == ListDoP(items[..i + 1], doP)
    {
      base.style.Li(items[i]);
      LiStep(start, items, i, doP, spaces);
    }

    /** Usage in code markup, the help, and a paragraph break. */
    method WriteOptionHead(e: (string, OptionData), render: string -> string)
      requires base.Valid()
      modifies base.fp`text, base.fp`doTranslation
      ensures base.fp.text == old(base.fp.text) + OptionHead(e, render, base.style.doP, base.style.CurrentSpaces())
      ensures base.fp.doTranslation == if Usage(e) == "" then old(base.fp.doTranslation) else false
    {
      var style := base.style;
      ghost var start := base.fp.text;
      style.Code(Usage(e));
      base.IncludeDocString(e.1.help, render);
      style.NewParagraph();
    }

    /** `start_ul`, `li` for each item, `end_ul`. */
    method WriteList(items: seq<string>)
      requires base.Valid()
      modifies base.fp`text, base.style`doP
      ensures base.fp.text == old(base.fp.text) + ChoicesText(items, old(base.style.doP), base.style.CurrentSpaces())
      ensures base.style.doP == ListDoP(items, old(base.style.doP))
    {
      var style := base.style;
      ghost var doP, spaces, start := style.doP, style.CurrentSpaces(), base.fp.text;
      style.StartUl();
      ghost var t1 := base.fp.text;
      WriteChoices(items);
      ghost var t2 := base.fp.text;
      style.EndUl();
      assert style.CurrentSpaces() == spaces;
      ChoicesTextParts(start, t1, t2, base.fp.text, items, doP, spaces);
    }

    /** The block for one `--` option: usage, help, a paragraph break, and the sorted choices as a list. */
    method WriteOption(e: (string, OptionData), render: string -> string)
      requires base.Valid()
      modifies base.fp`text, base.fp`doTranslation, base.style`doP
      ensures base.fp.text == old(base.fp.text) + OptionText(e, render, old(base.style.doP), base.style.CurrentSpaces())
      ensures base.style.doP == OptionDoP(e, old(base.style.doP))
      ensures base.fp.doTranslation == if Usage(e) == "" then old(base.fp.doTranslation) else false
    {
      ghost var doP, spaces, start := base.style.doP, base.style.CurrentSpaces(), base.fp.text;
      WriteOptionHead(e, render);
      ghost var head := base.fp.text;
      if e.1.choices.Some? {
        var items := SortedChoices(e);
        WriteList(items);
        assert base.style.CurrentSpaces() == spaces;
        OptionTextSplit(start, e, render, doP, spaces);
      } else {
        assert base.style.CurrentSpaces() == spaces;
        assert OptionText(e, render, doP, spaces) == OptionHead(e, render, doP, spaces);
      }
    }

    /**
     * One pass of the loop over the options: entry `i` writes its block when
     * its key starts with `--` and nothing otherwise, which extends the text
     * of the first `i` entries to that of the first `i + 1`.
     */
    method WriteEntry(opts: Dict<OptionData>, i: nat, render: string -> string,
                      ghost start: string, ghost doP: bool, ghost spaces: string, ghost translation: bool)
      requires base.Valid() && i < |opts|
      requires base.style.CurrentSpaces() == spaces
      requires base.fp.text == start + OptionsBody(opts, i, render, doP, spaces)
      requires base.style.doP == OptionsDoP(opts, i, doP)
      requires base.fp.doTranslation == OptionsTranslation(opts, i, translation)
      modifies base.fp`text, base.fp`doTranslation, base.style`doP
      ensures base.style.CurrentSpaces() == spaces
      ensures base.fp.text == start + OptionsBody(opts, i + 1, render, doP, spaces)
      ensures base.style.doP == OptionsDoP(opts, i + 1, doP)
      ensures base.fp.doTranslation == OptionsTranslation(opts, i + 1, translation)
    {
      ghost var before := base.fp.text;
      if IsLongOption(opts[i].0) {
        WriteOption(opts[i], render);
        assert Usage(opts[i])[0] == '-';
      }
      OptionsStep(start, before, base.fp.text, opts, i, render, doP, spaces);
    }

    /** The block of every `--` option, in order. */
    method WriteOptions(opts: Dict<OptionData>, render: string -> string)
      requires base.Valid()
      modifies base.fp`text, base.fp`doTranslation, base.style`doP
      ensures base.fp.text == old(base.fp.text) + OptionsBody(opts, |opts|, render, old(base.style.doP), base.style.CurrentSpaces())
      ensures base.style.doP == OptionsDoP(opts, |opts|, old(base.style.doP))
      ensures base.fp.doTranslation == OptionsTranslation(opts, |opts|, old(base.fp.doTranslation))
    {
      ghost var start, doP, spaces := base.fp.text, base.style.doP, base.style.CurrentSpaces();
      ghost var translation := base.fp.doTranslation;
      for i := 0 to |opts|
        invariant base.style.CurrentSpaces() == spaces
        invariant base.fp.text == start + OptionsBody(opts, i, render, doP, spaces)
        invariant base.style.doP == OptionsDoP(opts, i, doP)
        invariant base.fp.doTranslation == OptionsTranslation(opts, i, translation)
      {
        WriteEntry(opts, i, render, start, doP, spaces, translation);
      }
    }

    /**
     * `options`: the Options heading, then, from the CLI data, every `--`
     * option's block, then a paragraph break. A failed fetch raises after
     * the heading is written.
     */
    method Options(provider: string, fetched: CliData, data: map<string, seq<string>>, render: string -> string)
      returns (r: Result<()>)
      requires base.Valid()
      modifies this`cliData, base.fp`text, base.fp`doTranslation, base.style`doP
      ensures var (cache, res) := FetchCliData(old(cliData), provider, fetched, data);
        var spaces := base.style.CurrentSpaces();
        var heading := HeadingText("Options", '=', old(base.style.doP), spaces);
        && cliData == cache
        && (r.Ok? <==> res.Ok?)
        && (res.Err? ==> base.fp.text == old(base.fp.text) + heading && base.style.doP == old(base.style.doP)
                         && base.fp.doTranslation == old(base.fp.doTranslation))
        && (res.Ok? ==>
              var opts := res.value.options;
              var doP := OptionsDoP(opts, |opts|, old(base.style.doP));
              && base.fp.text == old(base.fp.text) + heading + OptionsBody(opts, |opts|, render, old(base.style.doP), spaces)
                                 + Break(doP, spaces)
              && base.style.doP == doP
              && base.fp.doTranslation == OptionsTranslation(opts, |opts|, old(base.fp.doTranslation)))
    {
      var style := base.style;
      style.H2("Options");
      var fetchedData := GetCliData(provider, fetched, data);
      if fetchedData.Err? {
        return Err(fetchedData.error);
      }
      WriteOptions(fetchedData.value.options, render);
      style.NewParagraph();
      r := Ok(());
    }

    /** `subitem`: a bullet with the service's full name for man pages, else its index page. */
    method Subitem(serviceFullName: string, endpointPrefix: string)
      modifies base.fp`text
      ensures base.fp.text == old(base.fp.text) + ProviderSubitemText(base.fp.target, serviceFullName, endpointPrefix)
    {
      if base.fp.target == "man" {
        base.fp.Write("* " + serviceFullName + "\n");
      } else {
        base.fp.Write("  " + endpointPrefix + "/index\n");
      }
    }
  }

  function ProviderSubitemText(target: string, serviceFullName: string, endpointPrefix: string): string {
    if target == "man" then "* " + serviceFullName + "\n" else "  " + endpointPrefix + "/index\n"
  }

  function ServiceSubitemText(target: string, cliName: string): string {
    if target == "man" then "* " + cliName + "\n" else "  " + cliName + "\n"
  }

  /**
   * A sub-item is one toctree entry as the style's `tocitem` writes it:
   * outside man pages, exactly the entry for the service's index page (a
   * provider's) or for the operation's CLI name (a service's); in man pages,
   * the same bullet line without the blank line and indentation that
   * `tocitem` adds after a non-empty item.
   */
  lemma SubitemIsTocItem(target: string, serviceFullName: string, endpointPrefix: string, cliName: string, spaces: string)
    ensures target != "man" ==>
      ProviderSubitemText(target, serviceFullName, endpointPrefix)
        == Style.TocItemText(target, serviceFullName, Some(endpointPrefix + "/index"), spaces)
    ensures target != "man" ==>
      ServiceSubitemText(target, cliName) == Style.TocItemText(target, cliName, None, spaces)
    ensures target == "man" && serviceFullName != "" ==>
      ProviderSubitemText(target, serviceFullName, endpointPrefix) + "\n" + spaces
        == Style.TocItemText(target, serviceFullName, None, spaces)
    ensures target == "man" && cliName != "" ==>
      ServiceSubitemText(target, cliName) + "\n" + spaces == Style.TocItemText(target, cliName, None, spaces)
  {
  }

  /** `ServiceDocumentHandler.subitem`. */
  method ServiceSubitem(h: CliDocumentHandler, cliName: string)
    modifies h.fp`text
    ensures h.fp.text == old(h.fp.text) + ServiceSubitemText(h.fp.target, cliName)
  {
    if h.fp.target == "man" {
      h.fp.Write("* " + cliName + "\n");
    } else {
      h.fp.Write("  " + cliName + "\n");
    }
  }

  // ---------------------------------------------------------------------
  // The operation handler.

  /** The synopsis form of a parameter: `cli-name <value>`, bare for booleans, bracketed when optional. */
  function SynopsisOptionText(p: Param): string {
    var s := p.cliName + (if TypeName(p) != "boolean" then " <value>" else "");
    if p.required then s else "[" + s + "]"
  }

  predicate EndsWith(s: string, suffix: string) {
    |suffix| <= |s| && s[|s| - |suffix|..] == suffix
  }

  /**
   * The synopsis form can be read back: it is bracketed exactly when the
   * parameter is optional, and inside the brackets it ends in ` <value>`
   * exactly when the parameter is not a boolean.
   */
  lemma SynopsisOptionShape(p: Param)
    requires !StartsWith(p.cliName, "[") && !EndsWith(p.cliName, " <value>")
    ensures var s := SynopsisOptionText(p);
      && (StartsWith(s, "[") <==> !p.required)
      && var inner := if p.required then s else s[1..|s| - 1];
         && StartsWith(inner, p.cliName)
         && (EndsWith(inner, " <value>") <==> TypeName(p) != "boolean")
  {
    var core := p.cliName + (if TypeName(p) != "boolean" then " <value>" else "");
    var s := SynopsisOptionText(p);
    assert core[..|p.cliName|] == p.cliName;
    if !p.required {
      assert s[1..|s| - 1] == core;
    }
    if TypeName(p) == "boolean" {
      assert core == p.cliName;
    } else {
      assert core[|core| - 8..] == " <value>";
    }
    if p.required && p.cliName != [] && TypeName(p) == "boolean" {
      assert s[..1] == p.cliName[..1];
    }
    if p.required && TypeName(p) != "boolean" && p.cliName == [] {
      assert s[..1] == " ";
    }
  }

  /** `synopsis_option`: the synopsis form, indented four spaces, on its own line. */
  method SynopsisOption(h: CliDocumentHandler, p: Param)
    modifies h.fp`text
    ensures h.fp.text == old(h.fp.text) + "    " + SynopsisOptionText(p) + "\n"
  {
    var optionStr := p.cliName;
    if TypeName(p) != "boolean" {
      optionStr := optionStr + " <value>";
    }
    if !p.required {
      optionStr := "[" + optionStr + "]";
    }
    h.fp.Write("    " + optionStr + "\n");
  }

  /** `options`: the Options heading, and `*None*` exactly when the operation has no parameters. */
  method OperationOptions(h: CliDocumentHandler, operation: Operation)
    requires h.Valid()
    modifies h.fp`text
    ensures h.fp.text == old(h.fp.text) + HeadingText("Options", '=', h.style.doP, h.style.CurrentSpaces())
                         + (if operation.params == [] then "*None*\n" else "")
  {
    h.style.H2("Options");
    if |operation.params| == 0 {
      h.fp.Write("*None*\n");
    }
  }

  /**
   * `option`: the parameter's name and type, its documentation one level
   * deeper, then a paragraph break back at the original indentation. The
   * documentation is fed while the style is one level deeper; `render` is
   * the text that feeding leaves at that depth.
   */
  method OperationOption(h: CliDocumentHandler, p: Param, render: string -> string)
    requires h.Valid()
    modifies h.fp`text, h.style`level
    ensures h.style.level == old(h.style.level)
    ensures h.fp.text == old(h.fp.text) + "``" + p.cliName + "`` (" + TypeName(p) + ")\n"
                         + (if p.documentation != "" then render(p.documentation) else "")
                         + Break(h.style.doP, h.style.CurrentSpaces())
  {
    h.fp.Write("``" + p.cliName + "`` (" + TypeName(p) + ")\n");
    h.style.Indent();
    h.IncludeDocString(Some(p.documentation), render);
    h.style.Dedent();
    h.style.NewParagraph();
  }
}
