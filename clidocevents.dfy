/**
 * The documentation events of bcdoc/clidocevents.py: the `DOC_EVENTS`
 * table of event names and their name templates, the exact sequence of
 * events fired to document a provider, a service, a command or an
 * operation, and the registration of the table with a session.
 *
 * The session's event bus is foreign; a `Session` here records what is done
 * to it: the events fired, in order, and the events registered.
 */
module DocEvents {
  import opened Wrappers

  /** The keys of `DOC_EVENTS`. */
  datatype DocEvent =
    | Title | Description | SynopsisStart | SynopsisOption | SynopsisEnd
    | OptionsStart | Option | OptionExample | OptionsEnd | Examples
    | SubitemsStart | Subitem | SubitemsEnd

  /** `DOC_EVENTS`' keys, in the table's order. */
  const DocEvents: seq<DocEvent> := [
    Title, Description, SynopsisStart, SynopsisOption, SynopsisEnd,
    OptionsStart, Option, OptionExample, OptionsEnd, Examples,
    SubitemsStart, Subitem, SubitemsEnd
  ]

  function EventName(e: DocEvent): string {
    match e
    case Title => "doc-title"
    case Description => "doc-description"
    case SynopsisStart => "doc-synopsis-start"
    case SynopsisOption => "doc-synopsis-option"
    case SynopsisEnd => "doc-synopsis-end"
    case OptionsStart => "doc-options-start"
    case Option => "doc-option"
    case OptionExample => "doc-option-example"
    case OptionsEnd => "doc-options-end"
    case Examples => "doc-examples"
    case SubitemsStart => "doc-subitems-start"
    case Subitem => "doc-subitem"
    case SubitemsEnd => "doc-subitems-end"
  }

  /** The events that name a third thing (an argument or a sub-item) besides kind and name. */
  predicate ThreeArgs(e: DocEvent) {
    e == SynopsisOption || e == Option || e == OptionExample || e == Subitem
  }

  /** `DOC_EVENTS[e]`: the template the event's full name is formatted from. */
  function Template(e: DocEvent): string {
    if ThreeArgs(e) then ".%s.%s.%s" else ".%s.%s"
  }

  /** The number of `%s` directives in a template. */
  function Placeholders(t: string): nat
    decreases |t|
  {
    if |t| < 2 then 0
    else if t[0] == '%' && t[1] == 's' then 1 + Placeholders(t[2..])
    else Placeholders(t[1..])
  }

  /**
   * Python's `template % args` for templates whose only directive is `%s`:
   * too few arguments and arguments left over both raise a `TypeError`.
   */
  function Format(t: string, args: seq<string>): Result<string>
    decreases |t|
  {
    if |t| < 2 then
      if args == [] then Ok(t) else Err(TypeError)
    else if t[0] == '%' && t[1] == 's' then
      if args == [] then Err(TypeError)
      else
        var rest :- Format(t[2..], args[1..]);
        Ok(args[0] + rest)
    else
      var rest :- Format(t[1..], args);
      Ok([t[0]] + rest)
  }

  /** Formatting succeeds exactly when there is one argument per placeholder. */
  lemma {:induction false} FormatArity(t: string, args: seq<string>)
    ensures Format(t, args).Ok? <==> |args| == Placeholders(t)
    decreases |t|
  {
    if |t| >= 2 {
      if t[0] == '%' && t[1] == 's' {
        if args != [] {
          FormatArity(t[2..], args[1..]);
        }
      } else {
        FormatArity(t[1..], args);
      }
    }
  }

  /** Four events have three placeholders, the other nine two. */
  lemma TemplateArity(e: DocEvent)
    ensures Placeholders(Template(e)) == if ThreeArgs(e) then 3 else 2
  {
    assert Placeholders(".%s") == 1 by {
      assert ".%s"[1..] == "%s";
      assert "%s"[2..] == "";
    }
    assert Placeholders(".%s.%s") == 2 by {
      assert ".%s.%s"[1..] == "%s.%s";
      assert "%s.%s"[2..] == ".%s";
    }
    assert Placeholders(".%s.%s.%s") == 3 by {
      assert ".%s.%s.%s"[1..] == "%s.%s.%s";
      assert "%s.%s.%s"[2..] == ".%s.%s";
    }
  }

  /** The table has thirteen distinct keys with distinct names, and every event is among them. */
  lemma TableKeys()
    ensures |DocEvents| == 13
    ensures forall e: DocEvent :: e in DocEvents
    ensures forall i, j :: 0 <= i < j < |DocEvents| ==> DocEvents[i] != DocEvents[j]
    ensures forall i, j :: 0 <= i < j < |DocEvents| ==> EventName(DocEvents[i]) != EventName(DocEvents[j])
  {
    forall e: DocEvent ensures e in DocEvents {
      assert DocEvents[Position(e)] == e;
    }
  }

  /** Where an event sits in the table. */
  function Position(e: DocEvent): (i: nat)
    ensures i < |DocEvents| && DocEvents[i] == e
  {
    match e
    case Title => 0
    case Description => 1
    case SynopsisStart => 2
    case SynopsisOption => 3
    case SynopsisEnd => 4
    case OptionsStart => 5
    case Option => 6
    case OptionExample => 7
    case OptionsEnd => 8
    case Examples => 9
    case SubitemsStart => 10
    case Subitem => 11
    case SubitemsEnd => 12
  }

  /** An event as `create_event(name, *fmtargs)` receives it. */
  datatype Event = Event(event: DocEvent, args: seq<string>)

  /** The event's full name, such as `doc-title.Provider.aws`. */
  function FullName(e: Event): Result<string> {
    var suffix :- Format(Template(e.event), e.args);
    Ok(EventName(e.event) + suffix)
  }

  /** Every event has one format argument per placeholder of its template. */
  predicate WellFormed(trace: seq<Event>) {
    forall i :: 0 <= i < |trace| ==> Format(Template(trace[i].event), trace[i].args).Ok?
  }

  // ---------------------------------------------------------------------
  // The traces.

  function Fired(event: DocEvent, kind: string, name: string): Event {
    Event(event, [kind, name])
  }

  /** One `doc-option` and one `doc-option-example` per argument, in table order. */
  function OptionEvents(kind: string, name: string, args: seq<string>): (r: seq<Event>)
    ensures |r| == 2 * |args|
  {
    if args == [] then []
    else [Event(Option, [kind, name, args[0]]), Event(OptionExample, [kind, name, args[0]])]
         + OptionEvents(kind, name, args[1..])
  }

  function SynopsisOptionEvents(kind: string, name: string, args: seq<string>): (r: seq<Event>)
    ensures |r| == |args|
    ensures forall i :: 0 <= i < |args| ==> r[i] == Event(SynopsisOption, [kind, name, args[i]])
  {
    seq(|args|, i requires 0 <= i < |args| => Event(SynopsisOption, [kind, name, args[i]]))
  }

  function SubitemEvents(kind: string, name: string, items: seq<string>): (r: seq<Event>)
    ensures |r| == |items|
    ensures forall i :: 0 <= i < |items| ==> r[i] == Event(Subitem, [kind, name, items[i]])
  {
    seq(|items|, i requires 0 <= i < |items| => Event(Subitem, [kind, name, items[i]]))
  }

  function ProviderEvents(provider: string, args: seq<string>, commands: seq<string>): seq<Event> {
    [Fired(Title, "Provider", provider), Fired(Description, "Provider", provider),
     Fired(SynopsisStart, "Provider", provider), Fired(SynopsisEnd, "Provider", provider),
     Fired(OptionsStart, "Provider", provider)]
    + OptionEvents("Provider", provider, args)
    + [Fired(OptionsEnd, "Provider", provider), Fired(SubitemsStart, "Provider", provider)]
    + SubitemEvents("Provider", provider, commands)
    + [Fired(SubitemsEnd, "Provider", provider)]
  }

  function ServiceEvents(prefix: string, commands: seq<string>): seq<Event> {
    [Fired(Title, "Service", prefix), Fired(Description, "Service", prefix),
     Fired(SynopsisStart, "Service", prefix), Fired(SynopsisEnd, "Service", prefix),
     Fired(OptionsStart, "Service", prefix), Fired(OptionsEnd, "Service", prefix),
     Fired(SubitemsStart, "Service", prefix)]
    + SubitemEvents("Service", prefix, commands)
    + [Fired(SubitemsEnd, "Service", prefix)]
  }

  function CommandEvents(command: string): seq<Event> {
    [Fired(Title, "Command", command), Fired(Description, "Command", command)]
  }

  function OperationEvents(operation: string, args: seq<string>): seq<Event> {
    [Fired(Title, "Operation", operation), Fired(Description, "Operation", operation),
     Fired(SynopsisStart, "Operation", operation)]
    + SynopsisOptionEvents("Operation", operation, args)
    + [Fired(SynopsisEnd, "Operation", operation), Fired(OptionsStart, "Operation", operation)]
    + OptionEvents("Operation", operation, args)
    + [Fired(OptionsEnd, "Operation", operation), Fired(Examples, "Operation", operation)]
  }

  // ---------------------------------------------------------------------
  // Properties of the traces.

  /** The option events come in pairs: an option, then its example, for the same argument. */
  lemma {:induction false} OptionPairs(kind: string, name: string, args: seq<string>)
    ensures forall i :: 0 <= i < |args| ==>
      && OptionEvents(kind, name, args)[2 * i] == Event(Option, [kind, name, args[i]])
      && OptionEvents(kind, name, args)[2 * i + 1] == Event(OptionExample, [kind, name, args[i]])
  {
    if args != [] {
      OptionPairs(kind, name, args[1..]);
      var r := OptionEvents(kind, name, args);
      forall i | 0 <= i < |args|
        ensures r[2 * i] == Event(Option, [kind, name, args[i]])
        ensures r[2 * i + 1] == Event(OptionExample, [kind, name, args[i]])
      {
        if i > 0 {
          assert r[2 * i] == OptionEvents(kind, name, args[1..])[2 * (i - 1)];
          assert r[2 * i + 1] == OptionEvents(kind, name, args[1..])[2 * (i - 1) + 1];
        }
      }
    }
  }

  /** Each `doc-option` is immediately followed by the `doc-option-example` for the same argument. */
  predicate OptionsPaired(t: seq<Event>) {
    forall j :: 0 <= j < |t| && t[j].event == Option ==>
      j + 1 < |t| && t[j + 1] == Event(OptionExample, t[j].args)
  }

  predicate NoOptions(t: seq<Event>) {
    forall j :: 0 <= j < |t| ==> t[j].event != Option
  }

  lemma OptionEventsShape(kind: string, name: string, args: seq<string>)
    ensures OptionsPaired(OptionEvents(kind, name, args))
    ensures WellFormed(OptionEvents(kind, name, args))
  {
    OptionPairs(kind, name, args);
    var r := OptionEvents(kind, name, args);
    forall j | 0 <= j < |r| && r[j].event == Option
      ensures j + 1 < |r| && r[j + 1] == Event(OptionExample, r[j].args)
    {
      var i := j / 2;
      assert r[2 * i] == Event(Option, [kind, name, args[i]]);
      assert r[2 * i + 1] == Event(OptionExample, [kind, name, args[i]]);
    }
    forall j | 0 <= j < |r|
      ensures Format(Template(r[j].event), r[j].args).Ok?
    {
      var i := j / 2;
      assert r[2 * i] == Event(Option, [kind, name, args[i]]);
      assert r[2 * i + 1] == Event(OptionExample, [kind, name, args[i]]);
      assert ThreeArgs(r[j].event) && |r[j].args| == 3;
      TemplateArity(r[j].event);
      FormatArity(Template(r[j].event), r[j].args);
    }
  }

  lemma ConcatShape(a: seq<Event>, b: seq<Event>)
    requires WellFormed(a) && WellFormed(b)
    requires OptionsPaired(a) && OptionsPaired(b)
    ensures WellFormed(a + b) && OptionsPaired(a + b)
  {
    forall j | |a| <= j < |a| + |b| ensures (a + b)[j] == b[j - |a|] { }
    forall j | 0 <= j < |a| ensures (a + b)[j] == a[j] { }
  }

  lemma FixedShape(events: seq<Event>)
    requires forall i :: 0 <= i < |events| ==>
      events[i].event != Option && |events[i].args| == if ThreeArgs(events[i].event) then 3 else 2
    ensures WellFormed(events) && OptionsPaired(events)
  {
    forall i | 0 <= i < |events|
      ensures Format(Template(events[i].event), events[i].args).Ok?
    {
      TemplateArity(events[i].event);
      FormatArity(Template(events[i].event), events[i].args);
    }
  }

  /**
   * `document_provider` fires 8 + 2n + m events for n arguments and m
   * commands; each `doc-option` is immediately followed by the
   * `doc-option-example` for the same argument; every event has as many
   * format arguments as its template has placeholders.
   */
  lemma ProviderTrace(provider: string, args: seq<string>, commands: seq<string>)
    ensures var t := ProviderEvents(provider, args, commands);
      && |t| == 8 + 2 * |args| + |commands|
      && OptionsPaired(t)
      && WellFormed(t)
  {
    var opts := OptionEvents("Provider", provider, args);
    var subs := SubitemEvents("Provider", provider, commands);
    var head := [Fired(Title, "Provider", provider), Fired(Description, "Provider", provider),
     Fired(SynopsisStart, "Provider", provider), Fired(SynopsisEnd, "Provider", provider),
     Fired(OptionsStart, "Provider", provider)];
    var middle := [Fired(OptionsEnd, "Provider", provider), Fired(SubitemsStart, "Provider", provider)];
    var tail := [Fired(SubitemsEnd, "Provider", provider)];
    FixedShape(head);
    FixedShape(middle);
    FixedShape(subs);
    FixedShape(tail);
    OptionEventsShape("Provider", provider, args);
    ConcatShape(head, opts);
    ConcatShape(head + opts, middle);
    ConcatShape(head + opts + middle, subs);
    ConcatShape(head + opts + middle + subs, tail);
  }

  /** `document_service` fires 8 + m events for m commands, none of them about options. */
  lemma ServiceTrace(prefix: string, commands: seq<string>)
    ensures var t := ServiceEvents(prefix, commands);
      && |t| == 8 + |commands|
      && (forall j :: 0 <= j < |t| ==> t[j].event != Option && t[j].event != OptionExample && t[j].event != SynopsisOption)
      && WellFormed(t)
  {
    FixedShape(ServiceEvents(prefix, commands));
  }

  /** `document_command` fires the title and then the description, and nothing else. */
  lemma CommandTrace(command: string)
    ensures var t := CommandEvents(command);
      && |t| == 2 && t[0].event == Title && t[1].event == Description
      && WellFormed(t)
  {
    FixedShape(CommandEvents(command));
  }

  /**
   * `document_operation` fires 7 + 3n events for n arguments: title,
   * description and synopsis start; one synopsis option per argument;
   * synopsis end and options start; an option and its example per argument;
   * options end and examples.
   */
  lemma OperationTrace(operation: string, args: seq<string>)
    ensures var t := OperationEvents(operation, args);
      var n := |args|;
      && |t| == 7 + 3 * n
      && t[0].event == Title && t[1].event == Description && t[2].event == SynopsisStart
      && (forall i :: 0 <= i < n ==> t[3 + i] == Event(SynopsisOption, ["Operation", operation, args[i]]))
      && t[3 + n].event == SynopsisEnd && t[4 + n].event == OptionsStart
      && (forall i :: 0 <= i < n ==>
            && t[5 + n + 2 * i] == Event(Option, ["Operation", operation, args[i]])
            && t[6 + n + 2 * i] == Event(OptionExample, ["Operation", operation, args[i]]))
      && t[5 + 3 * n].event == OptionsEnd && t[6 + 3 * n].event == Examples
  {
    var n := |args|;
    var t := OperationEvents(operation, args);
    var front := [Fired(Title, "Operation", operation), Fired(Description, "Operation", operation),
     Fired(SynopsisStart, "Operation", operation)]
     + SynopsisOptionEvents("Operation", operation, args)
     + [Fired(SynopsisEnd, "Operation", operation), Fired(OptionsStart, "Operation", operation)];
    var opts := OptionEvents("Operation", operation, args);
    assert |front| == 5 + n;
    assert t == front + opts + [Fired(OptionsEnd, "Operation", operation), Fired(Examples, "Operation", operation)];
    OptionPairs("Operation", operation, args);
    forall i | 0 <= i < n
      ensures t[5 + n + 2 * i] == Event(Option, ["Operation", operation, args[i]])
      ensures t[6 + n + 2 * i] == Event(OptionExample, ["Operation", operation, args[i]])
    {
      assert t[5 + n + 2 * i] == opts[2 * i];
      assert t[6 + n + 2 * i] == opts[2 * i + 1];
    }
    forall i | 0 <= i < n
      ensures t[3 + i] == Event(SynopsisOption, ["Operation", operation, args[i]])
    {
      assert t[3 + i] == front[3 + i];
    }
  }

  /** Every event `document_operation` fires is well formed, and each option is followed by its example. */
  lemma OperationTraceShape(operation: string, args: seq<string>)
    ensures WellFormed(OperationEvents(operation, args)) && OptionsPaired(OperationEvents(operation, args))
  {
    var head := [Fired(Title, "Operation", operation), Fired(Description, "Operation", operation),
     Fired(SynopsisStart, "Operation", operation)];
    var syn := SynopsisOptionEvents("Operation", operation, args);
    var middle := [Fired(SynopsisEnd, "Operation", operation), Fired(OptionsStart, "Operation", operation)];
    var opts := OptionEvents("Operation", operation, args);
    var tail := [Fired(OptionsEnd, "Operation", operation), Fired(Examples, "Operation", operation)];
    FixedShape(head);
    FixedShape(syn);
    FixedShape(middle);
    FixedShape(tail);
    OptionEventsShape("Operation", operation, args);
    ConcatShape(head, syn);
    ConcatShape(head + syn, middle);
    ConcatShape(head + syn + middle, opts);
    ConcatShape(head + syn + middle + opts, tail);
  }

  // ---------------------------------------------------------------------
  // The session and the `document_*` functions.

  class Session {
    /** The events fired so far, in order. */
    var trace: seq<Event>
    /** The `(event name, template)` registrations made so far, in order. */
    var registered: seq<(string, string)>

    constructor ()
      ensures trace == [] && registered == []
    {
      trace := [];
      registered := [];
    }

    /** `fire_event`: the event is created from its name and format arguments and emitted. */
    method Fire(event: DocEvent, args: seq<string>)
      modifies this`trace
      ensures trace == old(trace) + [Event(event, args)]
    {
      trace := trace + [Event(event, args)];
    }

    method RegisterEvent(event: string, template: string)
      modifies this`registered
      ensures registered == old(registered) + [(event, template)]
    {
      registered := registered + [(event, template)];
    }
  }

  /** Fires the option/example pair for every argument of the table. */
  method FireOptions(session: Session, kind: string, name: string, argTable: seq<string>)
    modifies session`trace
    ensures session.trace == old(session.trace) + OptionEvents(kind, name, argTable)
  {
    for i := 0 to |argTable|
      invariant session.trace == old(session.trace) + OptionEvents(kind, name, argTable[..i])
    {
      session.Fire(Option, [kind, name, argTable[i]]);
      session.Fire(OptionExample, [kind, name, argTable[i]]);
      OptionEventsAppend(kind, name, argTable[..i], argTable[i]);
      assert argTable[..i + 1] == argTable[..i] + [argTable[i]];
    }
    assert argTable[..|argTable|] == argTable;
  }

  lemma {:induction false} OptionEventsAppend(kind: string, name: string, args: seq<string>, a: string)
    ensures OptionEvents(kind, name, args + [a]) == OptionEvents(kind, name, args)
      + [Event(Option, [kind, name, a]), Event(OptionExample, [kind, name, a])]
  {
    if args != [] {
      assert (args + [a])[1..] == args[1..] + [a];
      OptionEventsAppend(kind, name, args[1..], a);
    }
  }

  method FireSubitems(session: Session, kind: string, name: string, items: seq<string>)
    modifies session`trace
    ensures session.trace == old(session.trace) + SubitemEvents(kind, name, items)
  {
    for i := 0 to |items|
      invariant session.trace == old(session.trace) + SubitemEvents(kind, name, items[..i])
    {
      session.Fire(Subitem, [kind, name, items[i]]);
      assert SubitemEvents(kind, name, items[..i + 1]) == SubitemEvents(kind, name, items[..i])
        + [Event(Subitem, [kind, name, items[i]])];
    }
    assert items[..|items|] == items;
  }

  /** `document_provider`; `argTable` and `commandTable` are the help command's tables, in order. */
  method DocumentProvider(session: Session, provider: string, argTable: seq<string>, commandTable: seq<string>)
    modifies session`trace
    ensures session.trace == old(session.trace) + ProviderEvents(provider, argTable, commandTable)
  {
    ghost var v := session.trace;
    FireProviderHead(session, provider);
    FireOptions(session, "Provider", provider, argTable);
    FirePair(session, OptionsEnd, SubitemsStart, "Provider", provider);
    FireSubitems(session, "Provider", provider, commandTable);
    session.Fire(SubitemsEnd, ["Provider", provider]);
    Regroup(v, [Fired(Title, "Provider", provider), Fired(Description, "Provider", provider),
                Fired(SynopsisStart, "Provider", provider), Fired(SynopsisEnd, "Provider", provider),
                Fired(OptionsStart, "Provider", provider)],
            OptionEvents("Provider", provider, argTable),
            [Fired(OptionsEnd, "Provider", provider), Fired(SubitemsStart, "Provider", provider)],
            SubitemEvents("Provider", provider, commandTable), [Fired(SubitemsEnd, "Provider", provider)]);
  }

  /** The five events `document_provider` fires before the options. */
  method FireProviderHead(session: Session, provider: string)
    modifies session`trace
    ensures session.trace == old(session.trace)
      + [Fired(Title, "Provider", provider), Fired(Description, "Provider", provider),
         Fired(SynopsisStart, "Provider", provider), Fired(SynopsisEnd, "Provider", provider),
         Fired(OptionsStart, "Provider", provider)]
  {
    FirePair(session, Title, Description, "Provider", provider);
    FirePair(session, SynopsisStart, SynopsisEnd, "Provider", provider);
    session.Fire(OptionsStart, ["Provider", provider]);
  }

  /** Two events with the same format arguments, one after the other. */
  method FirePair(session: Session, first: DocEvent, second: DocEvent, kind: string, name: string)
    modifies session`trace
    ensures session.trace == old(session.trace) + [Fired(first, kind, name), Fired(second, kind, name)]
  {
    session.Fire(first, [kind, name]);
    session.Fire(second, [kind, name]);
  }

  /** Five runs of events fired one after another. */
  lemma Regroup(v: seq<Event>, a: seq<Event>, b: seq<Event>, c: seq<Event>, d: seq<Event>, e: seq<Event>)
    ensures v + a + b + c + d + e == v + (a + b + c + d + e)
  {
  }

  /** `document_service`; `prefix` is the service's endpoint prefix. */
  method DocumentService(session: Session, prefix: string, commandTable: seq<string>)
    modifies session`trace
    ensures session.trace == old(session.trace) + ServiceEvents(prefix, commandTable)
  {
    session.Fire(Title, ["Service", prefix]);
    session.Fire(Description, ["Service", prefix]);
    session.Fire(SynopsisStart, ["Service", prefix]);
    session.Fire(SynopsisEnd, ["Service", prefix]);
    session.Fire(OptionsStart, ["Service", prefix]);
    session.Fire(OptionsEnd, ["Service", prefix]);
    session.Fire(SubitemsStart, ["Service", prefix]);
    FireSubitems(session, "Service", prefix, commandTable);
    session.Fire(SubitemsEnd, ["Service", prefix]);
  }

  method DocumentCommand(session: Session, command: string)
    modifies session`trace
    ensures session.trace == old(session.trace) + CommandEvents(command)
  {
    session.Fire(Title, ["Command", command]);
    session.Fire(Description, ["Command", command]);
  }

  method DocumentOperation(session: Session, operation: string, argTable: seq<string>)
    modifies session`trace
    ensures session.trace == old(session.trace) + OperationEvents(operation, argTable)
  {
    ghost var v := session.trace;
    FirePair(session, Title, Description, "Operation", operation);
    session.Fire(SynopsisStart, ["Operation", operation]);
    FireSynopsisOptions(session, "Operation", operation, argTable);
    FirePair(session, SynopsisEnd, OptionsStart, "Operation", operation);
    FireOptions(session, "Operation", operation, argTable);
    FirePair(session, OptionsEnd, Examples, "Operation", operation);
    assert v + [Fired(Title, "Operation", operation), Fired(Description, "Operation", operation)]
             + [Fired(SynopsisStart, "Operation", operation)]
           == v + [Fired(Title, "Operation", operation), Fired(Description, "Operation", operation),
                   Fired(SynopsisStart, "Operation", operation)];
    Regroup(v, [Fired(Title, "Operation", operation), Fired(Description, "Operation", operation),
                Fired(SynopsisStart, "Operation", operation)],
            SynopsisOptionEvents("Operation", operation, argTable),
            [Fired(SynopsisEnd, "Operation", operation), Fired(OptionsStart, "Operation", operation)],
            OptionEvents("Operation", operation, argTable),
            [Fired(OptionsEnd, "Operation", operation), Fired(Examples, "Operation", operation)]);
  }

  /** One `doc-synopsis-option` per argument of the table. */
  method FireSynopsisOptions(session: Session, kind: string, name: string, argTable: seq<string>)
    modifies session`trace
    ensures session.trace == old(session.trace) + SynopsisOptionEvents(kind, name, argTable)
  {
    for i := 0 to |argTable|
      invariant session.trace == old(session.trace) + SynopsisOptionEvents(kind, name, argTable[..i])
    {
      session.Fire(SynopsisOption, [kind, name, argTable[i]]);
      assert SynopsisOptionEvents(kind, name, argTable[..i + 1])
        == SynopsisOptionEvents(kind, name, argTable[..i]) + [Event(SynopsisOption, [kind, name, argTable[i]])];
    }
    assert argTable[..|argTable|] == argTable;
  }

  /** The `(name, template)` pairs of the table, one per key (listed in the order the table is written). */
  function Registrations(): (regs: seq<(string, string)>)
    ensures |regs| == |DocEvents|
    ensures forall i :: 0 <= i < |regs| ==> regs[i] == (EventName(DocEvents[i]), Template(DocEvents[i]))
  {
    seq(|DocEvents|, i requires 0 <= i < |DocEvents| => (EventName(DocEvents[i]), Template(DocEvents[i])))
  }

  lemma PrefixStep(v: seq<(string, string)>, regs: seq<(string, string)>, i: nat)
    requires i < |regs|
    ensures v + regs[..i] + [regs[i]] == v + regs[..i + 1]
  {
    assert regs[..i + 1] == regs[..i] + [regs[i]];
  }

  /** `register_events`: every table key registered with its template, one after another. */
  method RegisterEvents(session: Session)
    modifies session`registered
    ensures session.registered == old(session.registered) + Registrations()
  {
    ghost var v, regs := session.registered, Registrations();
    for i := 0 to |DocEvents|
      invariant session.registered == v + regs[..i]
    {
      session.RegisterEvent(EventName(DocEvents[i]), Template(DocEvents[i]));
      PrefixStep(v, regs, i);
    }
    assert regs[..|regs|] == regs;
  }

  /** `register_events` registers each of the thirteen names exactly once, with its template. */
  lemma RegistersEachOnce()
    ensures var regs := Registrations();
      && |regs| == 13
      && (forall e: DocEvent :: (EventName(e), Template(e)) in regs)
      && (forall i, j :: 0 <= i < j < |regs| ==> regs[i].0 != regs[j].0)
  {
    TableKeys();
    var regs := Registrations();
    forall e: DocEvent ensures (EventName(e), Template(e)) in regs {
      assert regs[Position(e)] == (EventName(e), Template(e));
    }
  }
}
