/** Protecting a session's selected configuration from an agent that changes it on its own. Updates
    are judged as they arrive on the wire; a selection in progress excuses the value it replaces,
    but only for its own key and only until its correlated response. */
module AcpGuard {
  import opened Wrappers

  type Key(==, !new) = string
  type Value(==, !new) = string

  /** One entry of a configuration snapshot; a value that is not a string matches nothing. */
  datatype Entry = Malformed | Entry(id: Key, value: Option<Value>)

  /** Wire traffic in receive order, and the moments a `set_config_option` call starts and ends.
      `End(None)` is a call that was refused, timed out or was cancelled. */
  datatype Event =
    | SentSet(id: nat, key: Key, value: Value)
    | Response(id: nat)
    | ModeUpdate(mode: Option<Value>)
    | OptionsUpdate(entries: Option<seq<Entry>>)
    | OtherTraffic
    | Begin(key: Key, value: Value)
    | End(answer: Option<seq<Entry>>)

  const MODE: Key := "mode"

  // -- the guard as the code keeps it ---------------------------------------------------------

  datatype Call = Call(key: Key, previous: map<Key, Value>)

  datatype Guard = Guard(
    expected: map<Key, Value>,
    options: seq<Entry>,
    pending: Option<(Key, Value)>,
    requestId: Option<nat>,
    violated: bool,
    call: Option<Call>)

  function Opened(options: seq<Entry>): Guard {
    Guard(map[], options, None, None, false, None)
  }

  /** `_matches_expected_config`. */
  predicate Matches(expected: map<Key, Value>, pending: Option<(Key, Value)>, key: Key, value: Option<Value>)
    requires key in expected
  {
    value == Some(expected[key]) || (pending.Some? && pending.value.0 == key && value == Some(pending.value.1))
  }

  predicate EntryChanges(expected: map<Key, Value>, pending: Option<(Key, Value)>, e: Entry) {
    e.Malformed? || (e.id in expected && !Matches(expected, pending, e.id, e.value))
  }

  /** Whether an update changes a protected value, as `_observe_configuration` decides. */
  predicate Changes(expected: map<Key, Value>, pending: Option<(Key, Value)>, e: Event) {
    expected != map[] &&
    match e
    case ModeUpdate(mode) => MODE in expected && !Matches(expected, pending, MODE, mode)
    case OptionsUpdate(None) => true
    case OptionsUpdate(Some(entries)) => exists x :: x in entries && EntryChanges(expected, pending, x)
    case _ => false
  }

  function Selected(entries: seq<Entry>, key: Key): seq<Entry> {
    if entries == [] then []
    else
      var rest := Selected(entries[..|entries| - 1], key);
      var last := entries[|entries| - 1];
      if last.Entry? && last.id == key then rest + [last] else rest
  }

  /** A key's single observed string value. */
  function SoleValue(entries: seq<Entry>, key: Key): Option<Value> {
    var selected := Selected(entries, key);
    if |selected| == 1 && selected[0].Entry? then selected[0].value else None
  }

  /** Every protected key is confirmed exactly once at its expected value. */
  predicate Confirms(expected: map<Key, Value>, entries: seq<Entry>) {
    forall key :: key in expected ==> SoleValue(entries, key) == Some(expected[key])
  }

  function Step(g: Guard, e: Event): Guard {
    match e
    case SentSet(id, key, value) =>
      if g.pending.Some? && g.pending.value.0 == key && key in g.expected && value == g.expected[key]
      then g.(requestId := Some(id)) else g
    case Response(id) =>
      if g.pending.Some? && g.requestId == Some(id) then g.(pending := None, requestId := None) else g
    case ModeUpdate(_) => g.(violated := g.violated || Changes(g.expected, g.pending, e))
    case OptionsUpdate(_) => g.(violated := g.violated || Changes(g.expected, g.pending, e))
    case OtherTraffic => g
    case Begin(key, value) =>
      if g.violated then g
      else
        var replaced := SoleValue(g.options, key);
        g.(expected := g.expected[key := value],
           pending := if replaced.Some? then Some((key, replaced.value)) else None,
           requestId := None,
           call := Some(Call(key, g.expected)))
    case End(answer) =>
      if g.call == None then g
      else
        var closed := g.(pending := None, requestId := None, call := None);
        var changed := answer.Some? && Changes(g.expected, None, OptionsUpdate(answer));
        if answer.Some? && !g.violated && !changed && Confirms(g.expected, answer.value)
        then closed.(options := answer.value)
        else closed.(expected := g.call.value.previous, violated := g.violated || (!g.violated && changed))
  }

  function Run(options: seq<Entry>, trace: seq<Event>): Guard
    decreases |trace|
  {
    if trace == [] then Opened(options)
    else Step(Run(options, trace[..|trace| - 1]), trace[|trace| - 1])
  }

  /** The flag is sticky: whatever follows, nothing clears it. */
  lemma {:induction false} ViolationIsSticky(options: seq<Entry>, trace: seq<Event>, more: seq<Event>)
    requires Run(options, trace).violated
    ensures Run(options, trace + more).violated
    decreases |more|
  {
    if more == [] {
      assert trace + more == trace;
    } else {
      assert (trace + more)[..|trace + more| - 1] == trace + more[..|more| - 1];
      ViolationIsSticky(options, trace, more[..|more| - 1]);
    }
  }

  // -- what was agreed, read off the trace alone -------------------------------------------------

  /** The start of the call still open before position `n`. */
  function OpenSince(trace: seq<Event>, n: nat): (s: Option<nat>)
    requires n <= |trace|
    ensures s.Some? ==> s.value < n && trace[s.value].Begin?
  {
    if n == 0 then None
    else match trace[n - 1]
      case Begin(_, _) => Some(n - 1)
      case End(_) => None
      case _ => OpenSince(trace, n - 1)
  }

  /** Calls do not overlap, and a call's answer is read through `_config_options`, which keeps only
      well-shaped entries. */
  predicate WellNested(trace: seq<Event>) {
    forall i :: 0 <= i < |trace| ==>
      && (trace[i].Begin? ==> OpenSince(trace, i) == None)
      && (trace[i].End? ==> OpenSince(trace, i).Some?)
      && (trace[i].End? && trace[i].answer.Some? ==> Malformed !in trace[i].answer.value)
  }

  /** The values protected before position `n`: a call protects its value from the moment it starts
      and goes on doing so if the agent confirms every protected value; otherwise it never was. */
  function Agreed(trace: seq<Event>, n: nat): map<Key, Value>
    requires n <= |trace|
  {
    if n == 0 then map[]
    else match trace[n - 1]
      case Begin(key, value) => Agreed(trace, n - 1)[key := value]
      case End(answer) =>
        var s := OpenSince(trace, n - 1);
        if s == None || (answer.Some? && Confirms(Agreed(trace, n - 1), answer.value))
        then Agreed(trace, n - 1) else Agreed(trace, s.value)
      case _ => Agreed(trace, n - 1)
  }

  /** The configuration last confirmed to the client before position `n`. */
  function LastSnapshot(options: seq<Entry>, trace: seq<Event>, n: nat): seq<Entry>
    requires n <= |trace|
  {
    if n == 0 then options
    else if trace[n - 1].End? && trace[n - 1].answer.Some? && OpenSince(trace, n - 1).Some?
            && Confirms(Agreed(trace, n - 1), trace[n - 1].answer.value)
    then trace[n - 1].answer.value
    else LastSnapshot(options, trace, n - 1)
  }

  /** The id of the latest request sent for the call opened at `s`, before position `n`. */
  function LastRequest(trace: seq<Event>, s: nat, n: nat): Option<nat>
    requires s < n <= |trace| && trace[s].Begin?
    decreases n
  {
    if n == s + 1 then None
    else
      var e := trace[n - 1];
      if e.SentSet? && e.key == trace[s].key && e.value == trace[s].value && !Answered(trace, s, n - 1)
      then Some(e.id) else LastRequest(trace, s, n - 1)
  }

  /** Whether the call opened at `s` has had its correlated response before position `n`. */
  predicate Answered(trace: seq<Event>, s: nat, n: nat)
    requires s < n <= |trace| && trace[s].Begin?
    decreases n
  {
    n > s + 1 &&
    (Answered(trace, s, n - 1)
     || (trace[n - 1].Response? && LastRequest(trace, s, n - 1) == Some(trace[n - 1].id)))
  }

  /** An update at `n` may still carry the value being replaced: of the one key being changed, as
      last observed, before the correlated response. */
  predicate Excused(options: seq<Entry>, trace: seq<Event>, n: nat, key: Key, value: Option<Value>)
    requires n <= |trace|
  {
    var s := OpenSince(trace, n);
    && s.Some? && trace[s.value].key == key && !Answered(trace, s.value, n)
    && value.Some? && value == SoleValue(LastSnapshot(options, trace, s.value), key)
  }

  predicate Legitimate(options: seq<Entry>, trace: seq<Event>, n: nat, key: Key, value: Option<Value>)
    requires n <= |trace|
  {
    key in Agreed(trace, n) ==>
      value == Some(Agreed(trace, n)[key]) || Excused(options, trace, n, key, value)
  }

  /** The wire frame at `n` changes something protected, judged by the trace alone. */
  predicate Foul(options: seq<Entry>, trace: seq<Event>, n: nat)
    requires n < |trace|
  {
    Agreed(trace, n) != map[] &&
    match trace[n]
    case ModeUpdate(mode) => !Legitimate(options, trace, n, MODE, mode)
    case OptionsUpdate(None) => true
    case OptionsUpdate(Some(entries)) =>
      exists x :: x in entries && (x.Malformed? || !Legitimate(options, trace, n, x.id, x.value))
    case End(Some(entries)) =>
      exists x :: x in entries && x.Entry? && x.id in Agreed(trace, n)
                  && x.value != Some(Agreed(trace, n)[x.id])
    case _ => false
  }

  /** How the guard's fields mirror the trace, as long as nothing was flagged. */
  predicate Mirrors(options: seq<Entry>, trace: seq<Event>, n: nat, g: Guard)
    requires n <= |trace|
  {
    var s := OpenSince(trace, n);
    && g.expected == Agreed(trace, n)
    && g.options == LastSnapshot(options, trace, n)
    && (g.call == None <==> s == None)
    && (s == None ==> g.pending == None)
    && (s.Some? ==>
          && g.call == Some(Call(trace[s.value].key, Agreed(trace, s.value)))
          && trace[s.value].key in g.expected && g.expected[trace[s.value].key] == trace[s.value].value
          && (if Answered(trace, s.value, n) then g.pending == None
              else var replaced := SoleValue(LastSnapshot(options, trace, s.value), trace[s.value].key);
                   && g.pending == (if replaced.Some? then Some((trace[s.value].key, replaced.value)) else None)
                   && (replaced.Some? ==> g.requestId == LastRequest(trace, s.value, n))))
  }

  lemma MirrorJudges(options: seq<Entry>, trace: seq<Event>, n: nat, g: Guard, key: Key, value: Option<Value>)
    requires n < |trace| && Mirrors(options, trace, n, g) && key in g.expected
    ensures Matches(g.expected, g.pending, key, value) <==> Legitimate(options, trace, n, key, value)
  {
  }

  lemma FoulIsFlagged(options: seq<Entry>, trace: seq<Event>, n: nat, g: Guard)
    requires n < |trace| && WellNested(trace) && Mirrors(options, trace, n, g) && !g.violated
    ensures Step(g, trace[n]).violated <==> Foul(options, trace, n)
  {
    match trace[n] {
      case ModeUpdate(mode) =>
        if MODE in g.expected { MirrorJudges(options, trace, n, g, MODE, mode); }
      case OptionsUpdate(Some(entries)) =>
        forall x | x in entries && x.Entry? && x.id in g.expected
          ensures EntryChanges(g.expected, g.pending, x) <==> !Legitimate(options, trace, n, x.id, x.value)
        {
          MirrorJudges(options, trace, n, g, x.id, x.value);
        }
      case End(Some(entries)) =>
        forall x | x in entries
          ensures EntryChanges(g.expected, None, x) <==>
                    x.id in Agreed(trace, n) && x.value != Some(Agreed(trace, n)[x.id])
        {
          assert x.Entry?;
        }
      case _ =>
    }
  }

  lemma {:induction false} SelectedHolds(entries: seq<Entry>, x: Entry)
    requires x in entries && x.Entry?
    ensures x in Selected(entries, x.id)
    decreases |entries|
  {
    var front, last := entries[..|entries| - 1], entries[|entries| - 1];
    if x in front {
      SelectedHolds(front, x);
    } else {
      assert x == last;
    }
  }

  /** A confirmed answer changes nothing protected. */
  lemma ConfirmedIsUnchanged(expected: map<Key, Value>, entries: seq<Entry>)
    requires Confirms(expected, entries) && Malformed !in entries
    ensures !Changes(expected, None, OptionsUpdate(Some(entries)))
  {
    forall x | x in entries ensures !EntryChanges(expected, None, x) {
      assert x.Entry?;
      if x.id in expected {
        SelectedHolds(entries, x);
        assert SoleValue(entries, x.id) == Some(expected[x.id]);
      }
    }
  }

  lemma MirrorStep(options: seq<Entry>, trace: seq<Event>, n: nat, g: Guard)
    requires n < |trace| && WellNested(trace) && Mirrors(options, trace, n, g)
    requires !g.violated && !Step(g, trace[n]).violated
    ensures Mirrors(options, trace, n + 1, Step(g, trace[n]))
  {
    match trace[n] {
      case End(answer) =>
        assert OpenSince(trace, n).Some?;
        if answer.Some? && Confirms(g.expected, answer.value) {
          ConfirmedIsUnchanged(g.expected, answer.value);
        }
      case Begin(key, value) => assert OpenSince(trace, n) == None;
      case _ => assert OpenSince(trace, n + 1) == OpenSince(trace, n);
    }
  }

  lemma {:induction false} RunMirrors(options: seq<Entry>, trace: seq<Event>, n: nat)
    requires n <= |trace| && WellNested(trace) && !Run(options, trace[..n]).violated
    ensures Mirrors(options, trace, n, Run(options, trace[..n]))
    decreases n
  {
    if n > 0 {
      assert trace[..n][..n - 1] == trace[..n - 1];
      assert trace[..n - 1] + [trace[n - 1]] == trace[..n];
      if Run(options, trace[..n - 1]).violated {
        ViolationIsSticky(options, trace[..n - 1], [trace[n - 1]]);
      }
      RunMirrors(options, trace, n - 1);
      MirrorStep(options, trace, n - 1, Run(options, trace[..n - 1]));
    }
  }

  /** For every wire trace and every placement of the calls: the guard has flagged a violation
      exactly when some update changed a protected value without that excuse. */
  lemma {:induction false} FlaggedIffFoul(options: seq<Entry>, trace: seq<Event>, n: nat)
    requires n <= |trace| && WellNested(trace)
    ensures Run(options, trace[..n]).violated <==> exists i :: 0 <= i < n && Foul(options, trace, i)
    decreases n
  {
    hide Step, Foul, Mirrors, WellNested;
    if n > 0 {
      var before := trace[..n - 1];
      assert trace[..n][..n - 1] == before;
      FlaggedIffFoul(options, trace, n - 1);
      if Run(options, before).violated {
        assert before + [trace[n - 1]] == trace[..n];
        ViolationIsSticky(options, before, [trace[n - 1]]);
      } else {
        RunMirrors(options, trace, n - 1);
        FoulIsFlagged(options, trace, n - 1, Run(options, before));
      }
    }
  }

  lemma WholeTrace(options: seq<Entry>, trace: seq<Event>)
    requires WellNested(trace)
    ensures Run(options, trace).violated <==> exists i :: 0 <= i < |trace| && Foul(options, trace, i)
  {
    assert trace[..|trace|] == trace;
    FlaggedIffFoul(options, trace, |trace|);
  }

  /** So if nothing was flagged, every update of a protected key carried its agreed value, except
      the old value of the one key being changed, before the correlated response. */
  lemma UnflaggedUpdatesAreLegitimate(options: seq<Entry>, trace: seq<Event>, i: nat, x: Entry)
    requires WellNested(trace) && !Run(options, trace).violated && i < |trace|
    requires || (trace[i].OptionsUpdate? && trace[i].entries.Some? && x in trace[i].entries.value)
             || (trace[i].ModeUpdate? && x == Entry(MODE, trace[i].mode))
    requires Agreed(trace, i) != map[]
    ensures x.Entry? && Legitimate(options, trace, i, x.id, x.value)
  {
    WholeTrace(options, trace);
    assert !Foul(options, trace, i);
  }

  // -- prompting -----------------------------------------------------------------------------------

  /** How waiting for the reply to a prompt ended, the grace for late updates included. */
  datatype Await = Replied | TimedOut | Failed | Cancelled

  datatype Exit = Returned | ConfigViolation | TurnTimeout | TurnError | TurnCancelled

  /** The stop reason left in `last_result`; `Reported` is the agent's own. */
  datatype Stop = Reported | ErrorStop | TimeoutStop | CancelledStop

  /** How a prompt that began at `start`, and stopped waiting at `checked`, leaves. */
  function PromptExit(options: seq<Entry>, trace: seq<Event>, start: nat, how: Await, checked: nat): Exit
    requires start <= checked <= |trace|
  {
    if Run(options, trace[..start]).violated then ConfigViolation
    else if how == Cancelled then TurnCancelled
    else if Run(options, trace[..checked]).violated then ConfigViolation
    else match how
      case Replied => Returned
      case TimedOut => TurnTimeout
      case _ => TurnError
  }

  /** For every trace, wherever the prompt begins, waits and ends: it returns normally if and only if
      it was replied to and no frame before its end was foul, whether before the prompt, during it or
      in the grace after the reply; and a foul frame is what it reports unless it was cancelled. */
  lemma PromptReturnsIffClean(options: seq<Entry>, trace: seq<Event>, start: nat, how: Await, checked: nat)
    requires WellNested(trace) && start <= checked <= |trace|
    ensures PromptExit(options, trace, start, how, checked) == Returned
            <==> how == Replied && forall i :: 0 <= i < checked ==> !Foul(options, trace, i)
    ensures PromptExit(options, trace, start, how, checked) == ConfigViolation
            <==> || (exists i :: 0 <= i < start && Foul(options, trace, i))
                 || (how != Cancelled && exists i :: 0 <= i < checked && Foul(options, trace, i))
    ensures PromptExit(options, trace, start, how, checked) == TurnCancelled
            <==> how == Cancelled && forall i :: 0 <= i < start ==> !Foul(options, trace, i)
    ensures PromptExit(options, trace, start, how, checked) == TurnTimeout
            <==> how == TimedOut && forall i :: 0 <= i < checked ==> !Foul(options, trace, i)
    ensures PromptExit(options, trace, start, how, checked) == TurnError
            <==> how == Failed && forall i :: 0 <= i < checked ==> !Foul(options, trace, i)
  {
    FlaggedIffFoul(options, trace, start);
    FlaggedIffFoul(options, trace, checked);
    hide Foul, Run, WellNested;
  }

  lemma {:induction false} OpenSinceOfPrefix(trace: seq<Event>, more: seq<Event>, n: nat)
    requires n <= |trace|
    ensures OpenSince(trace + more, n) == OpenSince(trace, n)
  {
    if n > 0 {
      OpenSinceOfPrefix(trace, more, n - 1);
    }
  }

  /** What may come next on a well-nested trace. */
  lemma NestedNext(trace: seq<Event>, e: Event)
    requires WellNested(trace)
    requires e.Begin? ==> OpenSince(trace, |trace|) == None
    requires e.End? ==> OpenSince(trace, |trace|).Some? && (e.answer.Some? ==> Malformed !in e.answer.value)
    ensures WellNested(trace + [e])
  {
    var more := trace + [e];
    forall i | 0 <= i < |more| && (more[i].Begin? || more[i].End?)
      ensures more[i].Begin? ==> OpenSince(more, i) == None
      ensures more[i].End? ==> OpenSince(more, i).Some?
      ensures more[i].End? && more[i].answer.Some? ==> Malformed !in more[i].answer.value
    {
      OpenSinceOfPrefix(trace, [e], i);
      if i < |trace| {
        assert more[i] == trace[i];
      }
    }
  }

  lemma OpenNext(trace: seq<Event>, e: Event)
    ensures OpenSince(trace + [e], |trace| + 1) ==
            match e
            case Begin(_, _) => Some(|trace|)
            case End(_) => None
            case _ => OpenSince(trace, |trace|)
  {
    OpenSinceOfPrefix(trace, [e], |trace|);
  }

  lemma RunNext(options: seq<Entry>, trace: seq<Event>, e: Event)
    ensures Run(options, trace + [e]) == Step(Run(options, trace), e)
  {
    assert (trace + [e])[..|trace|] == trace;
  }

  // -- the worker object --------------------------------------------------------------------------

  /** `_config_options`: an answer without a list counts as empty, and malformed options are left
      out. */
  method ConfigOptions(raw: Option<seq<Entry>>) returns (entries: seq<Entry>)
    ensures Malformed !in entries
    ensures forall x :: x in entries <==> raw.Some? && x in raw.value && x.Entry?
  {
    entries := [];
    if raw.Some? {
      var i := 0;
      while i < |raw.value|
        invariant 0 <= i <= |raw.value| && Malformed !in entries
        invariant forall x :: x in entries <==> x in raw.value[..i] && x.Entry?
      {
        assert raw.value[..i + 1] == raw.value[..i] + [raw.value[i]];
        if raw.value[i].Entry? {
          entries := entries + [raw.value[i]];
        }
        i := i + 1;
      }
      assert raw.value[..i] == raw.value;
    }
  }

  class AcpWorker {
    var expected: map<Key, Value>
    var options: seq<Entry>
    var pending: Option<(Key, Value)>
    var requestId: Option<nat>
    var violated: bool
    var call: Option<Call>
    var lastStop: Option<Stop>

    /** The configuration the session opened with, and everything since. */
    ghost var initial: seq<Entry>
    ghost var trace: seq<Event>

    function State(): Guard
      reads this
    {
      Guard(expected, options, pending, requestId, violated, call)
    }

    ghost predicate Valid()
      reads this
    {
      && State() == Run(initial, trace) && WellNested(trace)
      && (OpenSince(trace, |trace|) == None <==> call == None)
    }

    constructor (options: seq<Entry>)
      ensures Valid() && initial == options && trace == [] && lastStop == None
    {
      expected, this.options := map[], options;
      pending, requestId, violated, call := None, None, false, None;
      lastStop := None;
      initial, trace := options, [];
    }

    /** `_observe_configuration`: every entry of a snapshot is judged, and one change is enough. */
    method ObserveConfiguration(update: Event)
      requires update.ModeUpdate? || update.OptionsUpdate?
      modifies this`violated
      ensures State() == Step(old(State()), update)
    {
      var changed := false;
      if expected != map[] {
        match update {
          case ModeUpdate(mode) =>
            if MODE in expected {
              changed := !Matches(expected, pending, MODE, mode);
            }
          case OptionsUpdate(None) => changed := true;
          case OptionsUpdate(Some(entries)) =>
            var i := 0;
            while i < |entries|
              invariant 0 <= i <= |entries|
              invariant changed <==> exists x :: x in entries[..i] && EntryChanges(expected, pending, x)
            {
              assert entries[..i + 1] == entries[..i] + [entries[i]];
              ghost var sofar := changed;
              if entries[i].Malformed? {
                changed := true;
              } else if entries[i].id in expected {
                changed := changed || !Matches(expected, pending, entries[i].id, entries[i].value);
              }
              assert changed <==> sofar || EntryChanges(expected, pending, entries[i]);
              i := i + 1;
            }
            assert entries[..i] == entries;
        }
      }
      violated := violated || changed;
    }

    /** `_observe`, for one frame in either direction. */
    method Observe(e: Event)
      requires Valid() && !e.Begin? && !e.End?
      modifies this`pending, this`requestId, this`violated, this`trace
      ensures Valid() && trace == old(trace) + [e]
      ensures State() == Step(old(State()), e)
    {
      RunNext(initial, trace, e);
      NestedNext(trace, e);
      OpenNext(trace, e);
      match e {
        case SentSet(id, key, value) =>
          if pending.Some? && pending.value.0 == key && key in expected && value == expected[key] {
            requestId := Some(id);
          }
        case Response(id) =>
          if pending.Some? && requestId == Some(id) {
            pending, requestId := None, None;
          }
        case OtherTraffic =>
        case _ => ObserveConfiguration(e);
      }
      trace := trace + [e];
    }

    /** `set_config_option` up to its request. A connection already violated refuses it. */
    method BeginSet(key: Key, value: Value) returns (sent: bool)
      requires Valid() && call == None
      modifies this
      ensures Valid() && initial == old(initial)
      ensures sent <==> !old(violated)
      ensures trace == if sent then old(trace) + [Begin(key, value)] else old(trace)
      ensures sent ==> call.Some?
    {
      if violated {
        return false;
      }
      RunNext(initial, trace, Begin(key, value));
      NestedNext(trace, Begin(key, value));
      OpenNext(trace, Begin(key, value));
      var observed := SoleValue(options, key);
      call := Some(Call(key, expected));
      pending := if observed.Some? then Some((key, observed.value)) else None;
      requestId := None;
      expected := expected[key := value];
      trace := trace + [Begin(key, value)];
      sent := true;
    }

    /** `set_config_option` resumed: the selection holds only if the connection is intact and the
        answer confirms every protected value; otherwise the earlier ones are restored. */
    method EndSet(reply: Option<Option<seq<Entry>>>) returns (confirmed: bool, ghost answer: Option<seq<Entry>>)
      requires Valid() && call.Some?
      modifies this
      ensures Valid() && initial == old(initial) && call == None
      ensures trace == old(trace) + [End(answer)] && (answer.Some? <==> reply.Some?)
      ensures confirmed <==> !violated && answer.Some? && Confirms(old(expected), answer.value)
      ensures expected == if confirmed then old(expected) else old(call).value.previous
    {
      hide Run, WellNested, OpenSince;
      ghost var g := State();
      confirmed := false;
      pending := None;
      answer := None;
      if reply.Some? {
        var entries := ConfigOptions(reply.value);
        answer := Some(entries);
        if !violated {
          ObserveConfiguration(OptionsUpdate(Some(entries)));
          confirmed := !violated && Confirms(expected, entries);
          if confirmed {
            options := entries;
          }
        }
      }
      if !confirmed {
        expected := call.value.previous;
      }
      requestId, call := None, None;
      assert State() == Step(g, End(answer));
      RunNext(initial, trace, End(answer));
      NestedNext(trace, End(answer));
      OpenNext(trace, End(answer));
      trace := trace + [End(answer)];
    }

    /** Frames the reader hands over while a coroutine waits: any number of any kind. */
    method Wire()
      requires Valid()
      modifies this`pending, this`requestId, this`violated, this`trace
      ensures Valid() && old(trace) <= trace
      ensures old(violated) ==> violated
    {
      var frames: seq<Event> := *;
      var i := 0;
      while i < |frames|
        invariant 0 <= i <= |frames| && Valid() && old(trace) <= trace
        invariant old(violated) ==> violated
      {
        if !frames[i].Begin? && !frames[i].End? {
          Observe(frames[i]);
        }
        i := i + 1;
      }
    }

    /** `_await_late_updates`: with `polls` left before the deadline, the capture stays open until the
        turn's summary lands; a violation ends the grace at once. */
    method AwaitLateUpdates(polls: nat) returns (cancelled: bool, ghost completed: bool, ghost polled: nat)
      requires Valid()
      modifies this`pending, this`requestId, this`violated, this`trace
      ensures Valid() && old(trace) <= trace
      ensures old(violated) ==> violated && trace == old(trace) && !cancelled
      ensures !cancelled ==> completed || violated || polled == polls
    {
      var summary: bool := *;
      var left := polls;
      cancelled, completed, polled := false, summary, 0;
      while left > 0 && !summary && !violated
        invariant Valid() && old(trace) <= trace && polled + left == polls && completed == summary
        invariant old(violated) ==> violated && trace == old(trace)
      {
        Wire();
        cancelled := *;
        if cancelled { return; }
        summary := *;
        left, completed, polled := left - 1, summary, polled + 1;
      }
    }

    /** Waiting for the reply, and then for late updates. */
    method AwaitReply(polls: nat)
      returns (how: Await, ghost reply: Await, ghost cancelled: bool, ghost completed: bool, ghost polled: nat)
      requires Valid()
      modifies this`pending, this`requestId, this`violated, this`trace
      ensures Valid() && old(trace) <= trace
      ensures how == if reply == Replied && cancelled then Cancelled else reply
      ensures reply == Replied && !cancelled ==> completed || violated || polled == polls
    {
      Wire();
      how := *;
      reply, cancelled, completed, polled := how, false, false, 0;
      if how == Replied {
        var stopped;
        stopped, completed, polled := AwaitLateUpdates(polls);
        cancelled := stopped;
        if stopped {
          how := Cancelled;
        }
      }
    }

    /** `prompt`, with the reader working whenever it waits: for the reply, for late updates, and for
        the cancellation it sends when it times out. `checked` is where it last looked at the flag. */
    method Prompt(polls: nat) returns (exit: Exit, ghost how: Await, ghost checked: nat)
      requires Valid()
      modifies this`pending, this`requestId, this`violated, this`trace, this`lastStop
      ensures Valid() && old(trace) <= trace && |old(trace)| <= checked <= |trace|
      ensures exit == PromptExit(initial, trace, |old(trace)|, how, checked)
      ensures exit == Returned <==> how == Replied && forall i :: 0 <= i < checked ==> !Foul(initial, trace, i)
      ensures exit == Returned ==> checked == |trace| && lastStop == Some(Reported)
      ensures (exists i :: 0 <= i < |trace| && Foul(initial, trace, i)) ==> lastStop == Some(ErrorStop)
      ensures lastStop == Some(Reported) ==> exit == Returned
      ensures (forall i :: 0 <= i < |trace| ==> !Foul(initial, trace, i)) ==>
                lastStop == Some(match how case Replied => Reported case TimedOut => TimeoutStop
                                           case Cancelled => CancelledStop case Failed => ErrorStop)
    {
      hide Foul, Step, WellNested, Run, OpenSince, Changes;
      ghost var start := |trace|;
      assert trace[..start] == trace;
      how, checked := Failed, start;
      if violated {
        exit, lastStop := ConfigViolation, Some(ErrorStop);
      } else {
        var reply, _, _, _, _ := AwaitReply(polls);
        how := reply;
        checked := |trace|;
        assert trace[..checked] == trace;
        var stop := ErrorStop;
        ghost var seen := trace;
        if reply == Cancelled {
          exit, stop := TurnCancelled, CancelledStop;
          Wire();
        } else if violated {
          exit := ConfigViolation;
        } else if reply == Replied {
          exit, stop := Returned, Reported;
        } else if reply == TimedOut {
          exit, stop := TurnTimeout, TimeoutStop;
          Wire();
        } else {
          exit := TurnError;
        }
        assert trace[..checked] == seen && trace[..start] == old(trace);
        lastStop := Some(if violated then ErrorStop else stop);
      }
      PromptReturnsIffClean(initial, trace, start, how, checked);
      WholeTrace(initial, trace);
      hide PromptExit;
    }
  }
}
