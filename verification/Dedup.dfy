/** Repeated failures in the operational log: the first in a scope is logged, identical repeats inside
    a window are only counted, and the count is reported when something changes. */
module Dedup {
  import opened Wrappers

  const WINDOW: int := 15 * 60
  const MAX_SCOPES: nat := 256

  type Scope(==, !new) = string
  type Key(==, !new) = string

  datatype Entry = Entry(key: Key, loggedAt: int, suppressed: nat)

  type Table = map<Scope, Entry>

  /** How far a process got after saving the table: it may die before writing the count it owes, or
      after that and before writing the record itself. */
  datatype Fate = NoSummary | NoRecord | Whole

  /** A failure at some moment, the end of a failure and whether its count was written, or an entry
      lost to the cap. */
  datatype Event =
    | Occur(scope: Scope, key: Key, at: int, fate: Fate)
    | Clear(scope: Scope, written: bool)
    | Drop(scope: Scope)

  /** What reaches the log: a failure, the count of its repeats when it changes or recurs, and the count
      when it ends. */
  datatype Line = Record(scope: Scope, key: Key) | Repeats(scope: Scope, count: nat) | Cleared(scope: Scope, count: nat)

  predicate Suppresses(t: Table, e: Event) {
    e.Occur? && e.scope in t && t[e.scope].key == e.key && e.at - t[e.scope].loggedAt < WINDOW
  }

  function Pending(t: Table, s: Scope): nat {
    if s in t then t[s].suppressed else 0
  }

  function After(t: Table, e: Event): Table {
    if !e.Occur? then t - {e.scope}
    else if Suppresses(t, e) then t[e.scope := t[e.scope].(suppressed := t[e.scope].suppressed + 1)]
    else t[e.scope := Entry(e.key, e.at, 0)]
  }

  function Run(es: seq<Event>): Table {
    if es == [] then map[] else After(Run(es[..|es| - 1]), es[|es| - 1])
  }

  /** The occurrence at `k` was let through to the log. */
  predicate Passed(es: seq<Event>, k: nat)
    requires k < |es|
  {
    es[k].Occur? && !Suppresses(Run(es[..k]), es[k])
  }

  /** And its record was written. */
  predicate Logged(es: seq<Event>, k: nat)
    requires k < |es|
  {
    Passed(es, k) && es[k].fate == Whole
  }

  /** The lines one event adds to the log. */
  function LinesFor(t: Table, e: Event): seq<Line> {
    match e
    case Drop(_) => []
    case Clear(s, written) => if written && s in t then [Cleared(s, t[s].suppressed)] else []
    case Occur(s, key, _, fate) =>
      if Suppresses(t, e) || fate == NoSummary then []
      else
        (if Pending(t, s) > 0 then [Repeats(s, Pending(t, s))] else [])
        + if fate == Whole then [Record(s, key)] else []
  }

  function Lines(es: seq<Event>): seq<Line> {
    if es == [] then []
    else Lines(es[..|es| - 1]) + LinesFor(Run(es[..|es| - 1]), es[|es| - 1])
  }

  // -- conservation ------------------------------------------------------------------------------

  function RecordsOf(lines: seq<Line>, s: Scope): nat {
    if lines == [] then 0
    else RecordsOf(lines[..|lines| - 1], s)
         + if lines[|lines| - 1].Record? && lines[|lines| - 1].scope == s then 1 else 0
  }

  function CountsOf(lines: seq<Line>, s: Scope): nat {
    if lines == [] then 0
    else CountsOf(lines[..|lines| - 1], s)
         + if !lines[|lines| - 1].Record? && lines[|lines| - 1].scope == s then lines[|lines| - 1].count else 0
  }

  function Occurred(es: seq<Event>, s: Scope): nat {
    if es == [] then 0
    else Occurred(es[..|es| - 1], s) + if es[|es| - 1].Occur? && es[|es| - 1].scope == s then 1 else 0
  }

  /** What one event costs the log: the count of an entry the cap pushed out, the count a dead process
      owed, and the record it did not come to write. */
  function LossAt(t: Table, e: Event): nat {
    match e
    case Drop(s) => Pending(t, s)
    case Clear(s, written) => if written then 0 else Pending(t, s)
    case Occur(s, _, _, fate) =>
      if Suppresses(t, e) || fate == Whole then 0
      else if fate == NoRecord then 1
      else 1 + Pending(t, s)
  }

  function Lost(es: seq<Event>, s: Scope): nat {
    if es == [] then 0
    else
      Lost(es[..|es| - 1], s)
      + if es[|es| - 1].scope == s then LossAt(Run(es[..|es| - 1]), es[|es| - 1]) else 0
  }

  lemma {:induction false} CountConcat(a: seq<Line>, b: seq<Line>, s: Scope)
    ensures RecordsOf(a + b, s) == RecordsOf(a, s) + RecordsOf(b, s)
    ensures CountsOf(a + b, s) == CountsOf(a, s) + CountsOf(b, s)
    decreases |b|
  {
    if b == [] {
      assert a + b == a;
    } else {
      assert (a + b)[..|a + b| - 1] == a + b[..|b| - 1];
      CountConcat(a, b[..|b| - 1], s);
    }
  }

  lemma CountOne(l: Line, s: Scope)
    ensures RecordsOf([l], s) == if l.Record? && l.scope == s then 1 else 0
    ensures CountsOf([l], s) == if !l.Record? && l.scope == s then l.count else 0
  {
    assert [l][..0] == [];
  }

  /** The lines of one event, counted. */
  lemma LinesForCounts(t: Table, e: Event, s: Scope)
    ensures e.scope != s ==> RecordsOf(LinesFor(t, e), s) == 0 && CountsOf(LinesFor(t, e), s) == 0
    ensures e.scope == s ==>
              (if e.Occur? then 1 else 0) + Pending(t, s)
              == RecordsOf(LinesFor(t, e), s) + CountsOf(LinesFor(t, e), s) + Pending(After(t, e), s) + LossAt(t, e)
  {
    CountOne(Cleared(e.scope, Pending(t, e.scope)), s);
    CountOne(Repeats(e.scope, Pending(t, e.scope)), s);
    if e.Occur? {
      CountOne(Record(e.scope, e.key), s);
      CountConcat([Repeats(e.scope, Pending(t, e.scope))], [Record(e.scope, e.key)], s);
    }
    var lines := LinesFor(t, e);
    assert || lines == [] || lines == [Cleared(e.scope, Pending(t, e.scope))]
           || lines == [Repeats(e.scope, Pending(t, e.scope))]
           || (e.Occur? && (lines == [Record(e.scope, e.key)]
                            || lines == [Repeats(e.scope, Pending(t, e.scope))] + [Record(e.scope, e.key)]));
  }

  /** No occurrence disappears unaccounted: in every run and for every scope, each was written, written
      as a repeat, is still pending, or was lost at a drop or a death. */
  lemma {:induction false} OccurrencesAreConserved(es: seq<Event>, s: Scope)
    ensures Occurred(es, s)
            == RecordsOf(Lines(es), s) + CountsOf(Lines(es), s) + Pending(Run(es), s) + Lost(es, s)
  {
    if es != [] {
      var front, e := es[..|es| - 1], es[|es| - 1];
      OccurrencesAreConserved(front, s);
      LinesForCounts(Run(front), e, s);
      CountConcat(Lines(front), LinesFor(Run(front), e), s);
    }
  }

  /** Something of a scope is lost if and only if its entry was dropped with a count pending, or a process
      died before a line it owed: a record let through, or a count that was not zero. */
  lemma {:induction false} LostExactlyWhen(es: seq<Event>, s: Scope)
    ensures Lost(es, s) == 0 <==>
            forall k :: 0 <= k < |es| && es[k].scope == s ==>
              && (es[k].Drop? ==> Pending(Run(es[..k]), s) == 0)
              && (es[k].Clear? && !es[k].written ==> Pending(Run(es[..k]), s) == 0)
              && (Passed(es, k) ==> es[k].fate == Whole)
  {
    if es != [] {
      var front := es[..|es| - 1];
      LostExactlyWhen(front, s);
      forall k | 0 <= k < |front|
        ensures front[..k] == es[..k] && (Passed(front, k) <==> Passed(es, k))
      {
        assert front[..k] == es[..k];
      }
    }
  }

  // -- once per window ---------------------------------------------------------------------------

  /** Strictly between `i` and `j` the scope of `es[i]` saw nothing but that failure again. */
  predicate Unchanged(es: seq<Event>, i: nat, j: nat)
    requires i < |es| && j <= |es| && es[i].Occur?
  {
    forall k :: i < k < j && es[k].scope == es[i].scope ==> es[k].Occur? && es[k].key == es[i].key
  }

  lemma {:induction false} EntryIsKept(es: seq<Event>, i: nat, j: nat)
    requires i < j <= |es| && Passed(es, i) && Unchanged(es, i, j)
    ensures var t := Run(es[..j]);
            es[i].scope in t && t[es[i].scope].key == es[i].key && t[es[i].scope].loggedAt >= es[i].at
  {
    assert es[..j][..j - 1] == es[..j - 1];
    if i < j - 1 {
      EntryIsKept(es, i, j - 1);
    }
  }

  /** One failure is let through at most once per window while its scope neither changes nor clears, and
      so written at most once. */
  lemma OncePerWindow(es: seq<Event>, i: nat, j: nat)
    requires i < j < |es| && Passed(es, i) && Passed(es, j) && Unchanged(es, i, j)
    requires es[j].scope == es[i].scope && es[j].key == es[i].key
    ensures es[j].at - es[i].at >= WINDOW
  {
    EntryIsKept(es, i, j);
  }

  /** Where the entry of a scope came from. */
  lemma {:induction false} EntryWasPassed(es: seq<Event>, s: Scope) returns (i: nat)
    requires s in Run(es)
    ensures i < |es| && Passed(es, i) && Unchanged(es, i, |es|)
    ensures es[i] == Occur(s, Run(es)[s].key, Run(es)[s].loggedAt, es[i].fate)
  {
    var n := |es| - 1;
    var t, e := Run(es[..n]), es[n];
    if e.Occur? && e.scope == s && !Suppresses(t, e) {
      i := n;
    } else {
      i := EntryWasPassed(es[..n], s);
      assert es[..n][..i] == es[..i];
      assert Unchanged(es[..n], i, n);
    }
  }

  /** What is suppressed repeats something let through, inside the window and with no change between:
      something in the log, unless its process died before writing it. */
  lemma SuppressedOnlyIfLogged(es: seq<Event>, j: nat) returns (i: nat)
    requires j < |es| && es[j].Occur? && !Passed(es, j)
    ensures i < j && Passed(es, i) && Unchanged(es, i, j)
    ensures es[i].scope == es[j].scope && es[i].key == es[j].key && es[j].at - es[i].at < WINDOW
    ensures Logged(es, i) <==> es[i].fate == Whole
  {
    i := EntryWasPassed(es[..j], es[j].scope);
    assert es[..j][..i] == es[..i];
    assert Unchanged(es[..j], i, j);
  }

  /** A process that dies before its record silences the failure: the next occurrence is suppressed
      although the log holds nothing of it. */
  lemma DeathSilences(s: Scope, key: Key, at: int)
    ensures var es := [Occur(s, key, at, NoRecord), Occur(s, key, at + 1, Whole)];
            Passed(es, 0) && !Passed(es, 1) && Lines(es) == []
  {
    var es := [Occur(s, key, at, NoRecord), Occur(s, key, at + 1, Whole)];
    assert es[..0] == [] && es[..1] == [es[0]] && es[..1][..0] == [] && es[..2] == es;
    assert Run(es[..1]) == map[s := Entry(key, at, 0)];
    assert Lines(es[..1]) == [];
  }

  /** What the cap leaves of a table: nothing kept was logged before anything dropped. */
  predicate Trimmed(changed: Table, kept: Table, dropped: seq<Event>) {
    && (forall x :: x in kept ==> x in changed && kept[x] == changed[x])
    && (forall x :: x in changed && x !in kept ==> Drop(x) in dropped)
    && (forall d :: d in dropped ==> d.Drop? && d.scope in changed && d.scope !in kept)
    && (forall d, x :: d in dropped && x in kept && d.scope in changed && x in changed ==>
          changed[d.scope].loggedAt <= changed[x].loggedAt)
  }

  lemma RunNext(es: seq<Event>, e: Event)
    ensures Run(es + [e]) == After(Run(es), e)
  {
    assert (es + [e])[..|es|] == es;
  }

  lemma LinesNext(es: seq<Event>, e: Event)
    ensures Lines(es + [e]) == Lines(es) + LinesFor(Run(es), e)
  {
    assert (es + [e])[..|es|] == es;
  }

  lemma {:induction false} DropsAddNothing(es: seq<Event>, drops: seq<Event>)
    requires forall d :: d in drops ==> d.Drop?
    ensures Lines(es + drops) == Lines(es)
    decreases |drops|
  {
    if drops == [] {
      assert es + drops == es;
    } else {
      var front := drops[..|drops| - 1];
      assert es + drops == es + front + [drops[|drops| - 1]];
      assert drops[|drops| - 1] in drops;
      DropsAddNothing(es, front);
      LinesNext(es + front, drops[|drops| - 1]);
    }
  }

  lemma TrimmedDrops(changed: Table, kept: Table, dropped: seq<Event>)
    requires Trimmed(changed, kept, dropped)
    ensures forall d :: d in dropped ==> d.Drop?
  {
  }

  lemma NothingTrimmed(t: Table)
    ensures Trimmed(t, t, [])
  {
  }

  lemma DropRemoves(t: Table, s: Scope)
    requires s in t
    ensures After(t, Drop(s)) == t - {s} && |t - {s}| < |t|
  {
    assert (t - {s}).Keys == t.Keys - {s};
  }

  lemma TrimMore(changed: Table, kept: Table, dropped: seq<Event>, s: Scope)
    requires Trimmed(changed, kept, dropped) && s in kept
    requires forall x :: x in kept ==> kept[s].loggedAt <= kept[x].loggedAt
    ensures Trimmed(changed, kept - {s}, dropped + [Drop(s)])
  {
    var more := dropped + [Drop(s)];
    assert forall d :: d in dropped ==> d in more;
    assert Drop(s) in more;
  }

  // -- the file ----------------------------------------------------------------------------------

  method Oldest(table: Table) returns (s: Scope)
    requires table != map[]
    ensures s in table && forall x :: x in table ==> table[s].loggedAt <= table[x].loggedAt
  {
    var rest := table.Keys;
    s :| s in rest;
    rest := rest - {s};
    while rest != {}
      invariant rest <= table.Keys && s in table
      invariant forall x :: x in table.Keys - rest ==> table[s].loggedAt <= table[x].loggedAt
    {
      var x :| x in rest;
      if table[x].loggedAt < table[s].loggedAt {
        s := x;
      }
      rest := rest - {x};
    }
  }

  /** `dedup.json`. */
  class DedupFile {
    var table: Table
    /** What reached the log. */
    var lines: seq<Line>
    ghost var events: seq<Event>

    ghost predicate Valid()
      reads this
    {
      table == Run(events) && |table| <= MAX_SCOPES
    }

    /** No process is between its save and its lines. */
    ghost predicate Settled()
      reads this
    {
      Valid() && lines == Lines(events)
    }

    constructor ()
      ensures Settled() && table == map[] && events == []
    {
      table, lines, events := map[], [], [];
    }

    /** `_save_dedup`: over the cap, the entries logged longest ago go. */
    method Save(changed: Table, ghost e: Event) returns (ghost dropped: seq<Event>)
      requires Valid() && changed == After(table, e)
      modifies this`table, this`events
      ensures Valid() && events == old(events) + [e] + dropped
      ensures Trimmed(changed, table, dropped)
      ensures |changed| <= MAX_SCOPES ==> dropped == [] && table == changed
    {
      RunNext(events, e);
      NothingTrimmed(changed);
      hide Run, After, Trimmed;
      var kept := changed;
      dropped := [];
      assert events + [e] + dropped == events + [e];
      while |kept| > MAX_SCOPES
        invariant events == old(events) && kept == Run(events + [e] + dropped)
        invariant |changed| <= MAX_SCOPES ==> dropped == [] && kept == changed
        invariant Trimmed(changed, kept, dropped)
        decreases |kept|
      {
        var s := Oldest(kept);
        RunNext(events + [e] + dropped, Drop(s));
        DropRemoves(kept, s);
        TrimMore(changed, kept, dropped, s);
        assert events + [e] + (dropped + [Drop(s)]) == events + [e] + dropped + [Drop(s)];
        kept, dropped := kept - {s}, dropped + [Drop(s)];
      }
      table, events := kept, events + [e] + dropped;
    }

    /** `_gate`. What becomes of the process afterwards, `fate`, is not known to it. */
    method Gate(scope: Scope, key: Key, at: int, ghost fate: Fate)
      returns (logIt: bool, summary: Option<nat>, ghost dropped: seq<Event>)
      requires Valid()
      modifies this`table, this`events
      ensures Valid() && events == old(events) + [Occur(scope, key, at, fate)] + dropped
      ensures Trimmed(old(After(table, Occur(scope, key, at, fate))), table, dropped)
      ensures |old(table.Keys) + {scope}| <= MAX_SCOPES ==> dropped == []
      ensures logIt <==> Passed(events, |old(events)|)
      ensures logIt <==> !Suppresses(old(table), Occur(scope, key, at, fate))
      ensures summary == if logIt && Pending(old(table), scope) > 0 then Some(Pending(old(table), scope)) else None
    {
      ghost var e := Occur(scope, key, at, fate);
      assert (events + [e])[..|events|] == events;
      var changed;
      if scope in table && table[scope].key == key && at - table[scope].loggedAt < WINDOW {
        var entry := table[scope];
        changed := table[scope := entry.(suppressed := entry.suppressed + 1)];
        logIt, summary := false, None;
      } else {
        summary := if scope in table && table[scope].suppressed > 0 then Some(table[scope].suppressed) else None;
        changed := table[scope := Entry(key, at, 0)];
        logIt := true;
      }
      assert changed == After(table, e);
      assert changed.Keys == table.Keys + {scope};
      assert logIt <==> !Suppresses(Run(events), e);
      hide Run, After, Suppresses, Trimmed;
      dropped := Save(changed, e);
      assert events[..|old(events)|] == old(events) && events[|old(events)|] == e;
    }

    /** `dedup` and the record that follows it: the table is saved first, then the count that was owed is
        written, then the record; the process may die between any two. */
    method Report(scope: Scope, key: Key, at: int) returns (died: bool, ghost fate: Fate, ghost dropped: seq<Event>)
      requires Settled()
      modifies this
      ensures Settled() && events == old(events) + [Occur(scope, key, at, fate)] + dropped
      ensures |old(table.Keys) + {scope}| <= MAX_SCOPES ==> dropped == []
      ensures forall d :: d in dropped ==> d.Drop?
      ensures lines == old(lines) + LinesFor(old(table), Occur(scope, key, at, fate))
      ensures !died ==> fate == Whole
    {
      hide Run, Lines, After, Suppresses, Passed, Trimmed;
      var end: Fate := *;
      fate := end;
      ghost var before, was := table, events;
      ghost var e := Occur(scope, key, at, fate);
      var logIt, summary;
      logIt, summary, dropped := Gate(scope, key, at, fate);
      TrimmedDrops(After(before, e), table, dropped);
      DropsAddNothing(was + [Occur(scope, key, at, fate)], dropped);
      LinesNext(was, Occur(scope, key, at, fate));
      assert lines + LinesFor(before, e) == Lines(events);
      died := end != Whole;
      if end == NoSummary { return; }
      if summary.Some? {
        lines := lines + [Repeats(scope, summary.value)];
      }
      if end == NoRecord { return; }
      if logIt {
        lines := lines + [Record(scope, key)];
      }
    }

    /** `clear`: the entry goes, then the count it held is written, unless the process dies between. */
    method ClearScope(scope: Scope) returns (died: bool)
      requires Settled()
      modifies this
      ensures Settled() && table == old(table) - {scope}
      ensures died ==> scope in old(table)
      ensures events == if scope in old(table) then old(events) + [Clear(scope, !died)] else old(events)
      ensures lines == if scope in old(table) && !died
                       then old(lines) + [Cleared(scope, old(table)[scope].suppressed)] else old(lines)
    {
      hide Run, Lines, Trimmed;
      died := false;
      if scope !in table {
        return;
      }
      died := *;
      var suppressed := table[scope].suppressed;
      var changed := table - {scope};
      assert |changed| <= |table| by { assert changed.Keys == table.Keys - {scope}; }
      LinesNext(events, Clear(scope, !died));
      assert changed == After(table, Clear(scope, !died));
      ghost var was, owed := events, LinesFor(table, Clear(scope, !died));
      ghost var dropped := Save(changed, Clear(scope, !died));
      assert events == was + [Clear(scope, !died)];
      assert Lines(events) == lines + owed;
      if !died {
        lines := lines + [Cleared(scope, suppressed)];
      }
    }
  }
}
