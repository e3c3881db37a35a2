/** What an undisturbed sweep leaves: every task examined, and every row and lease as its own
    examination says. */
module SweepResult {
  import opened Wrappers
  import opened Units
  import opened Recovery
  import opened SweepRuns

  datatype Refusal = Stale | Illegal | ModeForbidden | Missing | UnitFailure

  /** One examination: what it learned and what came of it. */
  datatype Examined = Examined(result: Result<Verdict, Refusal>, look: Look)

  datatype Store = Store(tasks: Tasks, leases: Leases)

  /** The examination decided, or failed; a lease that was taken up again meanwhile is not retired. */
  predicate Faithful(id: Id, t: Task, x: Examined, env: Env) {
    x.result.Success? ==>
      var decided := Decide(id, t, x.look, env);
      decided != Ask && (x.result.value == decided || (x.result.value == Wait && decided == RetireLease))
  }

  predicate Settles(x: Examined) {
    x.result.Success? && x.result.value.Settle?
  }

  /** The task's lease goes with it, or is found retired. */
  predicate Releases(x: Examined) {
    Settles(x) || x.result == Success(RetireLease)
  }

  function RowAfter(t: Task, x: Examined): Task {
    if Settles(x) then MovedRow(t, x.result.value.to) else t
  }

  function StoreAfter(s: Store, id: Id, x: Examined): Store
    requires id in s.tasks
  {
    Store(if Settles(x) then Move(s.tasks, id, x.result.value.to) else s.tasks,
          if Releases(x) then s.leases - {id} else s.leases)
  }

  /** An undisturbed sweep so far: every row and lease is as its own examination left it. */
  predicate Swept(before: Store, after: Store, seen: map<Id, Examined>, env: Env) {
    && after.tasks.Keys == before.tasks.Keys && seen.Keys <= before.tasks.Keys
    && (forall id :: id in seen ==> before.tasks[id].state in ACTIVE && Faithful(id, before.tasks[id], seen[id], env))
    && (forall id :: id in before.tasks ==>
          after.tasks[id] == if id in seen then RowAfter(before.tasks[id], seen[id]) else before.tasks[id])
    && after.leases.Keys <= before.leases.Keys
    && (forall id :: id in before.leases ==>
          && (id in after.leases <==> !(id in seen && Releases(seen[id])))
          && (id in after.leases ==> after.leases[id] == before.leases[id]))
  }

  lemma SweptRow(before: Store, now: Store, seen: map<Id, Examined>, env: Env, row: Row)
    requires Swept(before, now, seen, env) && row.id in now.tasks && now.tasks[row.id] == row.task && row.id !in seen
    ensures row.id in before.tasks && before.tasks[row.id] == row.task
  {
  }

  lemma OneSwept(before: Store, a: Store, seen: map<Id, Examined>, env: Env, id: Id, x: Examined)
    requires Swept(before, a, seen, env) && id in before.tasks && id !in seen && id in a.tasks
    requires before.tasks[id].state in ACTIVE && Faithful(id, before.tasks[id], x, env)
    ensures Swept(before, StoreAfter(a, id, x), seen[id := x], env)
  {
    hide Faithful;
  }

  /** The leases of tasks at rest after their pass: one goes exactly when its unit was shown and its
      process is over; the others stay. */
  predicate FinishedReleased(tasks: Tasks, before: Leases, after: Leases, kinds: map<Id, Kind>, env: Env) {
    && after.Keys <= before.Keys
    && (forall id :: id in after ==> after[id] == before[id])
    && forall id :: id in before ==>
         (id !in after <==> id in kinds && id in tasks && Freed(tasks[id], before[id], kinds[id], env))
  }

  // -- which rows -----------------------------------------------------------------------------------

  datatype Row = Row(id: Id, task: Task)

  const SCAN_ORDER: seq<State> := [Accepting, Cancelling, Preparing, Queued, Repairing, Resuming, Running]

  /** Acceptance, left to the server when only workers are swept. */
  predicate Skipped(t: Task, env: Env) {
    env.workersOnly && (t.state == Accepting || (t.unit.Some? && "taskspindle-accept-" <= t.unit.value))
  }

  function InState(tasks: Tasks, s: State): set<Id> {
    set id | id in tasks && tasks[id].state == s
  }

  /** At most `SCAN_LIMIT` distinct rows of one state, and all of them unless there are more. */
  predicate Listing(tasks: Tasks, s: State, rows: seq<Row>) {
    && (forall k :: 0 <= k < |rows| ==>
          rows[k].id in tasks && tasks[rows[k].id] == rows[k].task && rows[k].task.state == s)
    && (forall j, k :: 0 <= j < k < |rows| ==> rows[j].id != rows[k].id)
    && |rows| <= SCAN_LIMIT
    && (|InState(tasks, s)| <= SCAN_LIMIT ==> forall id :: id in InState(tasks, s) ==> Row(id, tasks[id]) in rows)
  }

  /** The rows from `k` on are still as listed and not examined yet. */
  predicate Ahead(tasks: Tasks, rows: seq<Row>, k: nat, seen: set<Id>) {
    forall j :: k <= j < |rows| ==>
      && rows[j].id !in seen && rows[j].id in tasks && tasks[rows[j].id] == rows[j].task
      && forall i :: k <= i < j ==> rows[i].id != rows[j].id
  }

  /** The first `k` rows, without those the sweep leaves to others. */
  function RowIds(rows: seq<Row>, k: nat, env: Env): set<Id>
    requires k <= |rows|
  {
    if k == 0 then {}
    else RowIds(rows, k - 1, env) + if Skipped(rows[k - 1].task, env) then {} else {rows[k - 1].id}
  }

  lemma StartAhead(tasks: Tasks, s: State, rows: seq<Row>, seen: set<Id>, env: Env)
    requires Listing(tasks, s, rows) && InState(tasks, s) !! seen
    ensures Ahead(tasks, rows, 0, seen) && RowIds(rows, 0, env) == {}
  {
  }

  lemma NextAhead(tasks: Tasks, rows: seq<Row>, k: nat, seen: set<Id>, env: Env)
    requires Ahead(tasks, rows, k, seen) && k < |rows|
    ensures RowIds(rows, k + 1, env) == RowIds(rows, k, env) + if Skipped(rows[k].task, env) then {} else {rows[k].id}
    ensures rows[k].id !in seen && rows[k].id in tasks && tasks[rows[k].id] == rows[k].task
  {
  }

  lemma AheadNext(a: Tasks, b: Tasks, rows: seq<Row>, k: nat, seen: set<Id>, seen': set<Id>)
    requires Ahead(a, rows, k, seen) && k < |rows| && seen' <= seen + {rows[k].id}
    requires forall id :: id in a && id != rows[k].id ==> id in b && b[id] == a[id]
    ensures Ahead(b, rows, k + 1, seen')
  {
  }

  lemma ListedRow(tasks: Tasks, s: State, rows: seq<Row>, k: nat)
    requires Listing(tasks, s, rows) && k < |rows|
    ensures rows[k].id in tasks && tasks[rows[k].id] == rows[k].task && rows[k].task.state == s
  {
  }

  lemma {:induction false} RowIdsAt(rows: seq<Row>, n: nat, env: Env, id: Id)
    requires n <= |rows|
    ensures id in RowIds(rows, n, env) <==> exists k :: 0 <= k < n && rows[k].id == id && !Skipped(rows[k].task, env)
  {
    if n > 0 {
      RowIdsAt(rows, n - 1, env, id);
    }
  }

  lemma ListingCovers(tasks: Tasks, s: State, rows: seq<Row>, env: Env)
    requires Listing(tasks, s, rows)
    ensures RowIds(rows, |rows|, env) <= InState(tasks, s)
    ensures |InState(tasks, s)| <= SCAN_LIMIT ==>
              forall id :: id in InState(tasks, s) && !Skipped(tasks[id], env) ==> id in RowIds(rows, |rows|, env)
  {
    forall id | id in RowIds(rows, |rows|, env)
      ensures id in InState(tasks, s)
    {
      RowIdsAt(rows, |rows|, env, id);
    }
    forall id | |InState(tasks, s)| <= SCAN_LIMIT && id in InState(tasks, s) && !Skipped(tasks[id], env)
      ensures id in RowIds(rows, |rows|, env)
    {
      assert Row(id, tasks[id]) in rows;
      RowIdsAt(rows, |rows|, env, id);
    }
  }

  predicate NoneOf(seen: map<Id, Examined>, before: Tasks, s: State) {
    forall id :: id in seen && id in before ==> before[id].state != s
  }

  /** Every task that was in the state has been examined, those the sweep leaves to others aside. */
  predicate AllSeen(before: Tasks, s: State, seen: map<Id, Examined>, env: Env) {
    forall id :: id in InState(before, s) && !Skipped(before[id], env) ==> id in seen
  }

  predicate SameIn(before: Tasks, after: Tasks, s: State) {
    && InState(after, s) == InState(before, s)
    && forall id :: id in InState(before, s) ==> after[id] == before[id]
  }

  lemma StateSwept(
      before: Tasks, listed: Tasks, s: State, rows: seq<Row>, done: set<Id>, seen: map<Id, Examined>, env: Env)
    requires SameIn(before, listed, s) && Listing(listed, s, rows)
    requires seen.Keys == done + RowIds(rows, |rows|, env)
    ensures seen.Keys <= done + InState(before, s)
    ensures |InState(before, s)| <= SCAN_LIMIT ==> AllSeen(before, s, seen, env)
  {
    ListingCovers(listed, s, rows, env);
  }

  /** A state not swept yet holds exactly what it held at the start. */
  lemma UnsweptState(before: Store, after: Store, seen: map<Id, Examined>, env: Env, s: State)
    requires Swept(before, after, seen, env) && s in ACTIVE && ModesHold(before.tasks)
    requires NoneOf(seen, before.tasks, s)
    ensures SameIn(before.tasks, after.tasks, s) && InState(after.tasks, s) !! seen.Keys
  {
    forall id | id in seen && Settles(seen[id])
      ensures after.tasks[id].state !in ACTIVE
    {
      DecisionsAreLegal(id, before.tasks[id], seen[id].look, env);
    }
  }

  /** Only the first `n` states have been examined, and those in full. */
  ghost predicate Progress(before: Tasks, seen: map<Id, Examined>, n: nat, env: Env)
    requires n <= |SCAN_ORDER|
  {
    && (forall id :: id in seen && id in before ==> before[id].state in SCAN_ORDER[..n])
    && forall k :: 0 <= k < n && |InState(before, SCAN_ORDER[k])| <= SCAN_LIMIT ==>
         AllSeen(before, SCAN_ORDER[k], seen, env)
  }

  lemma StartSwept(store: Store, env: Env)
    ensures Swept(store, store, map[], env) && Progress(store.tasks, map[], 0, env)
  {
  }

  lemma NextScanned(n: nat)
    requires n < |SCAN_ORDER|
    ensures SCAN_ORDER[n] in ACTIVE
  {
  }

  lemma NextState(before: Tasks, seen: map<Id, Examined>, n: nat, env: Env)
    requires n < |SCAN_ORDER| && Progress(before, seen, n, env)
    ensures SCAN_ORDER[n] in ACTIVE && NoneOf(seen, before, SCAN_ORDER[n])
  {
  }

  lemma StateDone(before: Tasks, done: map<Id, Examined>, seen: map<Id, Examined>, n: nat, env: Env)
    requires n < |SCAN_ORDER| && Progress(before, done, n, env)
    requires done.Keys <= seen.Keys <= done.Keys + InState(before, SCAN_ORDER[n])
    requires |InState(before, SCAN_ORDER[n])| <= SCAN_LIMIT ==> AllSeen(before, SCAN_ORDER[n], seen, env)
    ensures Progress(before, seen, n + 1, env)
  {
    assert SCAN_ORDER[..n + 1] == SCAN_ORDER[..n] + [SCAN_ORDER[n]];
    forall k | 0 <= k < n && |InState(before, SCAN_ORDER[k])| <= SCAN_LIMIT
      ensures AllSeen(before, SCAN_ORDER[k], seen, env)
    {
      assert AllSeen(before, SCAN_ORDER[k], done, env);
    }
  }

  lemma ScanCoversActive(s: State)
    requires s in ACTIVE
    ensures s in SCAN_ORDER
  {
    assert SCAN_ORDER[0] == Accepting && SCAN_ORDER[1] == Cancelling && SCAN_ORDER[2] == Preparing;
    assert SCAN_ORDER[3] == Queued && SCAN_ORDER[4] == Repairing && SCAN_ORDER[5] == Resuming;
    assert SCAN_ORDER[6] == Running;
  }

  lemma AllStatesDone(before: Tasks, seen: map<Id, Examined>, env: Env)
    requires Progress(before, seen, |SCAN_ORDER|, env)
    ensures |ActiveOf(before)| <= SCAN_LIMIT ==>
              forall id :: id in ActiveOf(before) && !Skipped(before[id], env) ==> id in seen
  {
    forall id | |ActiveOf(before)| <= SCAN_LIMIT && id in ActiveOf(before) && !Skipped(before[id], env)
      ensures id in seen
    {
      ScanCoversActive(before[id].state);
      var k :| 0 <= k < |SCAN_ORDER| && SCAN_ORDER[k] == before[id].state;
      assert InState(before, SCAN_ORDER[k]) <= ActiveOf(before);
      FewerInOneState(InState(before, SCAN_ORDER[k]), ActiveOf(before));
      assert AllSeen(before, SCAN_ORDER[k], seen, env);
    }
  }

  lemma {:induction false} FewerInOneState(a: set<Id>, b: set<Id>)
    requires a <= b
    ensures |a| <= |b|
  {
    assert b == a + (b - a);
  }
}
