/** Every run of a reconcile sweep: what it reads from the store, what it is told about units, what it
    writes, and what other processes write meanwhile, one step at a time. */
module SweepRuns {
  import opened Wrappers
  import opened Units
  import opened Recovery

  type Tasks = map<Id, Task>
  type Leases = map<Id, Lease>

  /** What other writers may do to the rows: a version never goes back, and while it stands the state
      and mode stand too. Unit, boot and heartbeat may be written without a new version. */
  predicate Later(a: Tasks, b: Tasks) {
    forall id :: id in a ==>
      && id in b && b[id].mode == a[id].mode && b[id].version >= a[id].version
      && (b[id].version == a[id].version ==> b[id].state == a[id].state)
  }

  function MovedRow(t: Task, to: State): Task {
    t.(state := to, version := t.version + 1)
  }

  /** The rows after one transition. */
  function Move(tasks: Tasks, id: Id, to: State): Tasks
    requires id in tasks
  {
    tasks[id := MovedRow(tasks[id], to)]
  }

  predicate ModeHolds(t: Task) {
    t.mode != Implement ==> t.state !in IMPLEMENT_ONLY
  }

  /** No task is in a state its mode forbids. */
  predicate ModesHold(tasks: Tasks) {
    forall id :: id in tasks ==> ModeHolds(tasks[id])
  }

  /** What is being examined: a task as it was listed, or the lease of a finished task. */
  datatype Exam =
    | NoExam
    | OfTask(id: Id, read: Task, look: Look, stillOpen: Option<bool>, settled: bool)
    | OfLease(id: Id, row: Task, lease: Lease, kind: Option<Kind>)

  /** The store, what the sweep has listed from it, and the examination under way. */
  datatype World = World(
    tasks: Tasks, leases: Leases, listed: Tasks, listedLeases: Leases, exam: Exam)

  datatype Step =
    | OtherWrite(tasks: Tasks, leases: Leases)
    | List(rows: Tasks)
    | ListLeases
    | Examine(id: Id)
    | ExamineLease(id: Id)
    | ReadLease
    | TurnOpen(open: bool)
    | StillOpen(open: bool)
    | CancelAsked(at: Option<int>)
    | Unresolved(unresolved: bool)
    | JournalSaid(answer: AcceptAnswer)
    | Shown(unit: string, kind: Kind)
    | NoAnswer(unit: string)
    | Stopped(unit: string)
    | Forgot(unit: string)
    | Moved(to: State)
    | Dropped
    | Retired
    | Released

  /** The unit an examination asks about. */
  function Subject(x: Exam): string
    requires x != NoExam
  {
    match x
    case OfTask(id, read, _, _, _) => UnitFor(id, read)
    case OfLease(id, _, lease, _) => lease.unit.GetOr(WorkerUnit(id))
  }

  predicate SameVersion(w: World, id: Id, read: Task) {
    id in w.tasks && w.tasks[id].version == read.version
  }

  /** When each step can happen. Answers about units and the accept journal are anything; what the
      sweep writes depends on what it has read and been told, and on nothing else. */
  predicate Enabled(w: World, s: Step, env: Env) {
    var x := w.exam;
    match s
    case OtherWrite(tasks, _) => Later(w.tasks, tasks) && ModesHold(tasks)
    case List(rows) => forall id :: id in rows ==> id in w.tasks && w.tasks[id] == rows[id] && rows[id].state in ACTIVE
    case ListLeases => true
    case Examine(id) => id in w.listed
    case ExamineLease(id) => id in w.listedLeases && id in w.tasks
    case ReadLease => x.OfTask? && !x.settled
    case TurnOpen(_) => x.OfTask? && !x.settled
    case StillOpen(_) => x.OfTask? && !x.settled
    case CancelAsked(_) => x.OfTask? && !x.settled
    case Unresolved(_) => x.OfTask? && !x.settled
    case JournalSaid(_) => x.OfTask? && !x.settled
    case Shown(unit, _) => x != NoExam && (x.OfTask? ==> !x.settled) && unit == Subject(x)
    case NoAnswer(unit) => x != NoExam && unit == Subject(x)
    case Stopped(unit) => x.OfTask? && unit == Subject(x) && Decide(x.id, x.read, x.look, env) == StopUnit
    case Forgot(unit) => x.OfTask? && unit == Subject(x) && x.look.kind.Some? && Ended(x.look.kind.value)
    case Moved(to) =>
      x.OfTask? && !x.settled && SameVersion(w, x.id, x.read) && Decide(x.id, x.read, x.look, env) == Settle(to)
    case Dropped => x.OfTask? && x.settled && x.id in w.leases
    case Retired =>
      && x.OfTask? && !x.settled && Decide(x.id, x.read, x.look, env) == RetireLease && x.stillOpen == Some(true)
      && SameVersion(w, x.id, x.read) && w.tasks[x.id].state == x.read.state && w.tasks[x.id].unit.None?
      && x.id in w.leases && x.look.lease == Some(Some(w.leases[x.id]))
    case Released =>
      && x.OfLease? && x.kind.Some? && Freed(x.row, x.lease, x.kind.value, env)
      && x.id in w.tasks && w.tasks[x.id].state == x.row.state
      && x.id in w.leases && w.leases[x.id] == x.lease
  }

  function Learn(x: Exam, s: Step, w: World): Exam
    requires x.OfTask?
  {
    match s
    case ReadLease => x.(look := x.look.(lease := Some(if x.id in w.leases then Some(w.leases[x.id]) else None)))
    case TurnOpen(open) => x.(look := x.look.(turnOpen := Some(open)))
    case StillOpen(open) => x.(stillOpen := Some(open))
    case CancelAsked(at) => x.(look := x.look.(cancelledAt := Some(at)))
    case Unresolved(u) => x.(look := x.look.(unresolved := Some(u)))
    case JournalSaid(answer) => x.(look := x.look.(answer := Some(answer)))
    case Shown(_, kind) => x.(look := x.look.(kind := Some(kind)))
    case _ => x
  }

  function After(w: World, s: Step, env: Env): World
    requires Enabled(w, s, env)
  {
    match s
    case OtherWrite(tasks, leases) => w.(tasks := tasks, leases := leases)
    case List(rows) => w.(listed := rows)
    case ListLeases => w.(listedLeases := w.leases)
    case Examine(id) => w.(exam := OfTask(id, w.listed[id], NOTHING, None, false))
    case ExamineLease(id) => w.(exam := OfLease(id, w.tasks[id], w.listedLeases[id], None))
    case Shown(_, kind) => w.(exam := if w.exam.OfLease? then w.exam.(kind := Some(kind)) else Learn(w.exam, s, w))
    case Moved(to) => w.(tasks := Move(w.tasks, w.exam.id, to), exam := w.exam.(settled := true))
    case Dropped => w.(leases := w.leases - {w.exam.id})
    case Retired => w.(leases := w.leases - {w.exam.id})
    case Released => w.(leases := w.leases - {w.exam.id})
    case NoAnswer(_) => w
    case Stopped(_) => w
    case Forgot(_) => w
    case _ => w.(exam := Learn(w.exam, s, w))
  }

  // -- runs ---------------------------------------------------------------------------------------

  predicate IsRun(start: World, log: seq<Step>, env: Env)
    decreases |log|, 0
  {
    log == []
    || (IsRun(start, log[..|log| - 1], env)
        && Enabled(Replay(start, log[..|log| - 1], env), log[|log| - 1], env))
  }

  function Replay(start: World, log: seq<Step>, env: Env): World
    requires IsRun(start, log, env)
    decreases |log|, 1
  {
    if log == [] then start
    else After(Replay(start, log[..|log| - 1], env), log[|log| - 1], env)
  }

  /** A sweep that has not begun. */
  predicate Fresh(w: World) {
    ModesHold(w.tasks) && w.listed == map[] && w.listedLeases == map[] && w.exam == NoExam
  }

  lemma {:induction false} RunPrefix(start: World, log: seq<Step>, k: nat, env: Env)
    requires IsRun(start, log, env) && k <= |log|
    ensures IsRun(start, log[..k], env)
    decreases |log|
  {
    if k == |log| {
      assert log[..k] == log;
    } else {
      assert log[..|log| - 1][..k] == log[..k];
      RunPrefix(start, log[..|log| - 1], k, env);
    }
  }

  /** A row read before is still as it was unless its version has moved. */
  predicate Knows(tasks: Tasks, id: Id, read: Task) {
    && id in tasks && tasks[id].mode == read.mode && tasks[id].version >= read.version
    && (tasks[id].version == read.version ==> tasks[id].state == read.state)
  }

  predicate WorldInv(w: World, env: Env) {
    && ModesHold(w.tasks)
    && (forall id :: id in w.listed ==>
          Knows(w.tasks, id, w.listed[id]) && w.listed[id].state in ACTIVE && ModeHolds(w.listed[id]))
    && (w.exam.OfTask? ==>
          && Knows(w.tasks, w.exam.id, w.exam.read) && w.exam.read.state in ACTIVE && ModeHolds(w.exam.read)
          && (w.exam.settled ==> Decide(w.exam.id, w.exam.read, w.exam.look, env).Settle?))
  }

  lemma KnownLater(a: Tasks, b: Tasks, id: Id, read: Task)
    requires Later(a, b) && Knows(a, id, read)
    ensures Knows(b, id, read)
  {
  }

  lemma MoveIsLater(tasks: Tasks, id: Id, to: State)
    requires id in tasks && ModesHold(tasks) && !Forbids(tasks[id].mode, tasks[id].state, to)
    ensures Later(tasks, Move(tasks, id, to)) && ModesHold(Move(tasks, id, to))
  {
  }

  /** The rows, whoever wrote last. */
  lemma StepKeepsRows(w: World, s: Step, env: Env)
    requires WorldInv(w, env) && Enabled(w, s, env)
    ensures Later(w.tasks, After(w, s, env).tasks) && ModesHold(After(w, s, env).tasks)
  {
    if s.Moved? {
      var x := w.exam;
      DecisionsAreLegal(x.id, x.read, x.look, env);
      hide Decide;
      MoveIsLater(w.tasks, x.id, s.to);
    }
  }

  lemma StepKeepsListed(w: World, s: Step, env: Env)
    requires WorldInv(w, env) && Enabled(w, s, env) && Later(w.tasks, After(w, s, env).tasks)
    ensures var w' := After(w, s, env);
            forall id :: id in w'.listed ==>
              Knows(w'.tasks, id, w'.listed[id]) && w'.listed[id].state in ACTIVE && ModeHolds(w'.listed[id])
  {
    hide Decide, Later, ModeHolds, Freed, Subject;
    var w' := After(w, s, env);
    if s.List? {
      ListedRows(w, s.rows);
    } else {
      forall id | id in w.listed
        ensures Knows(w'.tasks, id, w.listed[id])
      {
        KnownLater(w.tasks, w'.tasks, id, w.listed[id]);
      }
    }
  }

  lemma StepKeepsExam(w: World, s: Step, env: Env)
    requires WorldInv(w, env) && Enabled(w, s, env) && Later(w.tasks, After(w, s, env).tasks)
    ensures var w' := After(w, s, env);
            w'.exam.OfTask? ==>
              && Knows(w'.tasks, w'.exam.id, w'.exam.read) && w'.exam.read.state in ACTIVE && ModeHolds(w'.exam.read)
              && (w'.exam.settled ==> Decide(w'.exam.id, w'.exam.read, w'.exam.look, env).Settle?)
  {
    hide Decide, Later, ModesHold, ModeHolds, Freed, Subject;
    if s.Examine? {
      KnownLater(w.tasks, After(w, s, env).tasks, s.id, w.listed[s.id]);
    } else if w.exam.OfTask? {
      KnownLater(w.tasks, After(w, s, env).tasks, w.exam.id, w.exam.read);
    }
  }

  lemma StepKeepsInv(w: World, s: Step, env: Env)
    requires WorldInv(w, env) && Enabled(w, s, env)
    ensures WorldInv(After(w, s, env), env)
  {
    StepKeepsRows(w, s, env);
    StepKeepsListed(w, s, env);
    StepKeepsExam(w, s, env);
    hide Enabled, After, Decide, Later, ModesHold, ModeHolds, Knows;
  }

  lemma ListedRows(w: World, rows: Tasks)
    requires ModesHold(w.tasks)
    requires forall id :: id in rows ==> id in w.tasks && w.tasks[id] == rows[id]
    ensures forall id :: id in rows ==> Knows(w.tasks, id, rows[id]) && ModeHolds(rows[id])
  {
  }

  lemma {:induction false} RunKeepsInv(start: World, log: seq<Step>, env: Env)
    requires Fresh(start) && IsRun(start, log, env)
    ensures WorldInv(Replay(start, log, env), env)
    decreases |log|
  {
    if log != [] {
      RunKeepsInv(start, log[..|log| - 1], env);
      StepKeepsInv(Replay(start, log[..|log| - 1], env), log[|log| - 1], env);
    }
  }

  // -- what was seen ------------------------------------------------------------------------------

  datatype Sight = Sight(unit: string, kind: Kind)

  /** The latest answer about any unit. */
  function LastShown(log: seq<Step>): Option<Sight> {
    if log == [] then None
    else if log[|log| - 1].Shown? then Some(Sight(log[|log| - 1].unit, log[|log| - 1].kind))
    else LastShown(log[..|log| - 1])
  }

  /** The latest answer of an accept journal. */
  function LastSaid(log: seq<Step>): Option<AcceptAnswer> {
    if log == [] then None
    else if log[|log| - 1].JournalSaid? then Some(log[|log| - 1].answer)
    else LastSaid(log[..|log| - 1])
  }

  /** What an examination holds of a unit is the latest answer, and about its own unit. */
  predicate SeesLatest(x: Exam, log: seq<Step>) {
    && (x.OfTask? && x.look.kind.Some? ==> LastShown(log) == Some(Sight(Subject(x), x.look.kind.value)))
    && (x.OfLease? && x.kind.Some? ==> LastShown(log) == Some(Sight(Subject(x), x.kind.value)))
    && (x.OfTask? && x.look.answer.Some? ==> LastSaid(log) == x.look.answer)
  }

  lemma StepSeesLatest(w: World, s: Step, log: seq<Step>, env: Env)
    requires Enabled(w, s, env) && SeesLatest(w.exam, log)
    ensures SeesLatest(After(w, s, env).exam, log + [s])
  {
    hide Decide, ModesHold, Later, UnitFor, WorkerUnit, Freed;
    assert (log + [s])[..|log|] == log;
  }

  lemma {:induction false} RunSeesLatest(start: World, log: seq<Step>, env: Env)
    requires Fresh(start) && IsRun(start, log, env)
    ensures SeesLatest(Replay(start, log, env).exam, log)
    decreases |log|
  {
    if log != [] {
      var front := log[..|log| - 1];
      RunSeesLatest(start, front, env);
      StepSeesLatest(Replay(start, front, env), log[|log| - 1], front, env);
      assert front + [log[|log| - 1]] == log;
    }
    hide SeesLatest, Enabled, After;
  }

  /** The run up to one of its steps, and the step. */
  lemma AtStep(start: World, log: seq<Step>, env: Env, k: nat)
    requires Fresh(start) && IsRun(start, log, env) && k < |log|
    ensures IsRun(start, log[..k], env) && IsRun(start, log[..k + 1], env)
    ensures var w := Replay(start, log[..k], env);
            && Enabled(w, log[k], env) && Replay(start, log[..k + 1], env) == After(w, log[k], env)
            && WorldInv(w, env) && SeesLatest(w.exam, log[..k])
  {
    RunPrefix(start, log, k, env);
    RunPrefix(start, log, k + 1, env);
    assert log[..k + 1][..k] == log[..k] && log[..k + 1][k] == log[k];
    RunKeepsInv(start, log[..k], env);
    RunSeesLatest(start, log[..k], env);
    hide Enabled, After, WorldInv, SeesLatest;
  }

  // -- safety -------------------------------------------------------------------------------------

  /** The task's unit was asked about and the latest answer was anything but active; or nothing had to
      be asked, its boot being over or its unit never having been. */
  predicate KnownGone(id: Id, read: Task, log: seq<Step>, env: Env) {
    || BootChanged(read, env) || Unborn(read)
    || exists k :: k != Active && LastShown(log) == Some(Sight(UnitFor(id, read), k))
  }

  lemma SettledIsGone(x: Exam, log: seq<Step>, env: Env)
    requires x.OfTask? && x.read.state in ACTIVE && SeesLatest(x, log)
    requires Decide(x.id, x.read, x.look, env).Settle? || Decide(x.id, x.read, x.look, env) == RetireLease
    ensures KnownGone(x.id, x.read, log, env)
  {
    if !BootChanged(x.read, env) && !Unborn(x.read) {
      var k := x.look.kind.value;
      assert k != Active && LastShown(log) == Some(Sight(UnitFor(x.id, x.read), k));
    }
  }

  /** How a sweep may change a row: the one it is examining, at the version it read, moved along one
      legal edge its mode permits out of the active states, and never when the latest answer about its
      unit was active. */
  predicate MovesSafely(w: World, s: Step, w': World, log: seq<Step>, env: Env, id: Id) {
    && s.Moved? && w.exam.OfTask? && id == w.exam.id && id in w.tasks
    && w.tasks[id].version == w.exam.read.version && w.tasks[id].state == w.exam.read.state
    && w.tasks[id].state in ACTIVE && s.to !in ACTIVE && s.to in Legal(w.tasks[id].state)
    && !Forbids(w.tasks[id].mode, w.tasks[id].state, s.to)
    && w'.tasks == Move(w.tasks, id, s.to)
    && KnownGone(id, w.exam.read, log, env)
    && (s.to == Accepted ==> w.tasks[id].state == Accepting && LastSaid(log) == Some(Committed))
    && (s.to == ResultReady ==> w.tasks[id].state == Accepting && LastSaid(log) == Some(Aborted))
    && (s.to == Cancelled <==> w.tasks[id].state == Cancelling)
  }

  /** Only an accept is settled as accepted or handed back, and only a cancellation as cancelled. */
  lemma SettledByItsOwn(x: Exam, to: State, env: Env)
    requires x.OfTask? && x.read.state in ACTIVE && Decide(x.id, x.read, x.look, env) == Settle(to)
    ensures to == Accepted ==> x.read.state == Accepting && x.look.answer == Some(Committed)
    ensures to == ResultReady ==> x.read.state == Accepting && x.look.answer == Some(Aborted)
    ensures to == Cancelled <==> x.read.state == Cancelling
  {
  }

  lemma StepMovesSafely(w: World, s: Step, log: seq<Step>, env: Env, id: Id)
    requires WorldInv(w, env) && SeesLatest(w.exam, log) && Enabled(w, s, env) && !s.OtherWrite?
    requires id in w.tasks
    requires id !in After(w, s, env).tasks || After(w, s, env).tasks[id] != w.tasks[id]
    ensures MovesSafely(w, s, After(w, s, env), log, env, id)
  {
    var x := w.exam;
    assert s.Moved?;
    DecisionsAreLegal(x.id, x.read, x.look, env);
    SettledIsGone(x, log, env);
    SettledByItsOwn(x, s.to, env);
    hide Decide, KnownGone, LastShown;
  }

  /** The lease freed belongs to a task at rest, and the process it was for is dead, or unseen and its
      heartbeat stale, by the latest answer about its own unit; or it is of another boot. */
  predicate LeaseOver(x: Exam, log: seq<Step>, env: Env)
    requires x.OfLease?
  {
    && x.row.state !in ACTIVE && x.row.state != RecoveryAmbiguous
    && (x.lease.boot == Some(env.boot) ==>
          exists k :: k !in {Active, Unknown} && LastShown(log) == Some(Sight(Subject(x), k))
                      && (k == NotFound ==> OlderThan(x.lease.heartbeatAt, env.now, env.staleAfter)))
  }

  /** How a sweep may change the leases: it takes one away, from a task that it moved or found retired,
      whose unit then was not active by the latest answer about it; or from a finished task whose
      process is over. */
  predicate GoesSafely(w: World, w': World, log: seq<Step>, env: Env, id: Id) {
    && w'.leases == w.leases - {id} && w.exam != NoExam && id == w.exam.id
    && (w.exam.OfTask? ==> w.exam.read.state in ACTIVE && KnownGone(id, w.exam.read, log, env))
    && (w.exam.OfLease? ==> id in w.leases && w.leases[id] == w.exam.lease && LeaseOver(w.exam, log, env))
  }

  lemma FreedIsOver(x: Exam, log: seq<Step>, env: Env)
    requires x.OfLease? && x.kind.Some? && SeesLatest(x, log) && Freed(x.row, x.lease, x.kind.value, env)
    ensures LeaseOver(x, log, env)
  {
    assert LastShown(log) == Some(Sight(Subject(x), x.kind.value));
    hide LastShown, Subject;
  }

  lemma StepLeasesGoSafely(w: World, s: Step, log: seq<Step>, env: Env, id: Id)
    requires WorldInv(w, env) && SeesLatest(w.exam, log) && Enabled(w, s, env) && !s.OtherWrite?
    requires var w' := After(w, s, env);
             (id in w.leases || id in w'.leases)
             && (id !in w.leases || id !in w'.leases || w'.leases[id] != w.leases[id])
    ensures GoesSafely(w, After(w, s, env), log, env, id)
  {
    var x := w.exam;
    assert s.Dropped? || s.Retired? || s.Released?;
    if s.Released? {
      FreedIsOver(x, log, env);
    } else {
      SettledIsGone(x, log, env);
    }
    hide Decide, KnownGone, SeesLatest, LeaseOver, Freed;
  }

  /** A unit is stopped only when the latest answer was that this very unit is active, for a task being
      cancelled; and forgotten only when it was that it has ended. */
  predicate TreatsSafely(x: Exam, s: Step, log: seq<Step>) {
    && (s.Stopped? ==>
          x.OfTask? && x.read.state == Cancelling && LastShown(log) == Some(Sight(s.unit, Active)))
    && (s.Forgot? ==>
          LastShown(log).Some? && LastShown(log).value.unit == s.unit && Ended(LastShown(log).value.kind))
  }

  lemma StepTreatsSafely(w: World, s: Step, log: seq<Step>, env: Env)
    requires SeesLatest(w.exam, log) && Enabled(w, s, env)
    ensures TreatsSafely(w.exam, s, log)
  {
    hide LastShown, Subject;
  }

  ghost predicate SafeStep(w: World, s: Step, w': World, log: seq<Step>, env: Env) {
    && w'.tasks.Keys <= w.tasks.Keys
    && (forall id :: id in w.tasks && (id !in w'.tasks || w'.tasks[id] != w.tasks[id]) ==>
          MovesSafely(w, s, w', log, env, id))
    && (forall id :: id in w.leases.Keys + w'.leases.Keys
                     && (id !in w.leases || id !in w'.leases || w'.leases[id] != w.leases[id]) ==>
          GoesSafely(w, w', log, env, id))
    && TreatsSafely(w.exam, s, log)
  }

  lemma StepIsSafe(w: World, s: Step, log: seq<Step>, env: Env)
    requires WorldInv(w, env) && SeesLatest(w.exam, log) && Enabled(w, s, env) && !s.OtherWrite?
    ensures SafeStep(w, s, After(w, s, env), log, env)
  {
    var w' := After(w, s, env);
    assert w'.tasks.Keys == w.tasks.Keys;
    StepTreatsSafely(w, s, log, env);
    hide Enabled, After, WorldInv, SeesLatest, MovesSafely, GoesSafely, TreatsSafely;
    forall id | id in w.tasks && (id !in w'.tasks || w'.tasks[id] != w.tasks[id])
      ensures MovesSafely(w, s, w', log, env, id)
    {
      StepMovesSafely(w, s, log, env, id);
    }
    forall id | id in w.leases.Keys + w'.leases.Keys
                && (id !in w.leases || id !in w'.leases || w'.leases[id] != w.leases[id])
      ensures GoesSafely(w, w', log, env, id)
    {
      StepLeasesGoSafely(w, s, log, env, id);
    }
  }

  /** In every run, whatever other processes write between: each step of the sweep's own changes rows,
      leases and units only like that. */
  lemma SweepIsSafe(start: World, log: seq<Step>, env: Env, k: nat)
    requires Fresh(start) && IsRun(start, log, env) && k < |log| && !log[k].OtherWrite?
    ensures IsRun(start, log[..k], env) && IsRun(start, log[..k + 1], env)
    ensures SafeStep(Replay(start, log[..k], env), log[k], Replay(start, log[..k + 1], env), log[..k], env)
  {
    hide Enabled, After, WorldInv, SeesLatest, SafeStep, Fresh;
    AtStep(start, log, env, k);
    StepIsSafe(Replay(start, log[..k], env), log[k], log[..k], env);
  }

  // -- measure ------------------------------------------------------------------------------------

  function MoveCount(log: seq<Step>): nat {
    if log == [] then 0
    else MoveCount(log[..|log| - 1]) + if log[|log| - 1].Moved? then 1 else 0
  }

  predicate Alone(log: seq<Step>) {
    forall k :: 0 <= k < |log| ==> !log[k].OtherWrite?
  }

  lemma MoveCounts(w: World, s: Step, env: Env)
    requires WorldInv(w, env) && Enabled(w, s, env) && !s.OtherWrite?
    ensures |ActiveOf(After(w, s, env).tasks)| == |ActiveOf(w.tasks)| - if s.Moved? then 1 else 0
  {
    if s.Moved? {
      var x := w.exam;
      DecisionsAreLegal(x.id, x.read, x.look, env);
      hide Decide;
      MoveLeavesOneFewer(w.tasks, x.id, MovedRow(w.tasks[x.id], s.to));
    }
  }

  /** Left alone, a sweep's moves are counted exactly by the active tasks that are gone, so it moves no
      task twice and can move no more tasks than were active. */
  lemma {:induction false} MovesAreCounted(start: World, log: seq<Step>, env: Env)
    requires Fresh(start) && IsRun(start, log, env) && Alone(log)
    ensures |ActiveOf(Replay(start, log, env).tasks)| + MoveCount(log) == |ActiveOf(start.tasks)|
    decreases |log|
  {
    if log != [] {
      var front := log[..|log| - 1];
      MovesAreCounted(start, front, env);
      RunKeepsInv(start, front, env);
      assert !log[|log| - 1].OtherWrite?;
      MoveCounts(Replay(start, front, env), log[|log| - 1], env);
    }
  }
}
