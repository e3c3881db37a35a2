/** Reconciliation: settling tasks that claim to be active against what can still be seen of their
    units, without racing the workers that own them. */
module Recovery {
  import opened Wrappers
  import opened Units

  datatype State =
    | Preparing | Queued | Running | Completed | ResultReady | Accepting | Accepted | Rejected
    | Repairing | Resuming | Interrupted | RecoveryAmbiguous | Cancelling | Cancelled | Failed

  datatype Mode = Consult | Review | Implement

  type Id(==, !new) = string

  const ACTIVE: set<State> := {Preparing, Queued, Running, Repairing, Resuming, Accepting, Cancelling}

  const IMPLEMENT_ONLY: set<State> := {ResultReady, Accepting, Accepted, Rejected, Repairing}

  const NEVER_STARTED_AFTER := 600
  const CANCEL_ESCALATE_AFTER := 30
  const SCAN_LIMIT := 1000

  /** `LEGAL_TRANSITIONS`. */
  function Legal(s: State): set<State> {
    match s
    case Preparing => {Queued, Failed, Cancelling}
    case Queued => {Running, Failed, Cancelling, Interrupted, RecoveryAmbiguous}
    case Running => {Completed, ResultReady, Failed, Cancelling, Interrupted, RecoveryAmbiguous}
    case Completed => {Resuming}
    case ResultReady => {Accepting, Rejected, Repairing}
    case Accepting => {Accepted, ResultReady, Interrupted, RecoveryAmbiguous}
    case Repairing => {Running, Failed, Cancelling, Interrupted, RecoveryAmbiguous}
    case Interrupted => {Resuming, Cancelling}
    case Resuming => {Running, Failed, Cancelling, Interrupted, RecoveryAmbiguous}
    case RecoveryAmbiguous => {Resuming, Cancelling}
    case Cancelling => {Cancelled, Failed}
    case Accepted => {}
    case Rejected => {}
    case Cancelled => {}
    case Failed => {}
  }

  predicate Forbids(mode: Mode, from: State, to: State) {
    (mode != Implement && to in IMPLEMENT_ONLY)
    || (from == Completed && to == Resuming && mode != Consult)
  }

  /** The states from which each state is entered. */
  function WaysInto(to: State): set<State> {
    match to
    case Preparing => {}
    case Queued => {Preparing}
    case Running => {Queued, Repairing, Resuming}
    case Completed => {Running}
    case ResultReady => {Running, Accepting}
    case Accepting => {ResultReady}
    case Accepted => {Accepting}
    case Rejected => {ResultReady}
    case Repairing => {ResultReady}
    case Resuming => {Completed, Interrupted, RecoveryAmbiguous}
    case Interrupted => {Queued, Running, Accepting, Repairing, Resuming}
    case RecoveryAmbiguous => {Queued, Running, Accepting, Repairing, Resuming}
    case Cancelling => {Preparing, Queued, Running, Repairing, Interrupted, Resuming, RecoveryAmbiguous}
    case Cancelled => {Cancelling}
    case Failed => {Preparing, Queued, Running, Repairing, Resuming, Cancelling}
  }

  lemma LegalBothWays(from: State, to: State)
    ensures to in Legal(from) <==> from in WaysInto(to)
  {
  }

  /** What is finished stays finished: no mode leaves a terminal state, but for a consultation that is
      asked one more question; and an advisory task is never offered or accepted. */
  lemma FinishedStaysFinished(mode: Mode, from: State, to: State)
    requires to in Legal(from) && !Forbids(mode, from, to)
    ensures from in {Accepted, Rejected, Cancelled, Failed} ==> false
    ensures from == Completed <==> mode == Consult && from == Completed && to == Resuming
    ensures mode != Implement ==> to !in {ResultReady, Accepting, Accepted, Rejected, Repairing}
  {
  }

  /** And every move the table names is made by some mode. */
  lemma EveryMoveIsSomeones(from: State, to: State)
    requires to in Legal(from)
    ensures !Forbids(Implement, from, to) || !Forbids(Consult, from, to)
    ensures Forbids(Implement, from, to) ==> from == Completed
  {
  }

  datatype Task = Task(
    state: State, version: nat, mode: Mode, unit: Option<string>, boot: Option<string>,
    createdAt: Option<int>, heartbeatAt: Option<int>)

  datatype Lease = Lease(unit: Option<string>, pid: Option<int>, boot: Option<string>, heartbeatAt: Option<int>)

  /** The arguments of one sweep. */
  datatype Env = Env(boot: string, now: int, staleAfter: int, recovers: bool, workersOnly: bool)

  function WorkerUnit(id: Id): string {
    "taskspindle-worker-" + id
  }

  function AcceptUnit(id: Id): string {
    "taskspindle-accept-" + id
  }

  function UnitFor(id: Id, t: Task): string {
    t.unit.GetOr(if t.state == Accepting then AcceptUnit(id) else WorkerUnit(id))
  }

  /** A unit without a saved name is the task's own: of an accept exactly while it is accepting, of its
      worker otherwise, and of no other task. */
  lemma UnitsAreTheTasks(id: Id, t: Task, other: Id, t': Task)
    requires t.unit == None && t'.unit == None
    ensures "taskspindle-accept-" <= UnitFor(id, t) <==> t.state == Accepting
    ensures "taskspindle-worker-" <= UnitFor(id, t) <==> t.state != Accepting
    ensures UnitFor(id, t) == UnitFor(other, t') ==> id == other
  {
    var a, b := "taskspindle-accept-", "taskspindle-worker-";
    assert a[12] == 'a' && b[12] == 'w' && |a| == |b|;
    assert (a + id)[12] == 'a' && (b + id)[12] == 'w' && (a + other)[12] == 'a' && (b + other)[12] == 'w';
    assert (a + id)[|a|..] == id && (a + other)[|a|..] == other;
    assert (b + id)[|b|..] == id && (b + other)[|b|..] == other;
  }

  /** `_older_than`: a missing stamp counts as old. */
  predicate OlderThan(stamp: Option<int>, now: int, seconds: int) {
    stamp.None? || stamp.value < now - seconds
  }

  // -- what one examination decides --------------------------------------------------------------

  datatype AcceptAnswer = Committed | Aborted | Manual

  /** What one examination of a task has learned so far besides its row: the lease, whether a turn is
      open, the unit's state, when cancellation was asked for, whether a Muse command's outcome is
      unknown, and what the accept journal answered. */
  datatype Look = Look(
    lease: Option<Option<Lease>>, turnOpen: Option<bool>, kind: Option<Kind>,
    cancelledAt: Option<Option<int>>, unresolved: Option<bool>, answer: Option<AcceptAnswer>)

  const NOTHING := Look(None, None, None, None, None, None)

  /** `Ask` is an examination that has not learned enough to decide. */
  datatype Verdict = Ask | Wait | StopUnit | RetireLease | Settle(to: State) | NoLegalTarget

  predicate Reserved(t: Task, lease: Option<Lease>, env: Env) {
    && lease.Some? && lease.value.pid.None? && lease.value.boot == Some(env.boot)
    && t.state in {Queued, Repairing, Resuming}
    && !OlderThan(lease.value.heartbeatAt, env.now, env.staleAfter)
  }

  predicate BootChanged(t: Task, env: Env) {
    t.boot.Some? && t.boot.value != env.boot
  }

  /** `_permitted`. */
  function Permitted(from: State, to: State): Option<State> {
    if to in Legal(from) then Some(to)
    else if Interrupted in Legal(from) then Some(Interrupted)
    else None
  }

  /** `_from_unit`, once the unit is known not to be active. */
  function FromUnit(kind: Kind, t: Task, env: Env): State {
    if kind == Exited then Failed
    else if Ended(kind) then Interrupted
    else if OlderThan(t.heartbeatAt, env.now, env.staleAfter) then Interrupted
    else RecoveryAmbiguous
  }

  function FromAnswer(answer: AcceptAnswer): State {
    match answer
    case Committed => Accepted
    case Manual => RecoveryAmbiguous
    case Aborted => ResultReady
  }

  /** Where a task that must move goes. */
  function Target(t: Task, wanted: State, look: Look, env: Env): Verdict {
    if t.state == Accepting && env.recovers && wanted != RecoveryAmbiguous then
      if look.answer == None then Ask else Settle(FromAnswer(look.answer.value))
    else if t.state == Cancelling then Settle(Cancelled)
    else if t.state != Accepting && look.unresolved == None then Ask
    else
      var wanted := if t.state != Accepting && look.unresolved.value then RecoveryAmbiguous else wanted;
      match Permitted(t.state, wanted)
      case Some(to) => Settle(to)
      case None => if t.state == Preparing then Settle(Failed) else NoLegalTarget
  }

  /** A signed lease on the worker unit of a task whose continuation cleared its unit name. */
  predicate SignedLease(id: Id, lease: Option<Lease>, env: Env) {
    env.workersOnly && lease.Some? && lease.value.pid.Some? && lease.value.unit == Some(WorkerUnit(id))
  }

  predicate Unborn(t: Task) {
    t.unit.None? && t.state in {Preparing, Queued}
  }

  /** A continuation without a unit name; whether it awaits dispatch depends on its turns. */
  predicate Continued(t: Task) {
    t.unit.None? && t.state in {Repairing, Resuming}
  }

  /** The examination comes to read the state of the task's own unit. */
  predicate Looks(t: Task, look: Look, env: Env) {
    && look.lease.Some? && !Reserved(t, look.lease.value, env) && !BootChanged(t, env) && !Unborn(t)
    && (Continued(t) ==> look.turnOpen == Some(false))
  }

  /** What is decided once the unit's state is known. */
  function DecideByUnit(t: Task, kind: Kind, look: Look, env: Env): Verdict {
    if kind != Active then Target(t, FromUnit(kind, t, env), look, env)
    else if t.state != Cancelling then Wait
    else if look.cancelledAt == None then Ask
    else if OlderThan(look.cancelledAt.value, env.now, CANCEL_ESCALATE_AFTER) then StopUnit
    else Wait
  }

  /** `_reconcile_task` as one decision over what has been learned. */
  function Decide(id: Id, t: Task, look: Look, env: Env): Verdict {
    if look.lease == None then Ask
    else if Reserved(t, look.lease.value, env) then Wait
    else if BootChanged(t, env) then Target(t, Interrupted, look, env)
    else if Unborn(t) then
      if t.state == Queued && look.lease.value.None? then Wait
      else if OlderThan(t.createdAt, env.now, NEVER_STARTED_AFTER) then Settle(Failed) else Wait
    else if Continued(t) && look.turnOpen == None then Ask
    else if Continued(t) && look.turnOpen.value then
      if !SignedLease(id, look.lease.value, env) then Wait
      else if look.kind == None then Ask
      else if Ended(look.kind.value) || look.kind.value == NotFound then RetireLease
      else Wait
    else if look.kind == None then Ask
    else DecideByUnit(t, look.kind.value, look, env)
  }

  // -- what every decision keeps ------------------------------------------------------------------

  /** A sweep only ever makes legal moves, none of them into an active state, and the state machine
      never refuses one on account of the mode. */
  lemma DecisionsAreLegal(id: Id, t: Task, look: Look, env: Env)
    requires t.state in ACTIVE && (t.mode != Implement ==> t.state !in IMPLEMENT_ONLY)
    ensures var v := Decide(id, t, look, env);
            v.Settle? ==> v.to !in ACTIVE && v.to in Legal(t.state) && !Forbids(t.mode, t.state, v.to)
  {
  }

  /** The branch for a task with nowhere legal to go is never taken. */
  lemma SomeTargetIsLegal(id: Id, t: Task, look: Look, env: Env)
    requires t.state in ACTIVE
    ensures Decide(id, t, look, env) != NoLegalTarget
  {
  }

  /** A task of this boot moves exactly when its unit was looked at and is not active, or when it has
      waited too long for one; after a reboot it always moves; and it never moves while a fresh,
      unsigned lease of this boot says that it is being dispatched. */
  lemma MovesExactlyWhenGone(id: Id, t: Task, look: Look, env: Env)
    requires t.state in ACTIVE && Decide(id, t, look, env) != Ask
    ensures look.lease.Some?
    ensures var lease := look.lease.value;
            var dispatching :=
              lease.Some? && lease.value.pid == None && lease.value.boot == Some(env.boot)
              && t.state in {Queued, Repairing, Resuming}
              && lease.value.heartbeatAt.Some? && lease.value.heartbeatAt.value >= env.now - env.staleAfter;
            var rebooted := t.boot.Some? && t.boot.value != env.boot;
            var unborn := t.unit == None && t.state in {Preparing, Queued};
            Decide(id, t, look, env).Settle? <==>
              && !dispatching
              && (|| rebooted
                  || (unborn && !(t.state == Queued && lease == None)
                      && (t.createdAt == None || t.createdAt.value < env.now - 600))
                  || (!rebooted && !unborn && look.kind.Some? && look.kind != Some(Active)
                      && !(t.unit == None && t.state in {Repairing, Resuming} && look.turnOpen != Some(false))))
  {
    SomeTargetIsLegal(id, t, look, env);
  }

  /** An accept is settled by its journal and nothing else: accepted only when the journal answered that
      the commit landed, handed back only when it answered that nothing did; and while recovery may ask
      the journal and the unit is not in doubt, every answer is followed. */
  lemma AcceptFollowsTheJournal(id: Id, t: Task, look: Look, env: Env)
    requires t.state == Accepting
    ensures var v := Decide(id, t, look, env);
            && (v == Settle(Accepted) ==> look.answer == Some(Committed))
            && (v == Settle(ResultReady) ==> look.answer == Some(Aborted))
            && (env.recovers && look.lease.Some? && look.answer.Some?
                && (BootChanged(t, env)
                    || (look.kind.Some? && look.kind != Some(Active)
                        && (Ended(look.kind.value) || OlderThan(t.heartbeatAt, env.now, env.staleAfter)))) ==>
                  && (look.answer == Some(Committed) ==> v == Settle(Accepted))
                  && (look.answer == Some(Aborted) ==> v == Settle(ResultReady))
                  && (look.answer == Some(Manual) ==> v == Settle(RecoveryAmbiguous)))
  {
  }

  /** A worker's task ends as its unit did: a failing exit fails it, every other end interrupts it, as
      does a unit gone with its heartbeat, or its boot; but an unanswered Muse command makes every one of
      these ambiguous. */
  lemma EndsAsItsUnitDid(id: Id, t: Task, look: Look, env: Env)
    requires t.state in {Queued, Running, Repairing, Resuming} && look.unresolved.Some?
    requires Looks(t, look, env) && look.kind.Some?
    ensures var v := Decide(id, t, look, env);
            && (look.kind == Some(Active) ==> v == Wait)
            && (look.kind != Some(Active) && look.unresolved == Some(true) ==> v == Settle(RecoveryAmbiguous))
            && (look.unresolved == Some(false) ==>
                  && (look.kind == Some(Exited) ==> v == Settle(Failed))
                  && (look.kind in {Some(Succeeded), Some(OutOfMemory), Some(Signalled)} ==> v == Settle(Interrupted))
                  && (look.kind in {Some(NotFound), Some(Unknown)} ==>
                        v == Settle(if OlderThan(t.heartbeatAt, env.now, env.staleAfter) then Interrupted
                                    else RecoveryAmbiguous)))
  {
  }

  /** After a reboot the same holds without a look at any unit. */
  lemma EndsWithItsBoot(id: Id, t: Task, look: Look, env: Env)
    requires t.state in {Queued, Running, Repairing, Resuming} && look.unresolved.Some? && look.lease.Some?
    requires BootChanged(t, env) && !Reserved(t, look.lease.value, env)
    ensures Decide(id, t, look, env) == Settle(if look.unresolved.value then RecoveryAmbiguous else Interrupted)
  {
  }

  /** A cancelled task whose unit still runs is stopped once, and exactly once, its request is old. */
  lemma StoppedExactlyWhenOverdue(id: Id, t: Task, look: Look, env: Env)
    requires t.state == Cancelling && look.cancelledAt.Some? && Looks(t, look, env) && look.kind == Some(Active)
    ensures Decide(id, t, look, env) == StopUnit <==>
            look.cancelledAt.value == None || look.cancelledAt.value.value < env.now - CANCEL_ESCALATE_AFTER
    ensures Decide(id, t, look, env) in {StopUnit, Wait}
  {
  }

  /** A lease is retired without its task exactly when workers alone are swept, a continuation of this boot
      without a unit waits with its turn open, the lease was signed by the task's own worker, and that
      worker is seen to be over or gone. */
  lemma RetiredExactlyWhen(id: Id, t: Task, look: Look, env: Env)
    requires t.state in ACTIVE
    ensures Decide(id, t, look, env) == RetireLease <==>
            && env.workersOnly && t.unit == None && t.state in {Repairing, Resuming} && look.turnOpen == Some(true)
            && !(t.boot.Some? && t.boot.value != env.boot)
            && look.lease.Some? && look.lease.value.Some? && look.lease.value.value.pid.Some?
            && look.lease.value.value.unit == Some("taskspindle-worker-" + id)
            && look.kind in {Some(Succeeded), Some(OutOfMemory), Some(Signalled), Some(Exited), Some(NotFound)}
  {
    SomeTargetIsLegal(id, t, look, env);
  }

  /** Work is not thrown away: a task fails only when it never had a unit, or was still being
      prepared, or its unit reported a failing exit. */
  lemma FailedOnlyWithCause(id: Id, t: Task, look: Look, env: Env)
    requires t.state in ACTIVE && Decide(id, t, look, env) == Settle(Failed)
    ensures || t.state == Preparing || Unborn(t)
            || (Looks(t, look, env) && look.kind == Some(Exited) && look.unresolved == Some(false))
  {
  }

  /** A unit that cannot be found while its heartbeat is fresh is left to a person, except that a
      cancellation takes it for gone and preparation has nothing to keep. */
  lemma DoubtGoesToAPerson(id: Id, t: Task, look: Look, env: Env)
    requires t.state in ACTIVE && Looks(t, look, env) && Decide(id, t, look, env) != Ask
    requires look.kind.value in {NotFound, Unknown} && !OlderThan(t.heartbeatAt, env.now, env.staleAfter)
    ensures Decide(id, t, look, env) ==
            Settle(if t.state == Cancelling then Cancelled else if t.state == Preparing then Failed else RecoveryAmbiguous)
  {
  }

  /** Cancelled is claimed of a task exactly when its unit is not active or its boot is over, even
      when the unit's state is one recovery has no rule for. */
  lemma CancelledExactlyWhenNotActive(id: Id, t: Task, look: Look, env: Env)
    requires t.state == Cancelling && Decide(id, t, look, env) != Ask
    ensures Decide(id, t, look, env) == Settle(Cancelled) <==> BootChanged(t, env) || look.kind != Some(Active)
    ensures Decide(id, t, look, env).Settle? ==> Decide(id, t, look, env) == Settle(Cancelled)
  {
  }

  // -- leases of finished tasks ------------------------------------------------------------------

  /** `_release_finished_leases`, for one lease. */
  predicate Freed(t: Task, lease: Lease, kind: Kind, env: Env) {
    && t.state !in ACTIVE && t.state != RecoveryAmbiguous
    && (lease.boot == Some(env.boot) ==>
          Ended(kind) || (kind == NotFound && OlderThan(lease.heartbeatAt, env.now, env.staleAfter)))
  }

  /** A lease is freed only from a task at rest that no person has to settle; one of another boot always;
      one of this boot exactly when its process reported an end, or is gone with a heartbeat missing or
      stale. */
  lemma FreedExactlyWhen(t: Task, lease: Lease, kind: Kind, env: Env)
    ensures Freed(t, lease, kind, env) ==>
              t.state in {Completed, ResultReady, Accepted, Rejected, Interrupted, Cancelled, Failed}
    ensures t.state in {Completed, ResultReady, Accepted, Rejected, Interrupted, Cancelled, Failed} ==>
              && (lease.boot == None || lease.boot.value != env.boot ==> Freed(t, lease, kind, env))
              && (lease.boot == Some(env.boot) ==>
                    && (kind in {Succeeded, OutOfMemory, Signalled, Exited} ==> Freed(t, lease, kind, env))
                    && (kind in {Active, Unknown} ==> !Freed(t, lease, kind, env))
                    && (kind == NotFound ==>
                          (Freed(t, lease, kind, env) <==>
                             lease.heartbeatAt == None || lease.heartbeatAt.value < env.now - env.staleAfter)))
  {
  }

  // -- measure -----------------------------------------------------------------------------------

  function ActiveOf(tasks: map<Id, Task>): set<Id> {
    set id | id in tasks && tasks[id].state in ACTIVE
  }

  /** Moving one active task to an inactive state leaves exactly one fewer active. */
  lemma MoveLeavesOneFewer(tasks: map<Id, Task>, id: Id, to: Task)
    requires id in tasks && tasks[id].state in ACTIVE && to.state !in ACTIVE
    ensures |ActiveOf(tasks[id := to])| == |ActiveOf(tasks)| - 1
  {
    assert ActiveOf(tasks[id := to]) == ActiveOf(tasks) - {id};
  }
}
