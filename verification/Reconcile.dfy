/** The sweep itself: reading rows, looking at units and moving tasks while other processes write to
    the same store. `Valid()` says that the store is what the log of its steps makes of the store it
    began with, so what is proved of every run holds of this one. */
module Reconcile {
  import opened Wrappers
  import opened Units
  import opened Recovery
  import opened SweepRuns
  import opened SweepResult

  class Sweep {
    const env: Env
    var tasks: Tasks
    var leases: Leases

    ghost const start: World
    ghost var listed: Tasks
    ghost var listedLeases: Leases
    ghost var exam: Exam
    ghost var log: seq<Step>
    /** Another process has written during the sweep. */
    ghost var disturbed: bool

    ghost function Now(): World
      reads this
    {
      World(tasks, leases, listed, listedLeases, exam)
    }

    function Stored(): Store
      reads this
    {
      Store(tasks, leases)
    }

    ghost predicate Valid()
      reads this
    {
      && Fresh(start) && IsRun(start, log, env) && Replay(start, log, env) == Now()
      && (disturbed <==> !Alone(log))
    }

    constructor (env: Env, tasks: Tasks, leases: Leases)
      requires ModesHold(tasks)
      ensures Valid() && this.env == env && this.tasks == tasks && this.leases == leases
      ensures log == [] && !disturbed && start == Now()
    {
      this.env, this.tasks, this.leases := env, tasks, leases;
      start := World(tasks, leases, map[], map[], NoExam);
      listed, listedLeases, exam, log, disturbed := map[], map[], NoExam, [], false;
    }

    lemma Invariant()
      requires Valid()
      ensures WorldInv(Now(), env)
    {
      RunKeepsInv(start, log, env);
      hide WorldInv;
    }

    lemma Extended(s: Step)
      requires Valid() && Enabled(Now(), s, env)
      ensures IsRun(start, log + [s], env) && Replay(start, log + [s], env) == After(Now(), s, env)
      ensures Alone(log + [s]) <==> Alone(log) && !s.OtherWrite?
    {
      assert (log + [s])[..|log|] == log;
      assert forall k :: 0 <= k < |log| ==> (log + [s])[k] == log[k];
      assert (log + [s])[|log|] == s;
      hide Enabled, After, Fresh;
    }

    /** The latest step since was a call about a unit that failed. */
    ghost predicate Unanswered(since: seq<Step>)
      reads this
    {
      since < log && log[|log| - 1].NoAnswer?
    }

    // -- effects ------------------------------------------------------------------------------------

    /** Other processes may write to the store at any moment. */
    method Elsewhere()
      requires Valid()
      modifies this`tasks, this`leases, this`disturbed, this`log
      ensures Valid() && old(log) <= log
      ensures old(disturbed) ==> disturbed
      ensures !disturbed ==> Stored() == old(Stored()) && log == old(log)
      ensures forall id, read :: old(Knows(tasks, id, read)) ==> Knows(tasks, id, read)
    {
      var written: Tasks := *;
      var bound: Leases := *;
      var happens: bool := *;
      if happens && Later(tasks, written) && ModesHold(written) {
        Extended(OtherWrite(written, bound));
        tasks, leases, disturbed, log := written, bound, true, log + [OtherWrite(written, bound)];
      }
    }

    /** A step by which the sweep learns or asks for something, and writes nothing. */
    ghost method Note(s: Step)
      requires Valid() && Enabled(Now(), s, env)
      requires !s.OtherWrite? && !s.Moved? && !s.Dropped? && !s.Retired? && !s.Released?
      modifies this`listed, this`listedLeases, this`exam, this`log
      ensures Valid() && log == old(log) + [s] && Now() == After(old(Now()), s, env)
    {
      Extended(s);
      var w := After(Now(), s, env);
      listed, listedLeases, exam, log := w.listed, w.listedLeases, w.exam, log + [s];
      hide IsRun, Replay, Alone, Fresh;
    }

    /** The state of the unit under examination, or no answer. */
    method Show(unit: string) returns (r: Option<Kind>)
      requires Valid() && exam != NoExam && (exam.OfTask? ==> !exam.settled) && unit == Subject(exam)
      modifies this`listed, this`listedLeases, this`exam, this`log
      ensures Valid() && listed == old(listed) && listedLeases == old(listedLeases)
      ensures log == old(log) + [if r.Some? then Shown(unit, r.value) else NoAnswer(unit)]
      ensures r.None? ==> exam == old(exam)
      ensures r.Some? && old(exam).OfLease? ==> exam == old(exam).(kind := r)
      ensures r.Some? && old(exam).OfTask? ==> exam == old(exam).(look := old(exam).look.(kind := r))
    {
      r := *;
      if r.Some? {
        assert r == Some(r.value);
        Note(Shown(unit, r.value));
      } else {
        Note(NoAnswer(unit));
      }
    }

    method Stop(unit: string) returns (ok: bool)
      requires Valid() && Enabled(Now(), Stopped(unit), env)
      modifies this`listed, this`listedLeases, this`exam, this`log
      ensures Valid() && Now() == old(Now())
      ensures log == old(log) + [if ok then Stopped(unit) else NoAnswer(unit)]
    {
      ok := *;
      if ok {
        Note(Stopped(unit));
      } else {
        Note(NoAnswer(unit));
      }
    }

    method ResetFailed(unit: string) returns (ok: bool)
      requires Valid() && Enabled(Now(), Forgot(unit), env)
      modifies this`listed, this`listedLeases, this`exam, this`log
      ensures Valid() && Now() == old(Now())
      ensures log == old(log) + [if ok then Forgot(unit) else NoAnswer(unit)]
    {
      ok := *;
      if ok {
        Note(Forgot(unit));
      } else {
        Note(NoAnswer(unit));
      }
    }

    /** `service.transition`, to where the examination says. */
    method Transition(id: Id, expected: nat, to: State) returns (r: Result<(), Refusal>)
      requires Valid() && exam.OfTask? && exam.id == id && !exam.settled && exam.read.version == expected
      requires Decide(id, exam.read, exam.look, env) == Settle(to)
      modifies this`tasks, this`exam, this`log
      ensures Valid()
      ensures r.Success? <==>
                && id in old(tasks) && old(tasks)[id].version == expected
                && to in Legal(old(tasks)[id].state)
                && !Forbids(old(tasks)[id].mode, old(tasks)[id].state, to)
      ensures r.Success? ==>
                tasks == Move(old(tasks), id, to) && exam == old(exam).(settled := true) && log == old(log) + [Moved(to)]
      ensures r.Failure? ==> tasks == old(tasks) && exam == old(exam) && log == old(log)
      ensures r == Failure(Stale) <==> id in old(tasks) && old(tasks)[id].version != expected
      ensures r == Failure(Missing) <==> id !in old(tasks)
      ensures r == Failure(Illegal) <==>
                id in old(tasks) && old(tasks)[id].version == expected && to !in Legal(old(tasks)[id].state)
      ensures r == Failure(ModeForbidden) <==>
                && id in old(tasks) && old(tasks)[id].version == expected && to in Legal(old(tasks)[id].state)
                && Forbids(old(tasks)[id].mode, old(tasks)[id].state, to)
    {
      hide IsRun, Replay, Alone, Fresh, Decide, Legal, Forbids, Later, ModesHold, Freed;
      if id !in tasks {
        return Failure(Missing);
      }
      var record := tasks[id];
      if record.version != expected {
        return Failure(Stale);
      }
      if to !in Legal(record.state) {
        return Failure(Illegal);
      }
      if Forbids(record.mode, record.state, to) {
        return Failure(ModeForbidden);
      }
      Extended(Moved(to));
      tasks := tasks[id := record.(state := to, version := record.version + 1)];
      exam, log := exam.(settled := true), log + [Moved(to)];
      r := Success(());
    }

    /** The end of `_apply`: whatever lease the moved task still holds goes. */
    method DropLease(id: Id)
      requires Valid() && exam.OfTask? && exam.settled && exam.id == id
      modifies this`tasks, this`leases, this`disturbed, this`log
      ensures Valid() && old(log) <= log
      ensures old(disturbed) ==> disturbed
      ensures !disturbed ==> Stored() == Store(old(tasks), old(leases) - {id})
    {
      hide IsRun, Replay, Alone, Fresh, Decide;
      Elsewhere();
      if id in leases {
        Extended(Dropped);
        leases, log := leases - {id}, log + [Dropped];
      }
    }

    /** `_apply`: pinned to the version that was read, so it fails only when that has moved. */
    method Apply(id: Id, read: Task, to: State) returns (r: Result<(), Refusal>)
      requires Valid() && exam.OfTask? && exam.id == id && exam.read == read && !exam.settled
      requires Decide(id, read, exam.look, env) == Settle(to)
      modifies this`tasks, this`leases, this`exam, this`disturbed, this`log
      ensures Valid() && old(log) <= log
      ensures old(disturbed) ==> disturbed
      ensures r.Success? || r == Failure(Stale)
      ensures r == Failure(Stale) ==> !SameVersion(Now(), id, read)
      ensures exam == old(exam).(settled := r.Success?)
      ensures !disturbed && old(SameVersion(Now(), id, read)) ==>
                r.Success? && Stored() == Store(Move(old(tasks), id, to), old(leases) - {id})
    {
      Invariant();
      DecisionsAreLegal(id, read, exam.look, env);
      hide IsRun, Replay, Alone, Fresh, Decide, Legal, Forbids, WorldInv;
      Elsewhere();
      r := Transition(id, read.version, to);
      if r.Success? {
        DropLease(id);
      }
    }

    /** `_escalate_cancel`: the unit is stopped and the task left for a later sweep. */
    method EscalateCancel(id: Id, read: Task) returns (r: Result<Verdict, Refusal>)
      requires Valid() && exam.OfTask? && exam.id == id && exam.read == read && !exam.settled
      requires Looks(read, exam.look, env) && exam.look.kind == Some(Active) && read.state == Cancelling
      modifies this`listed, this`listedLeases, this`exam, this`log
      ensures Valid() && old(log) <= log && Stored() == old(Stored()) && listed == old(listed)
      ensures exam.OfTask? && exam.id == id && exam.read == read
      ensures r.Success? ==> r.value in {Wait, StopUnit} && r.value == Decide(id, read, exam.look, env)
      ensures r == Success(StopUnit) ==> log[|log| - 1] == Stopped(UnitFor(id, read))
      ensures r.Failure? ==> r.error == UnitFailure && Unanswered(old(log))
    {
      hide IsRun, Replay, Alone, Fresh, UnitFor;
      var cancelledAt: Option<int> := *;
      Note(CancelAsked(cancelledAt));
      if !OlderThan(cancelledAt, env.now, CANCEL_ESCALATE_AFTER) {
        return Success(Wait);
      }
      var ok := Stop(UnitFor(id, read));
      r := if ok then Success(StopUnit) else Failure(UnitFailure);
    }

    /** The lease an explicitly interrupted worker left behind while its continuation waits: it goes
        only while row, lease and turn still stand. */
    method RetirePrevious(id: Id, read: Task, lease: Option<Lease>) returns (r: Result<Verdict, Refusal>)
      requires Valid() && exam.OfTask? && exam.id == id && exam.read == read && !exam.settled
      requires exam.look == NOTHING.(lease := Some(lease), turnOpen := Some(true))
      requires Continued(read) && !Reserved(read, lease, env) && !BootChanged(read, env)
      modifies this`tasks, this`leases, this`listed, this`listedLeases, this`exam, this`disturbed, this`log
      ensures Valid() && old(log) <= log && listed == old(listed)
      ensures old(disturbed) ==> disturbed
      ensures exam.OfTask? && exam.id == id && exam.read == read
      ensures r.Success? ==> !r.value.Settle? && Faithful(id, read, Examined(r, exam.look), env)
      ensures r.Failure? ==> r.error == UnitFailure && Unanswered(old(log))
      ensures r == Success(Wait) && Decide(id, read, exam.look, env) == RetireLease ==>
                exam.stillOpen.Some? && !Stands(id, read, lease)
      ensures r == Success(RetireLease) ==>
                log[|log| - 1] == Retired && exam.stillOpen == Some(true)
                && SameVersion(Now(), id, read) && tasks[id].state == read.state && tasks[id].unit.None?
      ensures !disturbed ==>
                Stored() == Store(old(tasks), if r == Success(RetireLease) then old(leases) - {id} else old(leases))
    {
      hide IsRun, Replay, Alone, Fresh, Target, DecideByUnit, OlderThan;
      if env.workersOnly && lease.Some? && lease.value.pid.Some? && lease.value.unit == Some(WorkerUnit(id)) {
        var kind := Show(WorkerUnit(id));
        if kind.None? {
          return Failure(UnitFailure);
        }
        if Ended(kind.value) || kind.value == NotFound {
          var taken := TakePrevious(id, read, lease);
          return Success(if taken then RetireLease else Wait);
        }
      }
      r := Success(Wait);
    }

    /** Whether the turn is still open, some time later. */
    method AskAgain(id: Id, read: Task) returns (stillOpen: bool)
      requires Valid() && exam.OfTask? && exam.id == id && exam.read == read && !exam.settled
      requires Knows(tasks, id, read)
      modifies this`tasks, this`leases, this`listed, this`listedLeases, this`exam, this`disturbed, this`log
      ensures Valid() && old(log) <= log && listed == old(listed)
      ensures old(disturbed) ==> disturbed
      ensures exam == old(exam).(stillOpen := Some(stillOpen)) && Knows(tasks, id, read)
      ensures !disturbed ==> Stored() == old(Stored())
    {
      hide IsRun, Replay, Alone, Fresh, Decide, ModesHold, Later;
      Elsewhere();
      stillOpen := *;
      Note(StillOpen(stillOpen));
    }

    /** Row, lease and turn are still as the examination found them. */
    ghost predicate Stands(id: Id, read: Task, lease: Option<Lease>)
      reads this
    {
      && SameVersion(Now(), id, read) && tasks[id].state == read.state && tasks[id].unit.None?
      && id in leases && Some(leases[id]) == lease && exam.OfTask? && exam.stillOpen == Some(true)
    }

    /** The transaction of `RetirePrevious`. */
    method TakePrevious(id: Id, read: Task, lease: Option<Lease>) returns (taken: bool)
      requires Valid() && exam.OfTask? && exam.id == id && exam.read == read && !exam.settled
      requires exam.look.lease == Some(lease) && Decide(id, read, exam.look, env) == RetireLease
      modifies this`tasks, this`leases, this`listed, this`listedLeases, this`exam, this`disturbed, this`log
      ensures Valid() && old(log) <= log && listed == old(listed)
      ensures old(disturbed) ==> disturbed
      ensures exam.OfTask? && exam == old(exam).(stillOpen := exam.stillOpen)
      ensures taken ==>
                log[|log| - 1] == Retired && exam.stillOpen == Some(true)
                && SameVersion(Now(), id, read) && tasks[id].state == read.state && tasks[id].unit.None?
      ensures !taken ==> exam.stillOpen.Some? && !Stands(id, read, lease)
      ensures !disturbed ==> Stored() == Store(old(tasks), if taken then old(leases) - {id} else old(leases))
    {
      Invariant();
      hide IsRun, Replay, Alone, Fresh, WorldInv, Decide, ModesHold, Later;
      var stillOpen := AskAgain(id, read);
      taken := && tasks[id].version == read.version && tasks[id].state == read.state && tasks[id].unit.None?
               && id in leases && Some(leases[id]) == lease && stillOpen;
      if taken {
        TakeLease(id, read, lease);
      }
    }

    method TakeLease(id: Id, ghost read: Task, ghost lease: Option<Lease>)
      requires Valid() && exam.OfTask? && exam.id == id && exam.read == read && !exam.settled
      requires exam.look.lease == Some(lease) && Decide(id, read, exam.look, env) == RetireLease
      requires Stands(id, read, lease)
      modifies this`leases, this`log
      ensures Valid() && log == old(log) + [Retired] && leases == old(leases) - {id}
    {
      hide IsRun, Replay, Alone, Fresh, Decide;
      Extended(Retired);
      leases, log := leases - {id}, log + [Retired];
    }

    /** The end of `_reconcile_task`: the task must move. */
    method SettleTask(id: Id, read: Task, wanted: State) returns (r: Result<Verdict, Refusal>)
      requires Valid() && exam.OfTask? && exam.id == id && exam.read == read && !exam.settled
      requires read.state in ACTIVE && exam.look.lease.Some? && !Reserved(read, exam.look.lease.value, env)
      requires exam.look.answer == None && exam.look.unresolved == None
      requires if BootChanged(read, env) then wanted == Interrupted
               else Looks(read, exam.look, env) && exam.look.kind.Some? && exam.look.kind != Some(Active)
                    && wanted == FromUnit(exam.look.kind.value, read, env)
      modifies this`tasks, this`leases, this`listed, this`listedLeases, this`exam, this`disturbed, this`log
      ensures Valid() && old(log) <= log && listed == old(listed)
      ensures old(disturbed) ==> disturbed
      ensures exam.OfTask? && exam.id == id && exam.read == read && exam.look.kind == old(exam.look.kind)
      ensures r.Success? ==> r.value == Decide(id, read, exam.look, env) && r.value.Settle?
      ensures r.Failure? ==> r.error == Stale && !SameVersion(Now(), id, read)
      ensures !disturbed && old(SameVersion(Now(), id, read)) ==>
                r.Success? && Stored() == Store(Move(old(tasks), id, r.value.to), old(leases) - {id})
    {
      hide IsRun, Replay, Alone, Fresh, Decide, Reserved, BootChanged, OlderThan, FromUnit;
      var to := AskTarget(id, read, wanted);
      var moved := Apply(id, read, to);
      r := if moved.Success? then Success(Settle(to)) else Failure(moved.error);
    }

    /** Where it goes: what the accept journal says, or what the cancellation asked for, or the nearest
        the state machine permits. */
    method AskTarget(id: Id, read: Task, wanted: State) returns (to: State)
      requires Valid() && exam.OfTask? && exam.id == id && exam.read == read && !exam.settled
      requires read.state in ACTIVE && exam.look.lease.Some? && !Reserved(read, exam.look.lease.value, env)
      requires exam.look.answer == None && exam.look.unresolved == None
      requires if BootChanged(read, env) then wanted == Interrupted
               else Looks(read, exam.look, env) && exam.look.kind.Some? && exam.look.kind != Some(Active)
                    && wanted == FromUnit(exam.look.kind.value, read, env)
      modifies this`listed, this`listedLeases, this`exam, this`log
      ensures Valid() && old(log) <= log && listed == old(listed) && Stored() == old(Stored())
      ensures exam.OfTask? && exam.id == id && exam.read == read && !exam.settled
      ensures exam.look.kind == old(exam.look.kind)
      ensures Decide(id, read, exam.look, env) == Settle(to)
    {
      hide IsRun, Replay, Alone, Fresh, Reserved, BootChanged, OlderThan, FromUnit;
      if read.state == Accepting && env.recovers && wanted != RecoveryAmbiguous {
        var answer: AcceptAnswer := *;
        Note(JournalSaid(answer));
        match answer {
          case Committed => return Accepted;
          case Manual => return RecoveryAmbiguous;
          case Aborted => return ResultReady;
        }
      }
      if read.state == Cancelling {
        return Cancelled;
      }
      var target := wanted;
      if read.state != Accepting {
        var unresolved: bool := *;
        Note(Unresolved(unresolved));
        if unresolved {
          target := RecoveryAmbiguous;
        }
      }
      var permitted := Permitted(read.state, target);
      if permitted.None? {
        if read.state != Preparing {
          assert false;
        }
        return Failed;
      }
      to := permitted.value;
    }

    /** The examination begins with the row as it was listed and the lease as it is. */
    method Begin(id: Id, read: Task) returns (lease: Option<Lease>)
      requires Valid() && id in listed && listed[id] == read
      modifies this`listed, this`listedLeases, this`exam, this`log
      ensures Valid() && old(log) <= log && listed == old(listed)
      ensures exam == OfTask(id, read, NOTHING.(lease := Some(lease)), None, false)
      ensures read.state in ACTIVE && ModeHolds(read)
      ensures lease == if id in leases then Some(leases[id]) else None
    {
      Invariant();
      hide IsRun, Replay, Alone, Fresh;
      Note(Examine(id));
      Note(ReadLease);
      lease := if id in leases then Some(leases[id]) else None;
    }

    /** `_reconcile_task`, for one listed row. */
    method ReconcileTask(id: Id, read: Task) returns (r: Result<Verdict, Refusal>)
      requires Valid() && id in listed && listed[id] == read
      modifies this`tasks, this`leases, this`listed, this`listedLeases, this`exam, this`disturbed, this`log
      ensures Valid() && old(log) <= log && listed == old(listed)
      ensures old(disturbed) ==> disturbed
      ensures exam.OfTask? && exam.id == id && exam.read == read
      ensures Faithful(id, read, Examined(r, exam.look), env)
      ensures r == Failure(UnitFailure) ==> Unanswered(old(log))
      ensures r == Failure(Stale) ==> !SameVersion(Now(), id, read)
      ensures r.Failure? ==> r.error in {Stale, UnitFailure}
      ensures !disturbed && id in old(tasks) && old(tasks)[id] == read ==>
                Stored() == StoreAfter(old(Stored()), id, Examined(r, exam.look))
    {
      var lease := Begin(id, read);
      hide IsRun, Replay, Alone, Fresh, UnitFor, OlderThan, FromUnit, Target, DecideByUnit, WorkerUnit;
      if Reserved(read, lease, env) {
        return Success(Wait);
      }
      if BootChanged(read, env) {
        r := SettleTask(id, read, Interrupted);
        return;
      }
      if read.unit.None? && read.state == Queued && lease.None? {
        return Success(Wait);
      }
      if read.unit.None? && read.state in {Preparing, Queued} {
        if OlderThan(read.createdAt, env.now, NEVER_STARTED_AFTER) {
          var moved := Apply(id, read, Failed);
          return if moved.Success? then Success(Settle(Failed)) else Failure(moved.error);
        }
        return Success(Wait);
      }
      r := ReconcileStarted(id, read, lease);
    }

    /** A task that has, or had, a unit of its own. */
    method ReconcileStarted(id: Id, read: Task, lease: Option<Lease>) returns (r: Result<Verdict, Refusal>)
      requires Valid() && exam.OfTask? && exam.id == id && exam.read == read && !exam.settled
      requires exam.look == NOTHING.(lease := Some(lease)) && read.state in ACTIVE
      requires !Reserved(read, lease, env) && !BootChanged(read, env) && !Unborn(read)
      modifies this`tasks, this`leases, this`listed, this`listedLeases, this`exam, this`disturbed, this`log
      ensures Valid() && old(log) <= log && listed == old(listed)
      ensures old(disturbed) ==> disturbed
      ensures exam.OfTask? && exam.id == id && exam.read == read
      ensures Faithful(id, read, Examined(r, exam.look), env)
      ensures r == Failure(UnitFailure) ==> Unanswered(old(log))
      ensures r == Failure(Stale) ==> !SameVersion(Now(), id, read)
      ensures r.Failure? ==> r.error in {Stale, UnitFailure}
      ensures !disturbed && old(SameVersion(Now(), id, read)) ==>
                Stored() == StoreAfter(old(Stored()), id, Examined(r, exam.look))
    {
      hide IsRun, Replay, Alone, Fresh, UnitFor, OlderThan, FromUnit, Target, DecideByUnit, WorkerUnit;
      if read.unit.None? && read.state in {Repairing, Resuming} {
        var turnOpen: bool := *;
        Note(TurnOpen(turnOpen));
        if turnOpen {
          r := RetirePrevious(id, read, lease);
          return;
        }
      }
      r := ReconcileByUnit(id, read);
    }

    /** The rest of `_reconcile_task`: what the unit says. */
    method ReconcileByUnit(id: Id, read: Task) returns (r: Result<Verdict, Refusal>)
      requires Valid() && exam.OfTask? && exam.id == id && exam.read == read && !exam.settled
      requires read.state in ACTIVE && Looks(read, exam.look, env)
      requires exam.look == NOTHING.(lease := exam.look.lease, turnOpen := exam.look.turnOpen)
      modifies this`tasks, this`leases, this`listed, this`listedLeases, this`exam, this`disturbed, this`log
      ensures Valid() && old(log) <= log && listed == old(listed)
      ensures old(disturbed) ==> disturbed
      ensures exam.OfTask? && exam.id == id && exam.read == read
      ensures r.Success? ==> r.value == Decide(id, read, exam.look, env) != Ask
      ensures r.Success? && r.value.Settle? && Ended(exam.look.kind.value) ==> Forgot(UnitFor(id, read)) in log
      ensures r == Failure(UnitFailure) ==> Unanswered(old(log))
      ensures r == Failure(Stale) ==> !SameVersion(Now(), id, read)
      ensures r.Failure? ==> r.error in {Stale, UnitFailure}
      ensures !disturbed && old(SameVersion(Now(), id, read)) ==>
                Stored() == StoreAfter(old(Stored()), id, Examined(r, exam.look))
    {
      hide IsRun, Replay, Alone, Fresh, UnitFor, OlderThan, Target;
      var kind := Show(UnitFor(id, read));
      if kind.None? {
        return Failure(UnitFailure);
      }
      if kind.value == Active {
        if read.state == Cancelling {
          r := EscalateCancel(id, read);
          return;
        }
        return Success(Wait);
      }
      if Ended(kind.value) {
        var ok := ResetFailed(UnitFor(id, read));
        if !ok {
          return Failure(UnitFailure);
        }
      }
      ghost var last := |log| - 1;
      r := SettleTask(id, read, FromUnit(kind.value, read, env));
      assert log[last] in log;
    }

    // -- the sweep ----------------------------------------------------------------------------------

    /** At most `SCAN_LIMIT` rows in one state. */
    method ListTasks(state: State) returns (rows: seq<Row>)
      requires Valid() && state in ACTIVE
      modifies this`listed, this`listedLeases, this`exam, this`log
      ensures Valid() && old(log) <= log && Stored() == old(Stored())
      ensures Listing(tasks, state, rows)
      ensures forall k :: 0 <= k < |rows| ==> rows[k].id in listed && listed[rows[k].id] == rows[k].task
    {
      hide IsRun, Replay, Alone, Fresh;
      rows := PickRows(state);
      ghost var found := map k | 0 <= k < |rows| :: rows[k].id := rows[k].task;
      Note(List(found));
    }

    method PickRows(state: State) returns (rows: seq<Row>)
      ensures Listing(tasks, state, rows)
    {
      rows := [];
      var rest := InState(tasks, state);
      while rest != {} && |rows| < SCAN_LIMIT
        invariant rest <= InState(tasks, state) && |rows| <= SCAN_LIMIT
        invariant |rows| + |rest| == |InState(tasks, state)|
        invariant forall k :: 0 <= k < |rows| ==>
                    && rows[k].id in tasks && rows[k].id !in rest
                    && tasks[rows[k].id] == rows[k].task && rows[k].task.state == state
        invariant forall j, k :: 0 <= j < k < |rows| ==> rows[j].id != rows[k].id
        invariant forall id :: id in InState(tasks, state) && id !in rest ==> Row(id, tasks[id]) in rows
      {
        var id :| id in rest;
        rest, rows := rest - {id}, rows + [Row(id, tasks[id])];
      }
    }

    /** One listed row. */
    method SweepRow(row: Row, ghost before: Store, ghost done: map<Id, Examined>)
      returns (ghost seen: map<Id, Examined>)
      requires Valid() && row.id in listed && listed[row.id] == row.task && row.task.state in ACTIVE
      requires !disturbed ==>
                 Swept(before, Stored(), done, env) && row.id !in done && row.id in tasks && tasks[row.id] == row.task
      modifies this`tasks, this`leases, this`listed, this`listedLeases, this`exam, this`disturbed, this`log
      ensures Valid() && old(log) <= log && listed == old(listed)
      ensures old(disturbed) ==> disturbed
      ensures !disturbed ==> Swept(before, Stored(), seen, env)
      ensures seen.Keys == done.Keys + (if Skipped(row.task, env) || disturbed then {} else {row.id})
      ensures !disturbed ==> forall id :: id in old(tasks) && id != row.id ==> id in tasks && tasks[id] == old(tasks)[id]
    {
      seen := done;
      if Skipped(row.task, env) {
        return;
      }
      hide IsRun, Replay, Alone, Fresh, Swept, Decide, Skipped, Faithful;
      Elsewhere();
      ghost var store := Stored();
      ghost var result := ReconcileTask(row.id, row.task);
      if !disturbed {
        SweptRow(before, store, done, env, row);
        OneSwept(before, store, done, env, row.id, Examined(result, exam.look));
        seen := done[row.id := Examined(result, exam.look)];
      }
    }

    /** One state of the sweep. */
    method SweepState(state: State, ghost before: Store, ghost done: map<Id, Examined>)
      returns (ghost seen: map<Id, Examined>)
      requires Valid() && state in ACTIVE && ModesHold(before.tasks)
      requires !disturbed ==> Swept(before, Stored(), done, env) && NoneOf(done, before.tasks, state)
      modifies this`tasks, this`leases, this`listed, this`listedLeases, this`exam, this`disturbed, this`log
      ensures Valid() && old(log) <= log
      ensures old(disturbed) ==> disturbed
      ensures !disturbed ==> Swept(before, Stored(), seen, env)
      ensures !disturbed ==> done.Keys <= seen.Keys <= done.Keys + InState(before.tasks, state)
      ensures !disturbed && |InState(before.tasks, state)| <= SCAN_LIMIT ==> AllSeen(before.tasks, state, seen, env)
    {
      hide IsRun, Replay, Alone, Fresh, Swept, InState, Ahead, RowIds, Listing, AllSeen, SameIn, NoneOf, Skipped;
      if !disturbed {
        UnsweptState(before, Stored(), done, env, state);
      }
      Elsewhere();
      var rows := ListTasks(state);
      ghost var found := tasks;
      if !disturbed {
        StartAhead(tasks, state, rows, done.Keys, env);
      }
      seen := done;
      var k := 0;
      while k < |rows|
        invariant 0 <= k <= |rows| && Valid() && old(log) <= log
        invariant forall j :: 0 <= j < |rows| ==> rows[j].id in listed && listed[rows[j].id] == rows[j].task
        invariant old(disturbed) ==> disturbed
        invariant !disturbed ==> found == old(tasks) && Swept(before, Stored(), seen, env)
        invariant !disturbed ==> Ahead(tasks, rows, k, seen.Keys) && seen.Keys == done.Keys + RowIds(rows, k, env)
      {
        ListedRow(found, state, rows, k);
        if !disturbed {
          NextAhead(tasks, rows, k, seen.Keys, env);
        }
        ghost var was, ids := tasks, seen.Keys;
        seen := SweepRow(rows[k], before, seen);
        if !disturbed {
          AheadNext(was, tasks, rows, k, ids, seen.Keys);
        }
        k := k + 1;
      }
      if !disturbed {
        StateSwept(before.tasks, found, state, rows, done.Keys, seen, env);
      }
    }

    /** One listed lease of `_release_finished_leases`. */
    method ReleaseFinished(id: Id, lease: Lease) returns (ghost seen: Option<Kind>)
      requires Valid() && id in listedLeases && listedLeases[id] == lease
      modifies this`tasks, this`leases, this`listed, this`listedLeases, this`exam, this`disturbed, this`log
      ensures Valid() && old(log) <= log && listedLeases == old(listedLeases)
      ensures old(disturbed) ==> disturbed
      ensures !disturbed ==> tasks == old(tasks)
      ensures !disturbed && id in old(leases) && old(leases)[id] == lease ==>
                leases == if seen.Some? && id in tasks && Freed(tasks[id], lease, seen.value, env)
                          then old(leases) - {id} else old(leases)
    {
      hide IsRun, Replay, Alone, Fresh, OlderThan, WorkerUnit, Knows;
      seen := None;
      Elsewhere();
      if id !in tasks || tasks[id].state in ACTIVE || tasks[id].state == RecoveryAmbiguous {
        return;
      }
      var state := tasks[id].state;
      Note(ExamineLease(id));
      var kind := Show(lease.unit.GetOr(WorkerUnit(id)));
      if kind.None? {
        return;
      }
      seen := kind;
      if lease.boot == Some(env.boot)
         && (kind.value == Active || (kind.value == NotFound && !OlderThan(lease.heartbeatAt, env.now, env.staleAfter)))
      {
        return;
      }
      if lease.boot == Some(env.boot) && !Ended(kind.value) && kind.value != NotFound {
        return;
      }
      ReleaseIfStill(id, state, lease);
    }

    /** The transaction of `_release_finished_leases`. */
    method ReleaseIfStill(id: Id, state: State, lease: Lease)
      requires Valid() && exam.OfLease? && exam.id == id && exam.row.state == state && exam.lease == lease
      requires exam.kind.Some? && Freed(exam.row, lease, exam.kind.value, env)
      modifies this`tasks, this`leases, this`disturbed, this`log
      ensures Valid() && old(log) <= log
      ensures old(disturbed) ==> disturbed
      ensures !disturbed ==> tasks == old(tasks)
      ensures !disturbed && id in tasks && tasks[id].state == state && id in old(leases) && old(leases)[id] == lease ==>
                leases == old(leases) - {id}
    {
      hide IsRun, Replay, Alone, Fresh, Freed, Knows;
      Elsewhere();
      if id in tasks && tasks[id].state == state && id in leases && leases[id] == lease {
        Extended(Released);
        leases, log := leases - {id}, log + [Released];
      }
    }

    /** `_release_finished_leases`. `kinds` is what each unit asked about turned out to be. */
    method ReleaseFinishedLeases() returns (ghost kinds: map<Id, Kind>)
      requires Valid()
      modifies this`tasks, this`leases, this`listed, this`listedLeases, this`exam, this`disturbed, this`log
      ensures Valid() && old(log) <= log
      ensures old(disturbed) ==> disturbed
      ensures !disturbed ==> tasks == old(tasks) && FinishedReleased(tasks, old(leases), leases, kinds, env)
    {
      hide IsRun, Replay, Alone, Fresh, Freed;
      kinds := map[];
      Note(ListLeases);
      var found := leases;
      var rest := found.Keys;
      while rest != {}
        invariant Valid() && old(log) <= log && listedLeases == found
        invariant rest <= found.Keys && kinds.Keys !! rest
        invariant old(disturbed) ==> disturbed
        invariant !disturbed ==> tasks == old(tasks) && leases.Keys <= found.Keys
        invariant !disturbed ==> forall id :: id in leases ==> leases[id] == found[id]
        invariant !disturbed ==> forall id :: id in rest ==> id in leases
        invariant !disturbed ==> forall id :: id in found && id !in rest ==>
                    (id !in leases <==> id in kinds && id in tasks && Freed(tasks[id], found[id], kinds[id], env))
      {
        var id :| id in rest;
        rest := rest - {id};
        ghost var kind := ReleaseFinished(id, found[id]);
        if kind.Some? {
          kinds := kinds[id := kind.value];
        }
      }
    }

    /** `reconcile`. The store is what its log makes of it, whatever else was written, so the sweep is
        safe. Undisturbed, every task that was active is examined (the scan limit and the rows left to
        others aside), each row and lease ends as its own examination says, and the leases of finished
        tasks go exactly when their processes are over. */
    method Reconcile() returns (ghost seen: map<Id, Examined>, ghost kinds: map<Id, Kind>, ghost swept: Store)
      requires Valid()
      modifies this`tasks, this`leases, this`listed, this`listedLeases, this`exam, this`disturbed, this`log
      ensures Valid() && old(log) <= log
      ensures old(disturbed) ==> disturbed
      ensures !disturbed ==> Swept(old(Stored()), swept, seen, env)
      ensures !disturbed ==> tasks == swept.tasks && FinishedReleased(tasks, swept.leases, leases, kinds, env)
      ensures !disturbed ==> |ActiveOf(tasks)| + MoveCount(log) == |ActiveOf(start.tasks)|
      ensures !disturbed && |ActiveOf(old(tasks))| <= SCAN_LIMIT ==>
                forall id :: id in ActiveOf(old(tasks)) && !Skipped(old(tasks)[id], env) ==> id in seen
    {
      Invariant();
      ghost var before := Stored();
      seen := map[];
      StartSwept(before, env);
      hide IsRun, Replay, Alone, Fresh, Swept, ActiveOf, InState, AllSeen, NoneOf, Skipped, FinishedReleased;
      var i := 0;
      while i < |SCAN_ORDER|
        invariant 0 <= i <= |SCAN_ORDER| && Valid() && old(log) <= log
        invariant old(disturbed) ==> disturbed
        invariant !disturbed ==> Swept(before, Stored(), seen, env) && Progress(before.tasks, seen, i, env)
      {
        ghost var done := seen;
        NextScanned(i);
        if !disturbed {
          NextState(before.tasks, seen, i, env);
        }
        seen := SweepState(SCAN_ORDER[i], before, seen);
        if !disturbed {
          StateDone(before.tasks, done, seen, i, env);
        }
        i := i + 1;
      }
      swept := Stored();
      kinds := ReleaseFinishedLeases();
      if !disturbed {
        AllStatesDone(before.tasks, seen, env);
        MovesAreCounted(start, log, env);
      }
    }
  }
}
