/** The controller's backend: every operation runs under one lock, saves its intent before each
    Engine request, and may die between any two effects.

    The Engine, the task database and process death are outside: they move in `Interfere`, answer
    arbitrarily within what they have done, and are chosen with `*`. The ghost `log` records the
    steps taken, and `Valid()` says that they are a run of the launch protocol. */
module DockerUnits {
  import opened Wrappers
  import opened Units
  import Fence
  import opened Launch
  import opened LaunchProperties

  datatype Code =
    | AdmissionClosed | MaintenanceActive | MaintenanceOwner | SubmissionActive
    | StartFailed | StartUncertain | PreviousTurnActive
    | QueryFailed | StopFailed
    | RecoveryInvalid | RecoveryUnproven | RecoveryTooRecent | RecoveryNotCancelled | RecoveryTaskStarted

  /** `Died` is a controller that stopped inside the call: whatever it had written stays. */
  datatype Reply<+T> = Answer(value: T) | Error(code: Code) | Died

  datatype Query = Present(status: Status) | Missing | Unreadable

  /** `containers.create`: a handle, an error response with its status, or no usable reply. */
  datatype CreateReply = Made | Refused(status: int) | Lost

  /** What a start read and was told on its way; what it did not come to ask is `Missing`, `Lost` or
      false. */
  datatype Heard = Heard(
    identity: Option<Identity>, earlier: Query, image: bool,
    create: CreateReply, created: Query, acknowledged: bool, started: Query)

  const SILENCE := Heard(None, Missing, false, Lost, Missing, false, Missing)

  /** A container that runs or ran. */
  predicate SeenRun(q: Query) {
    q.Present? && (q.status.Up? || q.status.Down?)
  }

  /** An error response that rules a create out. */
  predicate Definite(reply: CreateReply) {
    reply.Refused? && reply.status in {400, 401, 403, 404, 422}
  }

  predicate HasContainer(h: Heard) {
    h.create.Made? || h.created.Present?
  }

  predicate Confirmed(h: Heard) {
    h.acknowledged || SeenRun(h.started)
  }

  /** An earlier launch stands in the way of none for this turn: there is none, or it is an older turn's
      that is settled and not running, or this turn's own that Docker refused. */
  predicate Passable(before: Option<Record>, q: Query, identity: Identity) {
    before == None
    || (&& q != Unreadable
        && if before.value.identity != identity
           then !(q.Present? && q.status.Up?) && (Settled(before.value.phase) || SeenRun(q))
           else before.value.phase == Failed && !SeenRun(q))
  }

  /** The launch answers exactly as its container was seen. */
  predicate LaunchAnswers(r: Reply<()>, h: Heard) {
    && (r.Answer? <==> HasContainer(h) && Confirmed(h))
    && (r == Error(StartFailed) <==> !HasContainer(h) && Definite(h.create))
    && (r == Error(StartUncertain) <==> if HasContainer(h) then !Confirmed(h) else !Definite(h.create))
  }

  /** The whole call: a turn still running is reported, this turn's own container is success, and a launch
      that is attempted answers as its container was seen; everything else in doubt is uncertain. */
  predicate StartAnswers(r: Reply<()>, before: Option<Record>, identity: Identity, valid: bool, h: Heard) {
    var attempted := Passable(before, h.earlier, identity);
    && (r == Error(PreviousTurnActive) <==>
          before.Some? && before.value.identity != identity && h.earlier.Present? && h.earlier.status.Up?)
    && (before.Some? && before.value.identity == identity && SeenRun(h.earlier) ==> r.Answer?)
    && (attempted && !(valid && h.image) ==> r == Error(StartFailed))
    && (attempted && valid && h.image ==> LaunchAnswers(r, h))
    && (!attempted && !SeenRun(h.earlier) ==> r == Error(StartUncertain))
  }

  /** The task database facts an absent-launch recovery reads. */
  datatype TaskFacts = NoTask | TaskFacts(cancelling: bool, everStarted: bool, endedTurns: nat)

  const ABSENT_LAUNCH_MIN_AGE_S := 3600

  class DockerBackend {
    var records: map<Unit, Record>
    var history: map<Gen, Record>
    var turns: map<Unit, Identity>
    var engine: Engine
    var fence: Fence.State
    var ledger: map<Gen, Reservation>
    ghost var log: seq<Step>
    /** Questions put to the Engine about recorded containers, and which were told to stop or removed. */
    ghost var asked: nat
    ghost var signals: seq<Gen>
    ghost var removals: seq<Gen>

    function Now(): World
      reads this
    {
      World(records, history, turns, engine, fence, ledger)
    }

    ghost predicate Valid()
      reads this
    {
      Legal(INITIAL, log) && Exec(INITIAL, log) == Now()
    }

    lemma Invariant()
      requires Valid()
      ensures Inv(Now())
    {
      ReachableInv(log);
    }

    constructor ()
      ensures Valid() && Now() == INITIAL
    {
      records, history, turns := map[], map[], map[];
      engine, fence, ledger := EMPTY_ENGINE, Fence.OPEN, map[];
      log := [];
      asked, signals, removals := 0, [], [];
    }

    /** The controller made no step of its own since. */
    twostate predicate OnlyOutside()
      reads this
    {
      && old(log) <= log
      && forall i :: |old(log)| <= i < |log| ==> Outside(log[i])
    }

    /** What has happened outside stays happened, and no turn goes back. */
    twostate predicate OutsideGrows()
      reads this
    {
      && engine.ran >= old(engine.ran) && engine.landed >= old(engine.landed)
      && engine.destroyed >= old(engine.destroyed) && engine.rejected >= old(engine.rejected)
      && forall u :: u in old(turns) ==> u in turns && old(turns[u]) <= turns[u]
    }

    // -- effects ------------------------------------------------------------------------------

    lemma Extended(s: Step, w: World)
      requires Valid() && Enabled(Now(), s) && w == Apply(Now(), s)
      ensures Legal(INITIAL, log + [s]) && Exec(INITIAL, log + [s]) == w
    {
      assert (log + [s])[..|log + [s]| - 1] == log;
    }

    /** `_save`: replace one durable record. */
    method Save(u: Unit, r: Record, ghost s: Step)
      requires Valid() && Enabled(Now(), s) && Apply(Now(), s) == Now().(records := records[u := r])
      modifies this`records, this`log
      ensures Valid() && records == old(records)[u := r] && log == old(log) + [s]
    {
      ghost var after := Now().(records := records[u := r]);
      Extended(s, after);
      records := records[u := r];
      log := log + [s];
      assert Now() == after;
    }

    /** `_atomic` on a fence file, or the unlink of a submission. */
    method WriteFence(write: Fence.Step)
      requires Valid() && Fence.Enabled(fence, write)
      modifies this`fence, this`log
      ensures Valid() && fence == Fence.Apply(old(fence), write) && log == old(log) + [FenceWrite(write)]
    {
      Extended(FenceWrite(write), Apply(Now(), FenceWrite(write)));
      fence := Fence.Apply(fence, write);
      log := log + [FenceWrite(write)];
    }

    /** Everything outside the controller moves on, any number of times. */
    method Interfere()
      requires Valid()
      modifies this`turns, this`engine, this`log
      ensures Valid() && OnlyOutside()
      ensures engine.started == old(engine.started) && engine.created == old(engine.created)
      ensures engine.ran >= old(engine.ran) && engine.landed >= old(engine.landed)
      ensures engine.destroyed >= old(engine.destroyed) && engine.rejected >= old(engine.rejected)
      ensures forall g, s :: Seen(old(engine), g, s) ==> Seen(engine, g, s)
      ensures forall u :: u in old(turns) ==> u in turns && old(turns[u]) <= turns[u]
    {
      var n: nat := *;
      while n > 0
        invariant Valid() && OnlyOutside()
        invariant engine.started == old(engine.started) && engine.created == old(engine.created)
        invariant engine.ran >= old(engine.ran) && engine.landed >= old(engine.landed)
        invariant engine.destroyed >= old(engine.destroyed) && engine.rejected >= old(engine.rejected)
        invariant forall g, s :: Seen(old(engine), g, s) ==> Seen(engine, g, s)
        invariant forall u :: u in old(turns) ==> u in turns && old(turns[u]) <= turns[u]
      {
        var move: Step := *;
        if Outside(move) && OutsideEnabled(Now(), move) {
          OutsideMove(move);
        }
        n := n - 1;
      }
    }

    method OutsideMove(move: Step)
      requires Valid() && Outside(move) && OutsideEnabled(Now(), move)
      modifies this`turns, this`engine, this`log
      ensures Valid() && log == old(log) + [move]
      ensures engine.started == old(engine.started) && engine.created == old(engine.created)
      ensures engine.ran >= old(engine.ran) && engine.landed >= old(engine.landed)
      ensures engine.destroyed >= old(engine.destroyed) && engine.rejected >= old(engine.rejected)
      ensures forall g, s :: Seen(old(engine), g, s) ==> Seen(engine, g, s)
      ensures forall u :: u in old(turns) ==> u in turns && old(turns[u]) <= turns[u]
    {
      hide Legal, Exec;
      hide Inv, CanBecome;
      Extended(move, Apply(Now(), move));
      Invariant();
      forall g, s | Seen(engine, g, s) ensures Seen(ApplyEngine(engine, move), g, s) {
        SeenLasts(Now(), move, g, s);
      }
      if move.NewTurn? {
        turns := turns[move.unit := move.identity];
      } else {
        engine := ApplyEngine(engine, move);
      }
      log := log + [move];
    }

    static lemma SeenLasts(w: World, move: Step, g: Gen, s: Status)
      requires Inv(w) && Outside(move) && OutsideEnabled(w, move) && Seen(w.engine, g, s)
      ensures Seen(ApplyEngine(w.engine, move), g, s)
    {
      assert GenInv(w.engine, w.ledger, g);
    }

    /** `_container`: ask the Engine for the recorded generation. */
    method QueryContainer(u: Unit) returns (q: Query)
      requires Valid() && u in records
      modifies this`turns, this`engine, this`log, this`asked
      ensures Valid() && OnlyOutside()
      ensures engine.started == old(engine.started) && engine.created == old(engine.created)
      ensures OutsideGrows()
      ensures asked == old(asked) + 1
      ensures q.Present? ==> Seen(engine, records[u].gen, q.status)
      ensures q.Present? && records[u].phase in {Finished, Retired} ==> q.status.Down?
      ensures q.Present? && records[u].phase in {Creating, Failed} ==> !Ran(q.status)
    {
      asked := asked + 1;
      Interfere();
      var answered: bool := *;
      var g := records[u].gen;
      Invariant();
      assert RecordInv(Now(), u);
      assert g in engine.created ==> GenInv(engine, ledger, g);
      if !answered {
        q := Unreadable;
      } else if g !in engine.containers {
        q := Missing;
      } else {
        q := Present(engine.containers[g]);
      }
    }

    /** `_observe`: save what a container was seen to be. */
    method Observe(u: Unit, seen: Status) returns (k: Kind)
      requires Valid() && u in records && Seen(engine, records[u].gen, seen)
      requires records[u].phase in {Finished, Retired} ==> seen.Down?
      modifies this`records, this`log
      ensures Valid() && log == old(log) + [Launch.Observe(u, seen)]
      ensures records == old(records)[u := ObservedRecord(old(records)[u], seen)]
      ensures k == KindOf(Observed(seen))
    {
      Save(u, ObservedRecord(records[u], seen), Launch.Observe(u, seen));
      k := KindOf(Observed(seen));
    }

    method EngineCreate(u: Unit) returns (reply: CreateReply)
      requires Valid() && u in records && Enabled(Now(), SendCreate(u))
      modifies this`turns, this`engine, this`log
      ensures Valid() && old(log) <= log
      ensures engine.started == old(engine.started)
      ensures records[u].gen in engine.created
      ensures reply.Made? ==> records[u].gen in engine.landed
      ensures reply.Refused? ==> records[u].gen in engine.rejected
      ensures OutsideGrows()
    {
      var g := records[u].gen;
      Extended(SendCreate(u), Apply(Now(), SendCreate(u)));
      engine := engine.(created := engine.created + {g}, creating := engine.creating + {g});
      log := log + [SendCreate(u)];
      Interfere();
      var heard: bool := *;
      var status: int := *;
      reply :=
        if heard && g in engine.landed then Made
        else if heard && g in engine.rejected then Refused(status)
        else Lost;
    }

    method EngineStart(u: Unit) returns (acknowledged: bool)
      requires Valid() && u in records && Enabled(Now(), SendStart(u))
      modifies this`turns, this`engine, this`log
      ensures Valid() && old(log) <= log
      ensures engine.started == old(engine.started) + {records[u].gen}
      ensures acknowledged ==> records[u].gen in engine.ran
      ensures OutsideGrows()
    {
      var g := records[u].gen;
      Extended(SendStart(u), Apply(Now(), SendStart(u)));
      engine := engine.(started := engine.started + {g}, starting := engine.starting + {g});
      log := log + [SendStart(u)];
      Interfere();
      var heard: bool := *;
      acknowledged := heard && g in engine.ran;
    }

    // -- launching ------------------------------------------------------------------------------

    /** A settled record is archived before a new reservation replaces it. */
    method ArchiveRecord(u: Unit)
      requires Valid() && u in records
      modifies this`history, this`log
      ensures Valid() && history == old(history)[records[u].gen := records[u]]
      ensures log == old(log) + [Archive(u)]
    {
      Extended(Archive(u), Apply(Now(), Archive(u)));
      history := history[records[u].gen := records[u]];
      log := log + [Archive(u)];
    }

    method ReserveLaunch(u: Unit, gen: Gen, identity: Identity)
      requires Valid() && Enabled(Now(), Reserve(u, gen, identity))
      modifies this`records, this`ledger, this`log
      ensures Valid() && old(log) <= log
      ensures records == old(records)[u := Record(identity, gen, Creating, false, None)]
      ensures ledger == old(ledger)[gen := Reservation(u, identity)]
    {
      Extended(Reserve(u, gen, identity), Apply(Now(), Reserve(u, gen, identity)));
      records := records[u := Record(identity, gen, Creating, false, None)];
      ledger := ledger[gen := Reservation(u, identity)];
      log := log + [Reserve(u, gen, identity)];
    }

    /** What an earlier launch of the unit says about a new one: `None` to go ahead, otherwise the
        reply the caller gets. */
    method SettleEarlier(u: Unit, identity: Identity) returns (r: Option<Reply<()>>, ghost q: Query)
      requires Valid() && u in turns && identity <= turns[u]
      requires u in records ==> records[u].identity <= identity
      modifies this`records, this`history, this`turns, this`engine, this`log, this`asked
      ensures Valid() && old(log) <= log
      ensures engine.started == old(engine.started)
      ensures u in turns && identity <= turns[u]
      ensures old(Quiet(Now(), u)) ==> Quiet(Now(), u)
      ensures r == None && u in records ==>
                && Settled(records[u].phase) && records[u].identity <= identity
                && (records[u].identity == identity ==> records[u].phase == Failed)
                && records[u].gen in history && history[records[u].gen] == records[u]
      ensures r.Some? && r.value.Answer? ==>
                u in records && records[u].identity == identity && records[u].gen in engine.ran
      ensures r.Some? && r.value.Error? ==> r.value.code in {StartUncertain, PreviousTurnActive}
      ensures records.Keys == old(records).Keys
      ensures r != Some(Died) ==>
                var before := if u in old(records) then Some(old(records)[u]) else None;
                && (r == None <==> Passable(before, q, identity))
                && (r == Some(Error(PreviousTurnActive)) <==>
                      before.Some? && before.value.identity != identity && q.Present? && q.status.Up?)
                && (r.Some? && r.value.Answer? <==>
                      before.Some? && before.value.identity == identity && SeenRun(q))
      ensures r == Some(Error(PreviousTurnActive)) ==>
                u in records && records[u].identity != identity && records[u].gen in engine.ran
      ensures engine.created == old(engine.created) && ledger == old(ledger) && OutsideGrows()
    {
      hide Legal, Exec;
      q := Missing;
      if u !in records {
        return None, q;
      }
      var seen := QueryContainer(u);
      q := seen;
      if seen.Unreadable? {
        return Some(Error(StartUncertain)), q;
      }
      if seen.Present? {
        var dies: bool := *;
        if dies { return Some(Died), q; }
        ObservedKind(seen.status);
        QuietObserve(u, seen.status);
        var kind := Observe(u, seen.status);
        if kind == Active && records[u].identity != identity {
          return Some(Error(PreviousTurnActive)), q;
        }
        if records[u].identity == identity && kind != Unknown {
          return Some(Answer(())), q;
        }
      }
      var record := records[u];
      if !Settled(record.phase) {
        return Some(Error(StartUncertain)), q;
      }
      if record.identity == identity && record.phase != Failed {
        return Some(Error(StartUncertain)), q;
      }
      var dies: bool := *;
      if dies { return Some(Died), q; }
      ArchiveRecord(u);
      r := None;
    }

    lemma QuietObserve(u: Unit, seen: Status)
      requires Valid() && u in records && Seen(engine, records[u].gen, seen)
      requires records[u].phase in {Creating, Failed} ==> !Ran(seen)
      ensures Settled(records[u].phase) ==> Settled(ObservedRecord(records[u], seen).phase)
      ensures ObservedRecord(records[u], seen).phase == Failed <==> records[u].phase == Failed
    {
    }

    /** The launch proper: reserve, create, start, each intent saved first. */
    method LaunchReserved(u: Unit, gen: Gen, identity: Identity, ghost said: Heard)
      returns (r: Reply<()>, ghost h: Heard)
      requires Valid() && Enabled(Now(), Reserve(u, gen, identity))
      requires said.create == Lost && said.created == Missing && !said.acknowledged && said.started == Missing
      modifies this`records, this`ledger, this`turns, this`engine, this`log, this`asked
      ensures Valid() && old(log) <= log
      ensures engine.started == old(engine.started) || engine.started == old(engine.started) + {gen}
      ensures r.Answer? ==>
                u in records && records[u].gen == gen && records[u].identity == identity
                && gen in engine.started
      ensures r.Error? && r.code != StartUncertain ==>
                engine.started == old(engine.started) && Quiet(Now(), u)
      ensures r.Error? ==> r.code in {StartUncertain, StartFailed}
      ensures h == said.(create := h.create, created := h.created, acknowledged := h.acknowledged, started := h.started)
      ensures r != Died ==> LaunchAnswers(r, h)
      ensures h.create.Refused? ==> gen in engine.rejected
      ensures h.create.Made? ==> gen in engine.landed
      ensures OutsideGrows()
      ensures h.acknowledged ==> gen in engine.ran
      ensures r.Answer? && h.acknowledged ==> records[u].phase == Started
      ensures r == Error(StartFailed) ==> u in records && records[u].gen == gen && records[u].phase == Failed
    {
      hide Legal, Exec, Enabled, Settled, Quiet;
      var refused;
      refused, h := CreateReserved(u, gen, identity, said);
      if refused.Some? {
        assert refused == Some(refused.value);
        return refused.value, h;
      }
      var dies: bool := *;
      if dies { return Died, h; }
      ghost var acknowledged, seen;
      r, acknowledged, seen := StartSaved(u);
      h := h.(acknowledged := acknowledged, started := seen);
    }

    /** Reserving and creating: `None` once `starting` is saved for a container that exists. */
    method CreateReserved(u: Unit, gen: Gen, identity: Identity, ghost said: Heard)
      returns (r: Option<Reply<()>>, ghost h: Heard)
      requires Valid() && Enabled(Now(), Reserve(u, gen, identity))
      requires said.create == Lost && said.created == Missing && !said.acknowledged && said.started == Missing
      modifies this`records, this`ledger, this`turns, this`engine, this`log, this`asked
      ensures Valid() && old(log) <= log && OutsideGrows()
      ensures engine.started == old(engine.started)
      ensures u in records && records[u].gen == gen && records[u].identity == identity
      ensures h == said.(create := h.create, created := h.created)
      ensures r == None ==> HasContainer(h) && Enabled(Now(), SendStart(u))
      ensures r.Some? ==> r.value in {Died, Error(StartFailed), Error(StartUncertain)}
      ensures r.Some? && r.value != Died ==> !HasContainer(h)
      ensures r == Some(Error(StartFailed)) ==> Definite(h.create) && records[u].phase == Failed && Quiet(Now(), u)
      ensures r == Some(Error(StartUncertain)) ==> !Definite(h.create)
      ensures h.create.Refused? ==> gen in engine.rejected
      ensures h.create.Made? ==> gen in engine.landed
    {
      hide Legal, Exec;
      h := said;
      FreshIsUnknown(gen);
      ReserveLaunch(u, gen, identity);
      var dies: bool := *;
      if dies { return Some(Died), h; }
      var reply := EngineCreate(u);
      dies := *;
      if dies { return Some(Died), h; }
      h := h.(create := reply);
      if !reply.Made? {
        var code;
        ghost var seen;
        code, seen := SettleCreate(u, reply);
        h := h.(created := seen);
        if code.Some? {
          assert code == Some(code.value);
          return Some(Error(code.value)), h;
        }
      }
      SaveStarting(u);
      r := None;
    }

    method SaveStarting(u: Unit)
      requires Valid() && u in records && records[u].phase == Creating && records[u].gen in engine.landed
      requires records[u].gen !in engine.started
      modifies this`records, this`log
      ensures Valid() && old(log) <= log
      ensures u in records && records[u] == old(records)[u].(phase := Starting, containerKnown := true)
      ensures Enabled(Now(), SendStart(u))
    {
      Save(u, records[u].(phase := Starting, containerKnown := true), MarkStarting(u));
    }

    /** A create without a handle: `None` when its container exists after all, otherwise the error,
        certain only for a definite refusal that left no container. */
    method SettleCreate(u: Unit, reply: CreateReply) returns (code: Option<Code>, ghost q: Query)
      requires Valid() && u in records && records[u].phase == Creating && !reply.Made?
      requires reply.Refused? ==> records[u].gen in engine.rejected
      modifies this`records, this`turns, this`engine, this`log, this`asked
      ensures Valid() && old(log) <= log
      ensures engine.started == old(engine.started)
      ensures code == None ==> records == old(records) && records[u].gen in engine.landed
      ensures code.Some? ==> code.value in {StartUncertain, StartFailed}
      ensures code == None <==> q.Present?
      ensures code == Some(StartFailed) <==> !q.Present? && Definite(reply)
      ensures code == Some(StartFailed) ==>
                u in records && records[u] == old(records)[u].(phase := Failed)
      ensures code == Some(StartUncertain) ==> records == old(records)
      ensures OutsideGrows()
    {
      var seen := QueryContainer(u);
      q := seen;
      if seen.Present? {
        return None, q;
      }
      if reply.Refused? && reply.status in {400, 401, 403, 404, 422} {
        Save(u, records[u].(phase := Failed), MarkFailed(u, Rejected));
        return Some(StartFailed), q;
      }
      code := Some(StartUncertain);
    }

    lemma FreshIsUnknown(gen: Gen)
      requires Valid() && gen !in ledger
      ensures gen !in engine.created && gen !in engine.started
    {
      Invariant();
      assert gen in engine.created ==> GenInv(engine, ledger, gen);
    }

    /** `container.start()` for a record already saved as `starting`. */
    method StartSaved(u: Unit) returns (r: Reply<()>, ghost heard: bool, ghost q: Query)
      requires Valid() && u in records && Enabled(Now(), SendStart(u))
      modifies this`records, this`turns, this`engine, this`log, this`asked
      ensures Valid() && old(log) <= log
      ensures engine.started == old(engine.started) + {old(records[u].gen)}
      ensures u in records && records[u].gen == old(records[u].gen)
      ensures records[u].identity == old(records[u].identity)
      ensures r.Error? ==> r.code == StartUncertain
      ensures r != Died ==> (r.Answer? <==> heard || SeenRun(q))
      ensures heard ==> old(records[u].gen) in engine.ran
      ensures r.Answer? && heard ==> records[u].phase == Started
      ensures OutsideGrows()
    {
      hide Legal, Exec;
      q := Missing;
      var acknowledged := EngineStart(u);
      heard := acknowledged;
      var dies: bool := *;
      if dies { return Died, heard, q; }
      if !acknowledged {
        var seen := QueryContainer(u);
        q := seen;
        if seen.Present? {
          ObservedKind(seen.status);
          var kind := Observe(u, seen.status);
          if kind == Active || Ended(kind) {
            return Answer(()), heard, q;
          }
        }
        return Error(StartUncertain), heard, q;
      }
      Save(u, records[u].(phase := Started), MarkStarted(u));
      r := Answer(());
    }

    /** One launch attempt for a turn whose identity has been read. */
    method StartTurn(u: Unit, gen: Gen, identity: Identity, validCommand: bool)
      returns (r: Reply<()>, ghost h: Heard)
      requires Valid() && gen !in ledger && Fence.Admitted(fence)
      requires u in turns && identity <= turns[u]
      requires u in records ==> records[u].identity <= identity
      modifies this`records, this`history, this`ledger, this`turns, this`engine, this`log, this`asked
      ensures Valid() && old(log) <= log
      ensures engine.started == old(engine.started) || engine.started == old(engine.started) + {gen}
      ensures r.Answer? ==>
                u in records && records[u].identity == identity && records[u].gen in engine.started
      ensures r.Error? ==> r.code in {StartUncertain, StartFailed, PreviousTurnActive}
      ensures r.Error? && r.code != StartUncertain ==>
                engine.started == old(engine.started) && (old(Quiet(Now(), u)) ==> Quiet(Now(), u))
      ensures r == Error(PreviousTurnActive) ==> u in records && records[u].gen in engine.ran
      ensures h.identity == Some(identity) && OutsideGrows()
      ensures r != Died ==>
                StartAnswers(r, if u in old(records) then Some(old(records)[u]) else None, identity, validCommand, h)
      ensures !validCommand || !h.image ==>
                ledger == old(ledger) && engine.created == old(engine.created) && engine.started == old(engine.started)
      ensures h.create.Refused? ==> gen in engine.rejected
    {
      hide Legal, Exec;
      h := SILENCE.(identity := Some(identity));
      ghost var seen;
      var settled;
      settled, seen := SettleEarlier(u, identity);
      h := h.(earlier := seen);
      if settled.Some? {
        RanWasStarted();
        assert settled == Some(settled.value);
        return settled.value, h;
      }
      var imagePresent: bool := *;
      h := h.(image := imagePresent);
      if !validCommand || !imagePresent {
        return Error(StartFailed), h;
      }
      var dies: bool := *;
      if dies { return Died, h; }
      r, h := LaunchReserved(u, gen, identity, h);
    }

    lemma NotAhead(u: Unit)
      requires Valid()
      ensures u in records ==> u in turns && records[u].identity <= turns[u]
    {
      Invariant();
      assert u in records ==> RecordInv(Now(), u);
    }

    /** `DockerBackend.start`. `gen` is the fresh random generation; `configured` and `validCommand`
        say whether the task's provider and the requested command pass the backend's checks.

        Any error but an uncertain one is a promise: this call asked the Engine to start nothing,
        and a unit that was quiet before it still is. */
    method Start(u: Unit, gen: Gen, configured: bool, validCommand: bool) returns (r: Reply<()>, ghost h: Heard)
      requires Valid() && gen !in ledger
      modifies this`records, this`history, this`ledger, this`turns, this`engine, this`log, this`asked
      ensures Valid() && old(log) <= log
      ensures engine.started == old(engine.started) || engine.started == old(engine.started) + {gen}
      ensures r == Error(AdmissionClosed) <==> !Fence.Admitted(fence)
      ensures !Fence.Admitted(fence) ==> unchanged(this)
      ensures r.Answer? ==>
                && u in records && records[u].gen in engine.started
                && u in turns && records[u].identity <= turns[u]
                && (u in old(turns) ==> old(turns[u]) <= records[u].identity)
      ensures r.Error? && r.code != StartUncertain ==>
                engine.started == old(engine.started) && (old(Quiet(Now(), u)) ==> Quiet(Now(), u))
      ensures r.Error? ==> r.code in {AdmissionClosed, StartUncertain, StartFailed, PreviousTurnActive}
      ensures r == Error(PreviousTurnActive) ==> u in records && records[u].gen in engine.ran
      ensures h.identity.Some? ==> u in turns && h.identity.value <= turns[u]
      ensures u in old(turns) ==> Fence.Admitted(fence) && configured ==> h.identity.Some?
      ensures Fence.Admitted(fence) && (h.identity == None || !configured) ==> r == Error(StartFailed)
      ensures Fence.Admitted(fence) && h.identity.Some? && configured && r != Died ==>
                StartAnswers(r, if u in old(records) then Some(old(records)[u]) else None,
                             h.identity.value, validCommand, h)
      ensures h.identity == None || !configured || !validCommand || !h.image ==>
                ledger == old(ledger) && engine.created == old(engine.created) && engine.started == old(engine.started)
      ensures h.create.Refused? ==> gen in engine.rejected
    {
      hide Legal, Exec;
      h := SILENCE;
      if !Fence.Admitted(fence) {
        return Error(AdmissionClosed), h;
      }
      Interfere();
      if u !in turns || !configured {
        return Error(StartFailed), h;
      }
      NotAhead(u);
      r, h := StartTurn(u, gen, turns[u], validCommand);
      NotAhead(u);
    }

    lemma RanWasStarted()
      requires Valid()
      ensures engine.ran <= engine.started
    {
      Invariant();
      forall g | g in engine.ran ensures g in engine.started {
        assert GenInv(engine, ledger, g);
      }
    }

    // -- observing and cleaning up ----------------------------------------------------------------

    /** `DockerBackend.show`. An answer is never a guess: "not found" or an ended state means no
        process of the unit runs or can still start; everything unsettled is an uncertain error. */
    method Show(u: Unit) returns (r: Reply<UnitState>, ghost q: Query)
      requires Valid()
      modifies this`records, this`turns, this`engine, this`log, this`asked
      ensures Valid() && old(log) <= log && engine.started == old(engine.started)
      ensures r.Answer? ==> KindOf(r.value) == NotFound || KindOf(r.value) == Active || Ended(KindOf(r.value))
      ensures r.Answer? && KindOf(r.value) != Active ==> Quiet(Now(), u)
      ensures old(Quiet(Now(), u)) ==> Quiet(Now(), u)
      ensures ledger == old(ledger) && fence == old(fence)
      ensures r.Answer? && KindOf(r.value) == Active ==> u in records && records[u].gen in engine.ran
      ensures r.Answer? && Ended(KindOf(r.value)) ==> u in records && records[u].gen in engine.ran
      ensures r.Error? ==> r.code in {QueryFailed, StartUncertain}
      ensures records.Keys == old(records.Keys)
      ensures u !in old(records) ==> r == Answer(NOT_FOUND)
      ensures u in old(records) && q.Unreadable? ==> r == Error(QueryFailed)
      ensures u in old(records) && q.Present? ==>
                r == if q.status.Up? || q.status.Down? then Answer(Observed(q.status)) else Error(StartUncertain)
      ensures u in old(records) && q.Missing? ==>
                var before := old(records)[u];
                r == if before.phase == Failed then Answer(NOT_FOUND)
                     else if Settled(before.phase) && before.evidence.Some? then Answer(before.evidence.value)
                     else Error(StartUncertain)
    {
      hide Legal, Exec;
      q := Missing;
      if u !in records {
        return Answer(NOT_FOUND), q;
      }
      var seen := QueryContainer(u);
      q := seen;
      if seen.Unreadable? {
        return Error(QueryFailed), q;
      }
      if seen.Present? {
        ObservedKind(seen.status);
        QuietObserve(u, seen.status);
        var kind := Observe(u, seen.status);
        if kind == Unknown {
          return Error(StartUncertain), q;
        }
        return Answer(Observed(seen.status)), q;
      }
      var record := records[u];
      Invariant();
      assert RecordInv(Now(), u);
      if record.evidence.Some? && record.phase in {Finished, Retired} {
        return Answer(record.evidence.value), q;
      }
      if record.phase == Failed {
        return Answer(NOT_FOUND), q;
      }
      r := Error(StartUncertain);
    }

    /** `DockerBackend._signal`: stop the container and wait until Docker confirms it ended. */
    method Stop(u: Unit) returns (r: Reply<()>, ghost q: Query, ghost after: Query)
      requires Valid()
      modifies this`records, this`turns, this`engine, this`log, this`asked, this`signals
      ensures Valid() && old(log) <= log && engine.started == old(engine.started)
      ensures r.Answer? ==> Quiet(Now(), u)
      ensures r.Answer? <==>
                || u !in old(records)
                || (q.Missing? && Settled(old(records)[u].phase))
                || (q.Present? && (q.status.Down? || (after.Present? && after.status.Down?)))
      ensures r == Error(QueryFailed) <==> u in old(records) && q.Unreadable?
      ensures r.Answer? || r.Error?
      ensures u in old(records) && q.Present? && !q.status.Down? ==>
                signals == old(signals) + [old(records)[u].gen] && asked == old(asked) + 2
      ensures !(u in old(records) && q.Present? && !q.status.Down?) ==> signals == old(signals)
      ensures after.Present? ==> q.Present? && !q.status.Down?
      ensures r.Error? ==> r.code in {QueryFailed, StopFailed}
    {
      hide Legal, Exec;
      q, after := Missing, Missing;
      if u !in records {
        return Answer(()), q, after;
      }
      var seen := QueryContainer(u);
      q := seen;
      if seen.Unreadable? {
        return Error(QueryFailed), q, after;
      }
      if seen.Missing? {
        return if Settled(records[u].phase) then Answer(()) else Error(StopFailed), q, after;
      }
      if seen.status.Down? {
        var _ := Observe(u, seen.status);
        return Answer(()), q, after;
      }
      // The Engine is told to end the process and is asked again, or fails somewhere.
      seen := StopContainer(u);
      after := seen;
      if !seen.Present? {
        return Error(StopFailed), q, after;
      }
      ObservedKind(seen.status);
      var kind := Observe(u, seen.status);
      r := if kind == Active || kind == Unknown then Error(StopFailed) else Answer(());
    }

    /** `container.stop()` and the reload after it. */
    method StopContainer(u: Unit) returns (q: Query)
      requires Valid() && u in records && records[u].phase !in {Finished, Retired}
      modifies this`turns, this`engine, this`log, this`asked, this`signals
      ensures Valid() && OnlyOutside() && OutsideGrows()
      ensures engine.started == old(engine.started) && engine.created == old(engine.created)
      ensures signals == old(signals) + [records[u].gen] && asked == old(asked) + 1
      ensures q.Present? ==> Seen(engine, records[u].gen, q.status)
      ensures q.Present? && records[u].phase in {Creating, Failed} ==> !Ran(q.status)
    {
      signals := signals + [records[u].gen];
      q := QueryContainer(u);
    }

    /** `DockerBackend.reset_failed`: evidence is saved before the container is removed, and only an
        ended launch is retired. */
    method ResetFailed(u: Unit) returns (r: Reply<()>, ghost q: Query, ghost removed: bool)
      requires Valid()
      modifies this`records, this`turns, this`engine, this`log, this`asked, this`removals
      ensures Valid() && old(log) <= log && engine.started == old(engine.started)
      ensures old(Quiet(Now(), u)) ==> Quiet(Now(), u)
      ensures r.Answer? && u in records ==>
                || records[u].phase == Failed
                || (records[u].phase == Retired && records[u].evidence.Some?
                    && Ended(KindOf(records[u].evidence.value)))
                || (records[u].evidence.Some? && KindOf(records[u].evidence.value) in {Active, Unknown})
      ensures r.Error? ==> r.code in {QueryFailed, StartUncertain}
      ensures u !in old(records) ==> r.Answer? && records == old(records)
      ensures removed ==> u in old(records) && q.Present? && q.status.Down?
      ensures u in old(records) && q.Present? && q.status.Down? && r != Died ==>
                removals == old(removals) + [old(records)[u].gen]
      ensures !(q.Present? && q.status.Down?) ==> removals == old(removals)
      ensures u in old(records) && r != Died ==>
                var before := old(records)[u];
                && u in records
                && (r == Error(QueryFailed) <==> q.Unreadable? || (q.Present? && q.status.Down? && !removed))
                && (r == Error(StartUncertain) <==> q.Missing? && !Settled(before.phase))
                && (q.Present? && !q.status.Down? ==>
                      r.Answer? && records[u] == ObservedRecord(before, q.status))
                && (r.Answer? && !(q.Present? && !q.status.Down?) ==>
                      records[u].phase == if before.phase == Failed && q.Missing? then Failed else Retired)
    {
      hide Legal, Exec;
      q, removed := Missing, false;
      if u !in records {
        return Answer(()), q, removed;
      }
      var seen := QueryContainer(u);
      q := seen;
      if seen.Unreadable? {
        return Error(QueryFailed), q, removed;
      }
      if seen.Present? {
        ObservedKind(seen.status);
        QuietObserve(u, seen.status);
        var kind := Observe(u, seen.status);
        if kind == Active || kind == Unknown {
          return Answer(()), q, removed;
        }
        var dies: bool := *;
        if dies { return Died, q, removed; }
        var gone := RemoveContainer(u);
        removed := gone;
        if !gone {
          return Error(QueryFailed), q, removed;
        }
        dies := *;
        if dies { return Died, q, removed; }
      } else if !Settled(records[u].phase) {
        return Error(StartUncertain), q, removed;
      }
      RetireSettled(u);
      r := Answer(());
    }

    method RetireSettled(u: Unit)
      requires Valid() && u in records && Settled(records[u].phase)
      modifies this`records, this`log
      ensures Valid() && old(log) <= log
      ensures u in records
      ensures records[u].phase == if old(records)[u].phase == Failed then Failed else Retired
      ensures records[u].phase == Retired ==>
                records[u].evidence.Some? && Ended(KindOf(records[u].evidence.value))
    {
      hide Legal, Exec;
      if records[u].phase != Failed {
        Save(u, records[u].(phase := Retired), Launch.Retire(u));
      }
      Invariant();
      assert RecordInv(Now(), u);
    }

    /** `container.remove()`, which may fail and may find nothing left to remove. It may be called only
        once the record durably holds how the container ended. */
    method RemoveContainer(u: Unit) returns (removed: bool)
      requires Valid() && u in records && records[u].phase == Finished
      requires records[u].evidence.Some? && Ended(KindOf(records[u].evidence.value))
      modifies this`turns, this`engine, this`log, this`removals
      ensures Valid() && OnlyOutside()
      ensures engine.started == old(engine.started)
      ensures removals == old(removals) + [records[u].gen]
    {
      hide Legal, Exec;
      Interfere();
      removals := removals + [records[u].gen];
      removed := *;
      if removed && records[u].gen in engine.containers {
        OutsideMove(ContainerGone(records[u].gen));
      }
    }

    // -- recovery of launches that never ran ------------------------------------------------------

    /** `recover_failed_create`: with admission closed first, retire one create only on the Engine's
        own event that this exact generation was destroyed. */
    method RecoverFailedCreate(u: Unit)
      returns (r: Reply<UnitState>, ghost q: Query, ghost events: Option<bool>, ghost again: Query)
      requires Valid()
      modifies this`records, this`fence, this`turns, this`engine, this`log, this`asked
      ensures Valid() && old(log) <= log && engine.started == old(engine.started)
      ensures !Fence.Admitted(fence) && fence == old(fence).(admission := Some(false))
      ensures r.Answer? ==>
                && u in old(records) && old(records)[u].phase == Creating
                && records == old(records)[u := old(records)[u].(phase := Failed)]
                && records[u].gen in engine.destroyed && KindOf(r.value) == NotFound
      ensures !r.Answer? ==> records == old(records)
      ensures r.Error? ==> r.code in {RecoveryInvalid, RecoveryUnproven, QueryFailed}
      ensures r == Error(RecoveryInvalid) <==> u !in old(records) || old(records)[u].phase != Creating
      ensures r.Answer? ==> asked == old(asked) + 2
      ensures events == Some(true) ==> u in old(records) && old(records)[u].gen in engine.destroyed
      ensures u in old(records) && old(records)[u].phase == Creating && r != Died ==>
                && (r.Answer? <==> q.Missing? && events == Some(true) && again.Missing?)
                && (r == Error(QueryFailed) <==>
                      q.Unreadable? || (q.Missing? && (events == None || (events == Some(true) && again.Unreadable?))))
    {
      hide Legal, Exec;
      q, events, again := Missing, None, Missing;
      WriteFence(Fence.WriteAdmission(false));
      if u !in records || records[u].phase != Creating {
        return Error(RecoveryInvalid), q, events, again;
      }
      var seen := QueryContainer(u);
      q := seen;
      if !seen.Missing? {
        return Error(if seen.Present? then RecoveryUnproven else QueryFailed), q, events, again;
      }
      var eventsReadable: bool := *;
      if !eventsReadable {
        return Error(QueryFailed), q, events, again;
      }
      var eventsHaveRoom: bool := *;
      var found := eventsHaveRoom && records[u].gen in engine.destroyed;
      events := Some(found);
      if !found {
        return Error(RecoveryUnproven), q, events, again;
      }
      seen := QueryContainer(u);
      again := seen;
      if !seen.Missing? {
        return Error(if seen.Present? then RecoveryUnproven else QueryFailed), q, events, again;
      }
      var dies: bool := *;
      if dies { return Died, q, events, again; }
      Save(u, records[u].(phase := Failed), MarkFailed(u, Destroyed));
      r := Answer(NOT_FOUND);
    }

    /** `recover_absent_launch`: an attested fallback for an hour-old worker create of a cancelled
        task that never started and for which the Engine holds no container under any label.
        `unlabelled` is what the two label listings say, unknown when one of them fails. */
    method RecoverAbsentLaunch(u: Unit, isWorker: bool, ageSeconds: nat, task: TaskFacts,
        unlabelled: Option<bool>)
      returns (r: Reply<UnitState>, ghost q: Query)
      requires Valid()
      modifies this`records, this`fence, this`turns, this`engine, this`log, this`asked
      ensures Valid() && old(log) <= log && engine.started == old(engine.started)
      ensures !Fence.Admitted(fence) && fence == old(fence).(admission := Some(false))
      ensures r.Answer? ==>
                && u in old(records) && old(records)[u].phase == Creating && isWorker
                && ABSENT_LAUNCH_MIN_AGE_S <= ageSeconds
                && task == TaskFacts(true, false, 0) && unlabelled == Some(true)
                && records == old(records)[u := old(records)[u].(phase := Failed)]
                && KindOf(r.value) == NotFound
      ensures !r.Answer? ==> records == old(records)
      ensures r != Died ==>
                var creating := u in old(records) && old(records)[u].phase == Creating && isWorker;
                var old_enough := ABSENT_LAUNCH_MIN_AGE_S <= ageSeconds;
                && (r == Error(RecoveryInvalid) <==> !creating || (old_enough && task.NoTask?))
                && (r == Error(RecoveryTooRecent) <==> creating && !old_enough)
                && (r == Error(RecoveryNotCancelled) <==>
                      creating && old_enough && task.TaskFacts? && !task.cancelling)
                && (r == Error(RecoveryTaskStarted) <==>
                      creating && old_enough && task.TaskFacts? && task.cancelling
                      && (task.everStarted || task.endedTurns > 0))
                && (creating && old_enough && task == TaskFacts(true, false, 0) ==>
                      && (r.Answer? <==> q.Missing? && unlabelled == Some(true))
                      && (r == Error(QueryFailed) <==> q.Unreadable? || (q.Missing? && unlabelled == None))
                      && (r == Error(RecoveryUnproven) <==> q.Present? || (q.Missing? && unlabelled == Some(false))))
    {
      hide Legal, Exec;
      q := Missing;
      WriteFence(Fence.WriteAdmission(false));
      if u !in records || records[u].phase != Creating || !isWorker {
        return Error(RecoveryInvalid), q;
      }
      if ageSeconds < ABSENT_LAUNCH_MIN_AGE_S {
        return Error(RecoveryTooRecent), q;
      }
      if task.NoTask? {
        return Error(RecoveryInvalid), q;
      }
      if !task.cancelling {
        return Error(RecoveryNotCancelled), q;
      }
      if task.everStarted || task.endedTurns > 0 {
        return Error(RecoveryTaskStarted), q;
      }
      var seen := QueryContainer(u);
      q := seen;
      if !seen.Missing? {
        return Error(if seen.Present? then RecoveryUnproven else QueryFailed), q;
      }
      if unlabelled == None {
        return Error(QueryFailed), q;
      }
      if !unlabelled.value {
        return Error(RecoveryUnproven), q;
      }
      var dies: bool := *;
      if dies { return Died, q; }
      Save(u, records[u].(phase := Failed), MarkFailed(u, Absent));
      r := Answer(NOT_FOUND);
    }

    // -- the fence ----------------------------------------------------------------------------------

    method SetAdmission(open: bool) returns (r: Reply<()>)
      requires Valid()
      modifies this`fence, this`log
      ensures Valid() && old(log) <= log
      ensures r == Error(MaintenanceActive) <==> open && Fence.Held(old(fence))
      ensures r.Error? ==> r.code == MaintenanceActive && fence == old(fence)
      ensures r.Answer? ==> fence == old(fence).(admission := Some(open))
      ensures r.Died? ==> fence == old(fence) || fence == old(fence).(admission := Some(open))
    {
      if open && Fence.Held(fence) {
        return Error(MaintenanceActive);
      }
      var dies: bool := *;
      if dies { return Died; }
      WriteFence(Fence.WriteAdmission(open));
      dies := *;
      r := if dies then Died else Answer(());
    }

    /** `maintenance_acquire`: the owner record is written before the operator's boolean, so dying in
        between leaves the fence either untouched or fully in the owner's hands. */
    method MaintenanceAcquire(owner: Fence.Owner) returns (r: Reply<()>)
      requires Valid()
      modifies this`fence, this`log
      ensures Valid() && old(log) <= log
      ensures r == Error(MaintenanceActive) <==>
                Fence.Held(old(fence)) && !Fence.HeldBy(old(fence), owner)
      ensures r == Error(AdmissionClosed) <==> !Fence.Held(old(fence)) && !Fence.Admitted(old(fence))
      ensures r.Error? ==> r.code in {MaintenanceActive, AdmissionClosed} && fence == old(fence)
      ensures r.Answer? ==> Fence.HeldBy(fence, owner) && fence.admission == Some(false)
      ensures r.Died? ==> fence == old(fence) || Fence.HeldBy(fence, owner)
      ensures fence.submissions == old(fence).submissions
    {
      if Fence.Held(fence) && !Fence.HeldBy(fence, owner) {
        return Error(MaintenanceActive);
      }
      if !Fence.Held(fence) && !Fence.Admitted(fence) {
        return Error(AdmissionClosed);
      }
      var dies: bool := *;
      if dies { return Died; }
      WriteFence(Fence.Acquire(owner));
      dies := *;
      if dies { return Died; }
      WriteFence(Fence.WriteAdmission(false));
      r := Answer(());
    }

    /** `maintenance_release`: completes only with no submission in flight, opens nothing before the
        owner record goes inactive, and when repeated after it completed writes nothing at all. */
    method MaintenanceRelease(owner: Fence.Owner, reopen: bool) returns (r: Reply<()>)
      requires Valid()
      modifies this`fence, this`log
      ensures Valid() && old(log) <= log
      ensures r.Answer? ==> !Fence.Held(fence) && Fence.Admitted(fence) == reopen
      ensures r.Answer? && Fence.Held(old(fence)) ==>
                Fence.HeldBy(old(fence), owner) && old(fence).submissions == {}
      ensures r == Error(MaintenanceOwner) <==>
                old(fence).maintenance == None || old(fence).maintenance.value.owner != owner
      ensures r == Error(SubmissionActive) <==>
                Fence.HeldBy(old(fence), owner) && old(fence).submissions != {}
      ensures r == Error(AdmissionClosed) <==>
                && old(fence).maintenance.Some? && old(fence).maintenance.value.owner == owner
                && !Fence.Held(old(fence)) && Fence.Admitted(old(fence)) != reopen
      ensures r.Error? ==> r.code in {MaintenanceOwner, SubmissionActive, AdmissionClosed}
      ensures r.Error? || !Fence.Held(old(fence)) ==> fence == old(fence)
      ensures r.Died? ==> fence == old(fence) || Fence.HeldBy(fence, owner)
      ensures fence.submissions == old(fence).submissions
    {
      if fence.maintenance == None || fence.maintenance.value.owner != owner {
        return Error(MaintenanceOwner);
      }
      if !fence.maintenance.value.active {
        return if Fence.Admitted(fence) != reopen then Error(AdmissionClosed) else Answer(());
      }
      if fence.submissions != {} {
        return Error(SubmissionActive);
      }
      var dies: bool := *;
      if dies { return Died; }
      WriteFence(Fence.ReopenByOwner(owner, reopen));
      dies := *;
      if dies { return Died; }
      WriteFence(Fence.Release(owner));
      r := Answer(());
    }

    method SubmissionBegin(token: Fence.Owner) returns (r: Reply<()>)
      requires Valid()
      modifies this`fence, this`log
      ensures Valid() && old(log) <= log
      ensures r == Error(AdmissionClosed) <==> !Fence.Admitted(old(fence))
      ensures r.Answer? ==> Fence.Admitted(fence) && token !in old(fence).submissions
                            && fence == old(fence).(submissions := old(fence).submissions + {token})
      ensures r.Error? ==> r.code in {AdmissionClosed, SubmissionActive} && fence == old(fence)
      ensures r == Error(SubmissionActive) <==> Fence.Admitted(old(fence)) && token in old(fence).submissions
      ensures r.Died? ==> fence == old(fence)
    {
      if !Fence.Admitted(fence) {
        return Error(AdmissionClosed);
      }
      if token in fence.submissions {
        return Error(SubmissionActive);
      }
      var dies: bool := *;
      if dies { return Died; }
      WriteFence(Fence.Begin(token));
      r := Answer(());
    }

    method SubmissionEnd(token: Fence.Owner)
      requires Valid()
      modifies this`fence, this`log
      ensures Valid() && old(log) <= log
      ensures fence == old(fence).(submissions := old(fence).submissions - {token})
    {
      WriteFence(Fence.End(token));
    }
  }
}
