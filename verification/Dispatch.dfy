/** The dispatcher's side of a launch: the controller is called over a socket whose reply can be
    lost, and a provider lease is held from before the launch until its outcome is certain. */
module Dispatch {
  import opened Wrappers
  import opened Units
  import Fence
  import opened Launch
  import opened LaunchProperties
  import opened DockerUnits

  /** The code of a failed call as the caller sees it: the backend's own, or one the transport and
      the controller's outer handler make up. */
  datatype ClientCode =
    | UnitCode(code: Code)
    | ControlUnavailable | ControlProtocolError | ControlFailed
    | SubmissionUncertain
    | UnitTimeout

  datatype Operation = OpStart | OpShow | OpSubmissionBegin | OpOther

  /** `ControllerClient._call`: a start or a submission whose reply was lost or meaningless is
      uncertain, never failed. */
  function ClientError(op: Operation, code: ClientCode): ClientCode {
    if code in {ControlUnavailable, ControlProtocolError, ControlFailed} then
      match op
      case OpStart => UnitCode(StartUncertain)
      case OpSubmissionBegin => SubmissionUncertain
      case _ => code
    else code
  }

  predicate Uncertain(code: ClientCode) {
    code == UnitCode(StartUncertain) || code == UnitTimeout
  }

  /** What a caller can be told of one controller reply. A backend that died, and any reply lost on
      the way, reaches it as a transport error. */
  predicate Conveys<T(==)>(reply: Reply<T>, seen: Result<T, ClientCode>) {
    match seen
    case Success(v) => reply.Answer? && reply.value == v
    case Failure(code) =>
      || code in {ControlUnavailable, ControlProtocolError, ControlFailed}
      || (reply.Error? && code == UnitCode(reply.code))
  }

  /** Whatever happened to the reply of a start, an error the client calls certain is the
      controller's own certain error: a lost or failed start is never taken for a refusal. */
  lemma CertainErrorsAreTheControllers(reply: Reply<()>, seen: Result<(), ClientCode>)
    requires Conveys(reply, seen) && seen.Failure?
    requires !Uncertain(ClientError(OpStart, seen.error))
    ensures reply.Error? && reply.code != StartUncertain
    ensures ClientError(OpStart, seen.error) == UnitCode(reply.code)
  {
  }

  /** A lost or meaningless reply takes the name its operation needs; every answer keeps its own. */
  lemma LostRepliesAreNamed(op: Operation, code: ClientCode)
    ensures var lost := code in {ControlUnavailable, ControlProtocolError, ControlFailed};
            && (!lost ==> ClientError(op, code) == code)
            && (lost ==>
                  && (ClientError(op, code) == UnitCode(StartUncertain) <==> op == OpStart)
                  && (ClientError(op, code) == SubmissionUncertain <==> op == OpSubmissionBegin)
                  && (ClientError(op, code) == code <==> op == OpShow || op == OpOther))
  {
  }

  /** `signed` says that a worker process has written its pid into the lease. */
  datatype Lease = Lease(provider: string, signed: bool)

  /** Whether one more lease fits the provider's and the pool's limits. */
  predicate HasRoom(leases: map<Unit, Lease>, u: Unit, provider: string, limit: nat, totalLimit: Option<nat>) {
    && u !in leases
    && (totalLimit.Some? ==> |leases| < totalLimit.value)
    && |HeldBy(leases, provider)| < limit
  }

  function HeldBy(leases: map<Unit, Lease>, provider: string): set<Unit> {
    set v | v in leases && leases[v].provider == provider
  }

  /** There is room exactly when the task has no lease and one more would stay within both limits. */
  lemma RoomIsWithinLimits(leases: map<Unit, Lease>, u: Unit, provider: string, limit: nat, totalLimit: Option<nat>)
    ensures var more := leases[u := Lease(provider, false)];
            HasRoom(leases, u, provider, limit, totalLimit) <==>
              && u !in leases && |HeldBy(more, provider)| <= limit
              && (totalLimit.Some? ==> |more| <= totalLimit.value)
  {
    var more := leases[u := Lease(provider, false)];
    if u !in leases {
      assert HeldBy(more, provider) == HeldBy(leases, provider) + {u};
      assert more.Keys == leases.Keys + {u};
    }
  }

  datatype Outcome = Dispatched | NotNow | TaskFailed | Raised(code: ClientCode)

  class Dispatcher {
    const backend: DockerBackend
    var leases: map<Unit, Lease>

    constructor (backend: DockerBackend)
      ensures this.backend == backend && leases == map[]
    {
      this.backend := backend;
      leases := map[];
    }

    function ProviderLeases(provider: string): (units: set<Unit>)
      reads this
      ensures units <= leases.Keys
    {
      set u | u in leases && leases[u].provider == provider
    }

    /** `Store.acquire_lease`: one lease per task, within the provider's and the pool's limits. */
    method AcquireLease(u: Unit, provider: string, limit: nat, totalLimit: Option<nat>) returns (ok: bool)
      modifies this`leases
      ensures ok <==> HasRoom(old(leases), u, provider, limit, totalLimit)
      ensures leases == if ok then old(leases)[u := Lease(provider, false)] else old(leases)
    {
      if totalLimit.Some? && |leases| >= totalLimit.value {
        return false;
      }
      if |ProviderLeases(provider)| >= limit || u in leases {
        return false;
      }
      leases := leases[u := Lease(provider, false)];
      ok := true;
    }

    method ReleaseLease(u: Unit)
      modifies this`leases
      ensures leases == old(leases) - {u}
    {
      leases := leases - {u};
    }

    method CallShow(u: Unit) returns (seen: Result<UnitState, ClientCode>, ghost reply: Reply<UnitState>, ghost lost: bool)
      requires backend.Valid()
      modifies backend
      ensures backend.Valid() && backend.engine.started == old(backend.engine.started)
      ensures backend.ledger == old(backend.ledger) && backend.fence == old(backend.fence)
      ensures seen.Success? && KindOf(seen.value) != Active ==> Quiet(backend.Now(), u)
      ensures old(Quiet(backend.Now(), u)) ==> Quiet(backend.Now(), u)
      ensures Conveys(reply, seen)
      ensures lost || reply.Died? ==> seen == Failure(ControlUnavailable)
      ensures !lost && reply.Answer? ==> seen == Success(reply.value)
      ensures !lost && reply.Error? ==> seen == Failure(UnitCode(reply.code))
    {
      var answer, _ := backend.Show(u);
      var dropped: bool := *;
      reply, lost := answer, dropped;
      seen := if dropped || answer.Died? then Failure(ControlUnavailable)
              else if answer.Error? then Failure(UnitCode(answer.code))
              else Success(answer.value);
    }

    /** A start through the client: what the caller is told is the controller's answer, or uncertain. */
    method CallStart(u: Unit, gen: Gen, configured: bool)
      returns (seen: Result<(), ClientCode>, ghost reply: Reply<()>, ghost h: Heard, ghost lost: bool)
      requires backend.Valid() && gen !in backend.ledger
      modifies backend
      ensures backend.Valid() && backend.fence == old(backend.fence)
      ensures seen.Failure? && !Uncertain(seen.error) ==>
                && backend.engine.started == old(backend.engine.started)
                && (old(Quiet(backend.Now(), u)) ==> Quiet(backend.Now(), u))
      ensures seen.Success? ==> u in backend.records && backend.records[u].gen in backend.engine.started
      ensures lost || reply.Died? ==> seen == Failure(UnitCode(StartUncertain))
      ensures !lost && reply.Error? ==> seen == Failure(UnitCode(reply.code))
      ensures !lost && reply.Answer? ==> seen.Success?
      ensures seen.Failure? ==>
                seen.error in {UnitCode(AdmissionClosed), UnitCode(PreviousTurnActive), UnitCode(StartFailed), UnitCode(StartUncertain)}
      ensures seen == Failure(UnitCode(AdmissionClosed)) ==> !Fence.Admitted(backend.fence)
      ensures seen.Failure? && seen.error in {UnitCode(PreviousTurnActive), UnitCode(StartFailed)} ==>
                Fence.Admitted(backend.fence)
      ensures seen == Failure(UnitCode(PreviousTurnActive)) ==>
                u in backend.records && backend.records[u].gen in backend.engine.ran
      ensures seen == Failure(UnitCode(StartFailed)) ==>
                h.identity == None || !configured || !h.image || gen in backend.engine.rejected
    {
      var answer;
      answer, h := backend.Start(u, gen, configured, true);
      var dropped: bool := *;
      reply, lost := answer, dropped;
      if dropped || answer.Died? {
        seen := Failure(ClientError(OpStart, ControlUnavailable));
      } else if answer.Error? {
        CertainErrorsWhenTold(answer);
        seen := Failure(ClientError(OpStart, UnitCode(answer.code)));
      } else {
        seen := Success(());
      }
    }

    lemma CertainErrorsWhenTold(reply: Reply<()>)
      requires reply.Error?
      ensures !Uncertain(ClientError(OpStart, UnitCode(reply.code))) ==> reply.code != StartUncertain
    {
      var seen: Result<(), ClientCode> := Failure(UnitCode(reply.code));
      if !Uncertain(ClientError(OpStart, seen.error)) {
        CertainErrorsAreTheControllers(reply, seen);
      }
    }

    /** `_reset_stale_unit`: forget an ended earlier run; any error here leaves the lease in place. */
    method ResetStaleUnit(u: Unit)
      returns (error: Option<ClientCode>, ghost seen: Result<UnitState, ClientCode>, ghost reply: Reply<()>,
        ghost lost: bool)
      requires backend.Valid()
      modifies backend
      ensures backend.Valid() && backend.engine.started == old(backend.engine.started)
      ensures backend.ledger == old(backend.ledger) && backend.fence == old(backend.fence)
      ensures old(Quiet(backend.Now(), u)) ==> Quiet(backend.Now(), u)
      ensures error ==
              if seen.Failure? || KindOf(seen.value) in {Active, NotFound} then None
              else if lost || reply.Died? then Some(ControlUnavailable)
              else if reply.Error? then Some(UnitCode(reply.code)) else None
    {
      reply, lost, error := Died, true, None;
      var state, _, _ := CallShow(u);
      seen := state;
      if state.Success? && KindOf(state.value) != Active && KindOf(state.value) != NotFound {
        var answer, _, _ := backend.ResetFailed(u);
        var dropped: bool := *;
        reply, lost := answer, dropped;
        if dropped || answer.Died? {
          error := Some(ControlUnavailable);
        } else if answer.Error? {
          error := Some(UnitCode(answer.code));
        }
      }
    }

    /** `_start_worker_admitted`. `admitted` is the admission poll's answer, `eligible` whether the
        task is still dispatchable on its provider, `continued` whether a continuation cleared the
        task's unit name.

        A lease this call takes is given up again only when nothing of the unit runs or can still
        start; an uncertain launch and a successful one both keep it. The task fails exactly when the
        launch is certain to have failed; a refusal that says nothing of the task, admission closed
        or an earlier turn still running, leaves it queued. */
    method StartWorkerAdmitted(u: Unit, provider: string, gen: Gen, configured: bool, admitted: bool,
        eligible: bool, continued: bool, limit: nat, totalLimit: Option<nat>)
      returns (outcome: Outcome, ghost acquired: bool, ghost before: Result<UnitState, ClientCode>,
        ghost started: Option<Result<(), ClientCode>>, ghost unfit: Option<ClientCode>)
      requires backend.Valid() && gen !in backend.ledger
      modifies this`leases, backend
      ensures backend.Valid()
      ensures u !in leases && (acquired || u in old(leases)) ==> Quiet(backend.Now(), u)
      ensures acquired && u !in leases ==> backend.engine.started == old(backend.engine.started)
      ensures outcome == Dispatched ==>
                acquired && u in leases
                && u in backend.records && backend.records[u].gen in backend.engine.started
      ensures outcome.Raised? && acquired ==> u in leases
      ensures forall v :: v != u ==> (v in leases <==> v in old(leases))
      ensures forall v :: v != u && v in leases ==> leases[v] == old(leases)[v]
      ensures acquired && u in leases ==> leases[u] == Lease(provider, false)
      ensures acquired <==>
                && admitted && before.Success? && eligible
                && (Ended(KindOf(before.value)) || KindOf(before.value) == NotFound)
                && HasRoom(if continued && u in old(leases) && old(leases)[u].signed
                           then old(leases) - {u} else old(leases), u, provider, limit, totalLimit)
      ensures started.Some? ==> acquired
      ensures started == None && acquired ==> unfit.Some? && outcome == Raised(unfit.value)
      ensures !acquired && outcome.Raised? ==>
                outcome.code == if before.Failure? then before.error else UnitCode(StartUncertain)
      ensures outcome.Raised? && started.Some? ==> started.value == Failure(outcome.code)
      ensures outcome == Dispatched <==> started.Some? && started.value.Success?
      ensures outcome == TaskFailed <==> started == Some(Failure(UnitCode(StartFailed)))
      ensures outcome == NotNow ==>
                || !acquired
                || started in {Some(Failure(UnitCode(AdmissionClosed))), Some(Failure(UnitCode(PreviousTurnActive)))}
      ensures started in {Some(Failure(UnitCode(AdmissionClosed))), Some(Failure(UnitCode(PreviousTurnActive)))} ==>
                outcome == NotNow
      ensures !acquired ==>
                (outcome == NotNow <==>
                   || !admitted
                   || (before.Success? && KindOf(before.value) != Unknown))
      ensures outcome == TaskFailed ==> Fence.Admitted(backend.fence)
      ensures outcome == NotNow && acquired ==>
                !Fence.Admitted(backend.fence)
                || (u in backend.records && backend.records[u].gen in backend.engine.ran)
    {
      hide KindOf, Quiet, HasRoom, Fence.Admitted;
      acquired, before, started, unfit := false, Failure(ControlUnavailable), None, None;
      if !admitted {
        return NotNow, acquired, before, started, unfit;
      }
      var previous, _, _ := CallShow(u);
      before := previous;
      if previous.Failure? {
        return Raised(previous.error), acquired, before, started, unfit;
      }
      var kind := KindOf(previous.value);
      if kind == Active {
        return NotNow, acquired, before, started, unfit;
      }
      if !Ended(kind) && kind != NotFound {
        return Raised(UnitCode(StartUncertain)), acquired, before, started, unfit;
      }
      if !eligible {
        return NotNow, acquired, before, started, unfit;
      }
      if continued && u in leases && leases[u].signed {
        ReleaseLease(u);
      }
      var ok := AcquireLease(u, provider, limit, totalLimit);
      if !ok {
        return NotNow, acquired, before, started, unfit;
      }
      acquired := true;
      var stale, _, _, _ := ResetStaleUnit(u);
      unfit := stale;
      if stale.Some? {
        return Raised(stale.value), acquired, before, started, unfit;
      }
      ghost var result;
      outcome, result := LaunchLeased(u, gen, configured);
      started := Some(result);
    }

    /** The end of `_start_worker_admitted`: the start, and what becomes of the lease. */
    method LaunchLeased(u: Unit, gen: Gen, configured: bool)
      returns (outcome: Outcome, ghost started: Result<(), ClientCode>)
      requires backend.Valid() && gen !in backend.ledger && u in leases
      modifies this`leases, backend
      ensures backend.Valid()
      ensures leases == if outcome == Dispatched || outcome.Raised? then old(leases) else old(leases) - {u}
      ensures u !in leases && old(Quiet(backend.Now(), u)) ==> Quiet(backend.Now(), u)
      ensures u !in leases ==> backend.engine.started == old(backend.engine.started)
      ensures outcome == Dispatched <==> started.Success?
      ensures outcome == Dispatched ==> u in backend.records && backend.records[u].gen in backend.engine.started
      ensures outcome == TaskFailed <==> started == Failure(UnitCode(StartFailed))
      ensures outcome == NotNow <==>
                started in {Failure(UnitCode(AdmissionClosed)), Failure(UnitCode(PreviousTurnActive))}
      ensures outcome.Raised? <==> started == Failure(UnitCode(StartUncertain))
      ensures outcome.Raised? ==> started == Failure(outcome.code)
      ensures outcome == TaskFailed ==> Fence.Admitted(backend.fence)
      ensures outcome == NotNow ==>
                !Fence.Admitted(backend.fence)
                || (u in backend.records && backend.records[u].gen in backend.engine.ran)
    {
      hide Quiet, Fence.Admitted;
      var result, _, _, _ := CallStart(u, gen, configured);
      started := result;
      if result.Success? {
        return Dispatched, started;
      }
      if Uncertain(result.error) {
        return Raised(result.error), started;
      }
      ReleaseLease(u);
      outcome := if result.error in {UnitCode(AdmissionClosed), UnitCode(PreviousTurnActive)}
                 then NotNow else TaskFailed;
    }
  }
}
