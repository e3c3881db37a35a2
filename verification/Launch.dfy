/** The durable launch protocol as a labelled transition system.

    One step is one durable write, one Engine request, or one move of the world outside the
    controller. Every guard reads durable state only, so a controller that dies between two
    effects is simply a run that stops there, and a restarted one is a run that goes on. */
module Launch {
  import opened Wrappers
  import opened Units
  import Fence

  type Unit(==, !new) = string
  /** A launch generation: a fresh random identifier, naming both the reservation and its container. */
  type Gen = nat
  /** The turn a launch is for; later turns have larger identities. */
  type Identity = nat

  datatype Phase = Creating | Starting | Started | Finished | Failed | Retired

  predicate Settled(p: Phase) {
    p == Finished || p == Failed || p == Retired
  }

  datatype Record = Record(
    identity: Identity, gen: Gen, phase: Phase, containerKnown: bool, evidence: Option<UnitState>)

  /** The Docker Engine: the containers it holds, the requests still in flight, and what it has
      ever been asked or has ever done. A request in flight takes effect at most once, at any
      later time, or never. */
  datatype Engine = Engine(
    containers: map<Gen, Status>,
    creating: set<Gen>,
    starting: set<Gen>,
    created: set<Gen>,
    landed: set<Gen>,
    started: set<Gen>,
    ran: set<Gen>,
    rejected: set<Gen>,
    destroyed: set<Gen>)

  datatype Reservation = Reservation(unit: Unit, identity: Identity)

  /** `ledger` lists every reservation ever written; no controller code reads it. */
  datatype World = World(
    records: map<Unit, Record>,
    history: map<Gen, Record>,
    turns: map<Unit, Identity>,
    engine: Engine,
    fence: Fence.State,
    ledger: map<Gen, Reservation>)

  const EMPTY_ENGINE := Engine(map[], {}, {}, {}, {}, {}, {}, {}, {})
  const INITIAL := World(map[], map[], map[], EMPTY_ENGINE, Fence.OPEN, map[])

  /** Why a create was written off: the Engine refused the request, its event log shows the exact
      generation destroyed, or an operator attested an hour-old absent launch. */
  datatype Cause = Rejected | Destroyed | Absent

  datatype Step =
    // Durable writes of the controller.
    | FenceWrite(write: Fence.Step)
    | Archive(unit: Unit)
    | Reserve(unit: Unit, gen: Gen, identity: Identity)
    | MarkFailed(unit: Unit, cause: Cause)
    | MarkStarting(unit: Unit)
    | MarkStarted(unit: Unit)
    | Observe(unit: Unit, seen: Status)
    | Retire(unit: Unit)
    // Requests to the Engine.
    | SendCreate(unit: Unit)
    | SendStart(unit: Unit)
    // Moves of the world outside.
    | NewTurn(unit: Unit, identity: Identity)
    | CreateLands(gen: Gen)
    | CreateLost(gen: Gen)
    | CreateRejected(gen: Gen)
    | StartLands(gen: Gen)
    | StartLost(gen: Gen)
    | ContainerMoves(gen: Gen, status: Status)
    | ContainerGone(gen: Gen)

  predicate Outside(s: Step) {
    s.NewTurn? || s.CreateLands? || s.CreateLost? || s.CreateRejected? || s.StartLands?
    || s.StartLost? || s.ContainerMoves? || s.ContainerGone?
  }

  /** The statuses one container status can be followed by. A container that ran ends terminal and
      stays so until it is removed; one that never ran never becomes terminal. */
  predicate CanBecome(before: Status, after: Status) {
    && WellNamed(after)
    && match before
       case Created => after.Other? && !after.ran
       case Up(_) => after.Up? || after.Down? || (after.Other? && after.ran)
       case Down(_, _, _) => false
       case Other(_, ran) => (after.Other? && after.ran == ran) || (ran && after.Down?)
  }

  /** Whether a status read from the Engine some time ago can still be told of this generation:
      what has run has run, and what was terminal is terminal or gone. */
  predicate Seen(e: Engine, g: Gen, s: Status) {
    && WellNamed(s) && g in e.landed
    && (Ran(s) ==> g in e.ran)
    && (s.Down? ==> g in e.containers ==> e.containers[g].Down?)
  }

  predicate OutsideEnabled(w: World, s: Step)
    requires Outside(s)
  {
    var e := w.engine;
    match s
    case NewTurn(u, i) => u in w.turns ==> w.turns[u] < i
    case CreateLands(g) => g in e.creating
    case CreateLost(g) => g in e.creating
    case CreateRejected(g) => g in e.creating
    case StartLands(g) => g in e.starting && g in e.containers && e.containers[g] == Created
    case StartLost(g) => g in e.starting
    case ContainerMoves(g, after) => g in e.containers && CanBecome(e.containers[g], after)
    case ContainerGone(g) => g in e.containers
  }

  predicate Enabled(w: World, s: Step) {
    if Outside(s) then OutsideEnabled(w, s) else
    if s.FenceWrite? then Fence.Enabled(w.fence, s.write) else
    if s.Reserve? then
      && Fence.Admitted(w.fence)
      && s.gen !in w.ledger
      && s.unit in w.turns && s.identity <= w.turns[s.unit]
      && (s.unit in w.records ==>
            var r := w.records[s.unit];
            && Settled(r.phase)
            && r.identity <= s.identity
            && (r.identity == s.identity ==> r.phase == Failed)
            && r.gen in w.history && w.history[r.gen] == r)
    else
      && s.unit in w.records
      && var r := w.records[s.unit];
         var e := w.engine;
         match s
         case Archive(_) => true
         case MarkFailed(_, cause) =>
           && r.phase == Creating
           && (cause == Rejected ==> r.gen in e.rejected)
           && (cause == Destroyed ==> r.gen in e.destroyed)
         case MarkStarting(_) => r.phase == Creating && r.gen in e.landed
         case MarkStarted(_) => r.phase == Starting && r.gen in e.started
         case Observe(_, seen) =>
           Seen(e, r.gen, seen) && (r.phase == Finished || r.phase == Retired ==> seen.Down?)
         case Retire(_) => r.phase == Finished || r.phase == Retired
         case SendCreate(_) => r.phase == Creating && r.gen !in e.created
         case SendStart(_) => r.phase == Starting && r.gen !in e.started
         case _ => false
  }

  /** The record `_observe` saves: the container's state as evidence, and `finished` once the
      container is terminal. */
  function ObservedRecord(r: Record, s: Status): Record {
    r.(containerKnown := true, evidence := Some(Observed(s)),
       phase := if s.Down? then Finished else r.phase)
  }

  function WithPhase(w: World, u: Unit, p: Phase): World
    requires u in w.records
  {
    w.(records := w.records[u := w.records[u].(phase := p)])
  }

  function ApplyEngine(e: Engine, s: Step): Engine {
    match s
    case CreateLands(g) =>
      e.(creating := e.creating - {g}, landed := e.landed + {g}, containers := e.containers[g := Created])
    case CreateLost(g) => e.(creating := e.creating - {g})
    case CreateRejected(g) => e.(creating := e.creating - {g}, rejected := e.rejected + {g})
    case StartLands(g) =>
      e.(starting := e.starting - {g}, containers := e.containers[g := Up("running")], ran := e.ran + {g})
    case StartLost(g) => e.(starting := e.starting - {g})
    case ContainerMoves(g, after) => e.(containers := e.containers[g := after])
    case ContainerGone(g) => e.(containers := e.containers - {g}, destroyed := e.destroyed + {g})
    case _ => e
  }

  function Apply(w: World, s: Step): World
    requires Enabled(w, s)
  {
    match s
    case FenceWrite(write) => w.(fence := Fence.Apply(w.fence, write))
    case NewTurn(u, i) => w.(turns := w.turns[u := i])
    case Archive(u) => w.(history := w.history[w.records[u].gen := w.records[u]])
    case Reserve(u, g, i) =>
      w.(records := w.records[u := Record(i, g, Creating, false, None)],
         ledger := w.ledger[g := Reservation(u, i)])
    case MarkFailed(u, _) => WithPhase(w, u, Failed)
    case MarkStarting(u) =>
      w.(records := w.records[u := w.records[u].(phase := Starting, containerKnown := true)])
    case MarkStarted(u) => WithPhase(w, u, Started)
    case Observe(u, seen) => w.(records := w.records[u := ObservedRecord(w.records[u], seen)])
    case Retire(u) => WithPhase(w, u, Retired)
    case SendCreate(u) =>
      var g := w.records[u].gen;
      w.(engine := w.engine.(created := w.engine.created + {g}, creating := w.engine.creating + {g}))
    case SendStart(u) =>
      var g := w.records[u].gen;
      w.(engine := w.engine.(started := w.engine.started + {g}, starting := w.engine.starting + {g}))
    case _ => w.(engine := ApplyEngine(w.engine, s))
  }

  /** `steps` is a run of the system from `w`. */
  predicate Legal(w: World, steps: seq<Step>)
    decreases |steps|, 0
  {
    steps == [] ||
    var front := steps[..|steps| - 1];
    Legal(w, front) && Enabled(Exec(w, front), steps[|steps| - 1])
  }

  function Exec(w: World, steps: seq<Step>): World
    requires Legal(w, steps)
    decreases |steps|, 1
  {
    if steps == [] then w
    else Apply(Exec(w, steps[..|steps| - 1]), steps[|steps| - 1])
  }

  lemma {:induction false} LegalConcat(w: World, a: seq<Step>, b: seq<Step>)
    requires Legal(w, a) && Legal(Exec(w, a), b)
    ensures Legal(w, a + b) && Exec(w, a + b) == Exec(Exec(w, a), b)
    decreases |b|
  {
    if b == [] {
      assert a + b == a;
    } else {
      var front := b[..|b| - 1];
      LegalConcat(w, a, front);
      assert (a + b)[..|a + b| - 1] == a + front;
    }
  }

  lemma {:induction false} LegalPrefix(w: World, steps: seq<Step>, k: nat)
    requires Legal(w, steps) && k <= |steps|
    ensures Legal(w, steps[..k])
    decreases |steps|
  {
    if k < |steps| {
      var front := steps[..|steps| - 1];
      LegalPrefix(w, front, k);
      assert front[..k] == steps[..k];
    } else {
      assert steps[..k] == steps;
    }
  }

  // -- the invariant ------------------------------------------------------------------------

  /** No process of this generation runs, and no start request for it is in flight. */
  predicate Dead(e: Engine, g: Gen) {
    g !in e.starting && (g in e.containers ==> !Live(e.containers[g]))
  }

  /** What the Engine can hold for one generation: nothing before it was asked, at most one create
      and one start in flight, and a process only after its start landed. */
  predicate GenInv(e: Engine, ledger: map<Gen, Reservation>, g: Gen) {
    && (g in e.created ==> g in ledger)
    && (g in e.landed ==> g !in e.creating && g !in e.rejected)
    && (g in e.started ==> g in e.landed)
    && (g in e.starting ==> g in e.started && g !in e.ran)
    && (g in e.ran ==> g in e.started)
    && (g in e.rejected ==> g !in e.creating)
    && (g in e.destroyed ==> g in e.landed)
    && (g in e.containers ==>
          && g in e.landed && g !in e.destroyed
          && WellNamed(e.containers[g])
          && (Ran(e.containers[g]) <==> g in e.ran))
  }

  predicate EngineInv(e: Engine, ledger: map<Gen, Reservation>) {
    && (forall g :: g in e.created ==> GenInv(e, ledger, g))
    && e.landed <= e.created && e.started <= e.created && e.creating <= e.created
    && e.starting <= e.created && e.ran <= e.created && e.rejected <= e.created
    && e.destroyed <= e.created
    && e.containers.Keys <= e.created
  }

  /** What one unit's current record says about its generation, in each phase. */
  predicate RecordInv(w: World, u: Unit)
    requires u in w.records
  {
    var r := w.records[u];
    var e := w.engine;
    && r.gen in w.ledger && w.ledger[r.gen] == Reservation(u, r.identity)
    && u in w.turns && r.identity <= w.turns[u]
    && (r.phase == Creating || r.phase == Failed ==> r.gen !in e.started)
    && (r.phase == Starting ==> r.gen in e.landed)
    && (r.phase == Started ==> r.gen in e.started)
    && (r.phase == Finished || r.phase == Retired ==>
          && r.gen in e.ran
          && (r.gen in e.containers ==> e.containers[r.gen].Down?)
          && r.evidence.Some? && Ended(KindOf(r.evidence.value)))
  }

  /** A generation that is no longer its unit's current one is dead, archived, and if it was ever
      started it was for an earlier turn than the current one. */
  predicate SupersededInv(w: World, g: Gen)
    requires g in w.ledger && w.ledger[g].unit in w.records
  {
    var r := w.records[w.ledger[g].unit];
    r.gen != g ==>
      && Dead(w.engine, g)
      && (g in w.engine.started ==> w.ledger[g].identity < r.identity)
      && w.ledger[g].identity <= r.identity
      && g in w.history && w.history[g].gen == g && Settled(w.history[g].phase)
  }

  /** Different generations that were both asked to start serve different launches. */
  predicate StartsDiffer(started: set<Gen>, ledger: map<Gen, Reservation>) {
    forall g, h ::
      g in started && h in started && g != h && g in ledger && h in ledger ==> ledger[g] != ledger[h]
  }

  predicate Inv(w: World) {
    && EngineInv(w.engine, w.ledger)
    && StartsDiffer(w.engine.started, w.ledger)
    && (forall u :: u in w.records ==> RecordInv(w, u))
    && (forall g :: g in w.ledger ==> w.ledger[g].unit in w.records && SupersededInv(w, g))
    && (forall g :: g in w.history ==> w.history[g].gen == g)
  }

  lemma OutsideKeepsGen(w: World, s: Step, g: Gen)
    requires Outside(s) && OutsideEnabled(w, s) && EngineInv(w.engine, w.ledger)
    requires g in w.engine.created && GenInv(w.engine, w.ledger, g)
    ensures GenInv(ApplyEngine(w.engine, s), w.ledger, g)
  {
    var e, e' := w.engine, ApplyEngine(w.engine, s);
    if !s.NewTurn? && s.gen != g {
      assert g in e'.containers <==> g in e.containers;
      assert g in e'.containers ==> e'.containers[g] == e.containers[g];
    }
  }

  lemma OutsideKeepsEngine(w: World, s: Step)
    requires Outside(s) && Enabled(w, s) && EngineInv(w.engine, w.ledger)
    ensures EngineInv(Apply(w, s).engine, w.ledger)
  {
    var e' := ApplyEngine(w.engine, s);
    assert Apply(w, s).engine == e';
    assert e'.created == w.engine.created;
    forall g | g in e'.created ensures GenInv(e', w.ledger, g) {
      OutsideKeepsGen(w, s, g);
    }
    assert s.StartLands? ==> s.gen in w.engine.created;
  }

  lemma OutsideKeepsRecord(w: World, s: Step, u: Unit)
    requires Outside(s) && Enabled(w, s)
    requires u in w.records && RecordInv(w, u)
    requires EngineInv(w.engine, w.ledger)
    ensures RecordInv(Apply(w, s), u)
  {
    hide SupersededInv;
    assert w.records[u].gen in w.engine.created ==> GenInv(w.engine, w.ledger, w.records[u].gen);
  }

  lemma OutsideKeepsSuperseded(w: World, s: Step, g: Gen)
    requires Outside(s) && Enabled(w, s)
    requires g in w.ledger && w.ledger[g].unit in w.records && SupersededInv(w, g)
    ensures SupersededInv(Apply(w, s), g)
  {
  }

  lemma OutsidePreservesInv(w: World, s: Step)
    requires Inv(w) && Outside(s) && Enabled(w, s)
    ensures Inv(Apply(w, s))
  {
    hide RecordInv, SupersededInv, EngineInv, StartsDiffer, OutsideEnabled;
    OutsideKeepsEngine(w, s);
    assert Apply(w, s).engine.started == w.engine.started;
    forall u | u in w.records ensures RecordInv(Apply(w, s), u) {
      OutsideKeepsRecord(w, s, u);
    }
    forall g | g in w.ledger ensures SupersededInv(Apply(w, s), g) {
      OutsideKeepsSuperseded(w, s, g);
    }
  }

  lemma RecordWriteKeepsRecord(w: World, s: Step)
    requires Inv(w) && Enabled(w, s)
    requires s.MarkFailed? || s.MarkStarting? || s.MarkStarted? || s.Observe? || s.Retire?
    ensures RecordInv(Apply(w, s), s.unit)
  {
    assert RecordInv(w, s.unit);
    if s.Observe? {
      ObservedKind(s.seen);
      assert w.records[s.unit].gen in w.engine.created;
      assert GenInv(w.engine, w.ledger, w.records[s.unit].gen);
    }
  }

  lemma RecordReplacedKeepsInv(w: World, u: Unit, r: Record)
    requires Inv(w) && u in w.records
    requires r.gen == w.records[u].gen && r.identity == w.records[u].identity
    requires RecordInv(w.(records := w.records[u := r]), u)
    ensures Inv(w.(records := w.records[u := r]))
  {
    var w' := w.(records := w.records[u := r]);
    forall v | v in w'.records ensures RecordInv(w', v) {
      if v != u { assert RecordInv(w, v); }
    }
    forall g | g in w'.ledger ensures SupersededInv(w', g) {
      assert SupersededInv(w, g);
    }
  }

  lemma RecordWritePreservesInv(w: World, s: Step)
    requires Inv(w) && Enabled(w, s)
    requires s.MarkFailed? || s.MarkStarting? || s.MarkStarted? || s.Observe? || s.Retire?
    ensures Inv(Apply(w, s))
  {
    RecordWriteKeepsRecord(w, s);
    RecordReplacedKeepsInv(w, s.unit, Apply(w, s).records[s.unit]);
  }

  lemma SendKeepsStartsDiffer(w: World, s: Step)
    requires Inv(w) && Enabled(w, s) && s.SendStart?
    ensures StartsDiffer(Apply(w, s).engine.started, w.ledger)
  {
    var gen := w.records[s.unit].gen;
    assert RecordInv(w, s.unit);
    forall h | h in w.engine.started && h in w.ledger ensures w.ledger[h] != w.ledger[gen] {
      assert SupersededInv(w, h);
    }
  }

  lemma SendKeepsEngine(w: World, s: Step)
    requires Inv(w) && Enabled(w, s) && (s.SendCreate? || s.SendStart?)
    ensures EngineInv(Apply(w, s).engine, w.ledger)
  {
    hide SupersededInv, StartsDiffer;
    var w' := Apply(w, s);
    assert RecordInv(w, s.unit);
    forall g | g in w'.engine.created ensures GenInv(w'.engine, w'.ledger, g) {
      assert g in w.engine.created ==> GenInv(w.engine, w.ledger, g);
    }
  }

  lemma SendKeepsRecord(w: World, s: Step, v: Unit)
    requires Inv(w) && Enabled(w, s) && (s.SendCreate? || s.SendStart?) && v in w.records
    ensures RecordInv(Apply(w, s), v)
  {
    hide SupersededInv, StartsDiffer;
    assert RecordInv(w, v) && RecordInv(w, s.unit);
  }

  lemma SendKeepsSuperseded(w: World, s: Step, g: Gen)
    requires Inv(w) && Enabled(w, s) && (s.SendCreate? || s.SendStart?) && g in w.ledger
    ensures SupersededInv(Apply(w, s), g)
  {
    hide StartsDiffer;
    assert RecordInv(w, s.unit) && SupersededInv(w, g);
  }

  lemma SendPreservesInv(w: World, s: Step)
    requires Inv(w) && Enabled(w, s) && (s.SendCreate? || s.SendStart?)
    ensures Inv(Apply(w, s))
  {
    hide Enabled, RecordInv, SupersededInv, EngineInv, StartsDiffer;
    if s.SendStart? { SendKeepsStartsDiffer(w, s); }
    SendKeepsEngine(w, s);
    forall v | v in w.records ensures RecordInv(Apply(w, s), v) {
      SendKeepsRecord(w, s, v);
    }
    forall g | g in w.ledger ensures SupersededInv(Apply(w, s), g) {
      SendKeepsSuperseded(w, s, g);
    }
  }

  lemma ReserveKeepsRecord(w: World, s: Step, v: Unit)
    requires Inv(w) && Enabled(w, s) && s.Reserve? && v in Apply(w, s).records
    ensures RecordInv(Apply(w, s), v)
  {
    hide SupersededInv, StartsDiffer;
    if v in w.records { assert RecordInv(w, v); }
  }

  lemma ReserveKeepsSuperseded(w: World, s: Step, g: Gen)
    requires Inv(w) && Enabled(w, s) && s.Reserve? && g in Apply(w, s).ledger
    ensures var w' := Apply(w, s); w'.ledger[g].unit in w'.records && SupersededInv(w', g)
  {
    hide StartsDiffer;
    if g in w.ledger {
      assert SupersededInv(w, g) && RecordInv(w, w.ledger[g].unit);
      assert g in w.engine.created ==> GenInv(w.engine, w.ledger, g);
    }
  }

  lemma ReserveKeepsEngine(w: World, s: Step)
    requires Inv(w) && Enabled(w, s) && s.Reserve?
    ensures EngineInv(Apply(w, s).engine, Apply(w, s).ledger)
    ensures StartsDiffer(Apply(w, s).engine.started, Apply(w, s).ledger)
    ensures forall g :: g in Apply(w, s).history ==> Apply(w, s).history[g].gen == g
  {
    hide SupersededInv, RecordInv;
    var w' := Apply(w, s);
    forall g | g in w'.engine.created ensures GenInv(w'.engine, w'.ledger, g) {
      assert GenInv(w.engine, w.ledger, g);
    }
  }

  lemma ReservePreservesInv(w: World, s: Step)
    requires Inv(w) && Enabled(w, s) && s.Reserve?
    ensures Inv(Apply(w, s))
  {
    ReserveKeepsEngine(w, s);
    var w' := Apply(w, s);
    forall v | v in w'.records ensures RecordInv(w', v) {
      ReserveKeepsRecord(w, s, v);
    }
    forall g | g in w'.ledger ensures w'.ledger[g].unit in w'.records && SupersededInv(w', g) {
      ReserveKeepsSuperseded(w, s, g);
    }
    hide Enabled, Apply, RecordInv, SupersededInv, EngineInv, StartsDiffer;
  }

  /** Every step keeps the invariant. */
  lemma StepPreservesInv(w: World, s: Step)
    requires Inv(w) && Enabled(w, s)
    ensures Inv(Apply(w, s))
  {
    hide EngineInv, StartsDiffer;
    if Outside(s) {
      OutsidePreservesInv(w, s);
    } else if s.Reserve? {
      ReservePreservesInv(w, s);
    } else if s.SendCreate? || s.SendStart? {
      SendPreservesInv(w, s);
    } else if s.FenceWrite? || s.Archive? {
      var w' := Apply(w, s);
      forall v | v in w'.records ensures RecordInv(w', v) {
        assert RecordInv(w, v);
      }
      forall g | g in w'.ledger ensures SupersededInv(w', g) {
        assert SupersededInv(w, g);
      }
    } else {
      RecordWritePreservesInv(w, s);
    }
  }

  lemma {:induction false} RunPreservesInv(w: World, steps: seq<Step>)
    requires Inv(w) && Legal(w, steps)
    ensures Inv(Exec(w, steps))
    decreases |steps|
  {
    if steps != [] {
      var front := steps[..|steps| - 1];
      RunPreservesInv(w, front);
      StepPreservesInv(Exec(w, front), steps[|steps| - 1]);
    }
  }
}
