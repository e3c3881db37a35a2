/** What the launch protocol guarantees over every run: any interleaving of controller writes,
    Engine requests, late or lost effects, and controller deaths between any two of them. */
module LaunchProperties {
  import opened Wrappers
  import opened Units
  import Fence
  import opened Launch

  lemma ReachableInv(steps: seq<Step>)
    requires Legal(INITIAL, steps)
    ensures Inv(Exec(INITIAL, steps))
  {
    RunPreservesInv(INITIAL, steps);
  }

  lemma {:induction false} RunSplit(w: World, steps: seq<Step>, k: nat)
    requires Legal(w, steps) && k <= |steps|
    ensures Legal(w, steps[..k])
    ensures Legal(Exec(w, steps[..k]), steps[k..])
    ensures Exec(Exec(w, steps[..k]), steps[k..]) == Exec(w, steps)
    decreases |steps|
  {
    if k == |steps| {
      assert steps[..k] == steps && steps[k..] == [];
    } else {
      var front := steps[..|steps| - 1];
      var tail := steps[k..];
      assert tail[..|tail| - 1] == front[k..];
      RunSplit(w, front, k);
      assert front[..k] == steps[..k];
    }
  }

  // -- at most one start per launch -----------------------------------------------------------

  /** Which launch a start request in a run is for. */
  ghost function LaunchStarted(steps: seq<Step>, i: nat): Reservation
    requires Legal(INITIAL, steps) && i < |steps| && steps[i].SendStart?
  {
    LegalPrefix(INITIAL, steps, i);
    LegalPrefix(INITIAL, steps, i + 1);
    assert steps[..i + 1][..i] == steps[..i];
    var w := Exec(INITIAL, steps[..i]);
    Reservation(steps[i].unit, w.records[steps[i].unit].identity)
  }

  /** What no step ever takes back. */
  predicate Grows(w: World, w': World) {
    && w.engine.created <= w'.engine.created
    && w.engine.landed <= w'.engine.landed
    && w.engine.started <= w'.engine.started
    && w.engine.ran <= w'.engine.ran
    && w.history.Keys <= w'.history.Keys
    && w.engine.destroyed <= w'.engine.destroyed
    && w.engine.rejected <= w'.engine.rejected
    && forall g :: g in w.ledger ==> g in w'.ledger && w'.ledger[g] == w.ledger[g]
  }

  lemma StepGrows(w: World, s: Step)
    requires Enabled(w, s)
    ensures Grows(w, Apply(w, s))
  {
  }

  lemma {:induction false} LogsOnlyGrow(w: World, steps: seq<Step>)
    requires Legal(w, steps)
    ensures Grows(w, Exec(w, steps))
    decreases |steps|
  {
    if steps != [] {
      var front := steps[..|steps| - 1];
      LogsOnlyGrow(w, front);
      StepGrows(Exec(w, front), steps[|steps| - 1]);
    }
  }

  /** After a start request, its generation is on the Engine's list of starts, under its launch. */
  lemma StartIsLogged(steps: seq<Step>, i: nat) returns (g: Gen)
    requires Legal(INITIAL, steps) && i < |steps| && steps[i].SendStart?
    ensures Legal(INITIAL, steps[..i]) && Legal(INITIAL, steps[..i + 1])
    ensures var before, after := Exec(INITIAL, steps[..i]), Exec(INITIAL, steps[..i + 1]);
            && StartsDiffer(after.engine.started, after.ledger)
            && g !in before.engine.started && g in after.engine.started
            && g in after.ledger && after.ledger[g] == LaunchStarted(steps, i)
  {
    LegalPrefix(INITIAL, steps, i);
    LegalPrefix(INITIAL, steps, i + 1);
    assert steps[..i + 1][..i] == steps[..i];
    ReachableInv(steps[..i]);
    ReachableInv(steps[..i + 1]);
    var w := Exec(INITIAL, steps[..i]);
    assert RecordInv(w, steps[i].unit);
    g := w.records[steps[i].unit].gen;
  }

  lemma GrowsBetween(steps: seq<Step>, i: nat, j: nat)
    requires Legal(INITIAL, steps) && i <= j <= |steps|
    ensures Legal(INITIAL, steps[..i]) && Legal(INITIAL, steps[..j])
    ensures Grows(Exec(INITIAL, steps[..i]), Exec(INITIAL, steps[..j]))
  {
    LegalPrefix(INITIAL, steps, j);
    assert steps[..j][..i] == steps[..i];
    RunSplit(INITIAL, steps[..j], i);
    LogsOnlyGrow(Exec(INITIAL, steps[..i]), steps[..j][i..]);
  }

  lemma LaterStartDiffers(first: World, before: World, after: World, g: Gen, h: Gen)
    requires g in first.engine.started && g in first.ledger
    requires Grows(first, before) && Grows(first, after)
    requires h !in before.engine.started && h in after.engine.started && h in after.ledger
    requires StartsDiffer(after.engine.started, after.ledger)
    ensures first.ledger[g] != after.ledger[h]
  {
  }

  lemma StartedWorldsDiffer(steps: seq<Step>, i: nat, j: nat, g: Gen, h: Gen)
    requires Legal(INITIAL, steps) && i <= j < |steps|
    requires Legal(INITIAL, steps[..i]) && Legal(INITIAL, steps[..j]) && Legal(INITIAL, steps[..j + 1])
    requires var first := Exec(INITIAL, steps[..i]);
             g in first.engine.started && g in first.ledger
    requires h !in Exec(INITIAL, steps[..j]).engine.started
    requires var after := Exec(INITIAL, steps[..j + 1]);
             h in after.engine.started && h in after.ledger && StartsDiffer(after.engine.started, after.ledger)
    ensures Exec(INITIAL, steps[..i]).ledger[g] != Exec(INITIAL, steps[..j + 1]).ledger[h]
  {
    GrowsBetween(steps, i, j);
    GrowsBetween(steps, i, j + 1);
    LaterStartDiffers(Exec(INITIAL, steps[..i]), Exec(INITIAL, steps[..j]),
                      Exec(INITIAL, steps[..j + 1]), g, h);
  }

  /** Over every run, no two start requests are ever issued for the same unit and turn. */
  lemma StartedAtMostOnce(steps: seq<Step>, i: nat, j: nat)
    requires Legal(INITIAL, steps) && i < j < |steps|
    requires steps[i].SendStart? && steps[j].SendStart?
    ensures LaunchStarted(steps, i) != LaunchStarted(steps, j)
  {
    var g := StartIsLogged(steps, i);
    var h := StartIsLogged(steps, j);
    StartedWorldsDiffer(steps, i + 1, j, g, h);
  }

  /** In every reachable state a unit has at most one running container. */
  lemma OneLiveContainerPerUnit(steps: seq<Step>, g: Gen, h: Gen)
    requires Legal(INITIAL, steps)
    requires var e := Exec(INITIAL, steps).engine;
             g in e.containers && h in e.containers && Live(e.containers[g]) && Live(e.containers[h])
    requires var w := Exec(INITIAL, steps);
             g in w.ledger && h in w.ledger && w.ledger[g].unit == w.ledger[h].unit
    ensures g == h
  {
    var w := Exec(INITIAL, steps);
    ReachableInv(steps);
    assert SupersededInv(w, g) && SupersededInv(w, h);
  }

  // -- ambiguity is never read as absence ------------------------------------------------------

  /** A record still at `creating`, or written off as `failed`, belongs to a launch whose start was
      never requested, so no process of it exists, whatever a late create does. */
  lemma UnstartedPhases(steps: seq<Step>, u: Unit)
    requires Legal(INITIAL, steps)
    requires var w := Exec(INITIAL, steps);
             u in w.records && (w.records[u].phase == Creating || w.records[u].phase == Failed)
    ensures var w := Exec(INITIAL, steps);
            var g := w.records[u].gen;
            g !in w.engine.started && Dead(w.engine, g) && g !in w.engine.ran
  {
    var w := Exec(INITIAL, steps);
    ReachableInv(steps);
    assert RecordInv(w, u);
    var g := w.records[u].gen;
    assert g in w.engine.created ==> GenInv(w.engine, w.ledger, g);
  }

  /** A unit whose current record is settled has no running process and no start in flight for any
      of its generations. */
  predicate Quiet(w: World, u: Unit) {
    u in w.records ==> Settled(w.records[u].phase)
  }

  lemma QuietMeansDead(w: World, u: Unit, g: Gen)
    requires Inv(w) && Quiet(w, u) && g in w.ledger && w.ledger[g].unit == u
    ensures Dead(w.engine, g)
  {
    assert SupersededInv(w, g) && RecordInv(w, u);
    assert g in w.engine.created ==> GenInv(w.engine, w.ledger, g);
  }

  lemma QuietStep(w: World, s: Step, u: Unit)
    requires Inv(w) && Quiet(w, u) && Enabled(w, s) && !(s.Reserve? && s.unit == u)
    ensures Quiet(Apply(w, s), u)
  {
    if u in w.records {
      assert RecordInv(w, u);
      var g := w.records[u].gen;
      assert g in w.engine.created ==> GenInv(w.engine, w.ledger, g);
    }
  }

  /** Once a unit is quiet it stays so: in every continuation, until a new launch of that unit is
      reserved, no process of any of its generations runs or can start, however late a lost request
      lands. */
  lemma {:induction false} QuietUntilReserved(w: World, steps: seq<Step>, u: Unit, g: Gen)
    requires Inv(w) && Quiet(w, u) && Legal(w, steps)
    requires forall i :: 0 <= i < |steps| ==> !(steps[i].Reserve? && steps[i].unit == u)
    ensures Inv(Exec(w, steps)) && Quiet(Exec(w, steps), u)
    ensures var w' := Exec(w, steps);
            g in w'.ledger && w'.ledger[g].unit == u ==> Dead(w'.engine, g)
    decreases |steps|
  {
    if steps != [] {
      var front, last := steps[..|steps| - 1], steps[|steps| - 1];
      QuietUntilReserved(w, front, u, g);
      QuietStep(Exec(w, front), last, u);
    }
    RunPreservesInv(w, steps);
    var w' := Exec(w, steps);
    if g in w'.ledger && w'.ledger[g].unit == u {
      QuietMeansDead(w', u, g);
    }
  }

  /** A generation the Engine refused or destroyed never has a container again. */
  lemma GoneForGood(w: World, steps: seq<Step>, g: Gen)
    requires Inv(w) && Legal(w, steps)
    requires g in w.engine.rejected || g in w.engine.destroyed
    ensures g !in Exec(w, steps).engine.containers
  {
    LogsOnlyGrow(w, steps);
    RunPreservesInv(w, steps);
    var e := Exec(w, steps).engine;
    assert GenInv(e, Exec(w, steps).ledger, g);
  }

  // -- evidence ---------------------------------------------------------------------------------

  /** A terminal record always carries terminal evidence, and it really ran, so no reachable record
      is refused as unreadable; and a generation that was replaced left a settled record behind. */
  lemma EvidenceIsKept(steps: seq<Step>, g: Gen)
    requires Legal(INITIAL, steps) && g in Exec(INITIAL, steps).ledger
    ensures var w := Exec(INITIAL, steps);
            var u := w.ledger[g].unit;
            && u in w.records
            && (w.records[u].gen == g && w.records[u].phase in {Finished, Retired} ==>
                  && g in w.engine.ran
                  && w.records[u].evidence.Some? && Ended(KindOf(w.records[u].evidence.value)))
            && (w.records[u].gen != g ==> g in w.history && Settled(w.history[g].phase))
  {
    var w := Exec(INITIAL, steps);
    ReachableInv(steps);
    assert SupersededInv(w, g) && RecordInv(w, w.ledger[g].unit);
  }

  // -- the fence over whole runs ------------------------------------------------------------------

  /** While a maintenance owner holds the fence and does not release it, in every run: admission
      stays closed, nobody else becomes the owner, no launch is reserved, no submission begins, and
      the submissions in flight only shrink. */
  lemma {:induction false} FenceHoldsThroughout(w: World, steps: seq<Step>, owner: Fence.Owner)
    requires Fence.HeldBy(w.fence, owner) && Legal(w, steps)
    requires FenceWrite(Fence.Release(owner)) !in steps
    ensures var w' := Exec(w, steps);
            && Fence.HeldBy(w'.fence, owner) && !Fence.Admitted(w'.fence)
            && w'.ledger == w.ledger
            && w'.fence.submissions <= w.fence.submissions
    ensures forall i :: 0 <= i < |steps| ==>
              !steps[i].Reserve? && !(steps[i].FenceWrite? && steps[i].write.Begin?)
    decreases |steps|
  {
    if steps != [] {
      var front, last := steps[..|steps| - 1], steps[|steps| - 1];
      FenceHoldsThroughout(w, front, owner);
      if last.FenceWrite? {
        Fence.OnlyTheOwnerReleases(Exec(w, front).fence, last.write, owner);
      }
    }
  }
}
