/** What one logical job looks like from outside, and how an Engine container is read as one. */
module Units {
  import opened Wrappers

  datatype UnitState = UnitState(
    loadState: string, activeState: string, subState: string, result: string, status: Option<int>)

  datatype Kind = Active | NotFound | Succeeded | OutOfMemory | Signalled | Exited | Unknown

  const NOT_FOUND := UnitState("not-found", "inactive", "dead", "unknown", None)

  function KindOf(u: UnitState): Kind {
    if u.activeState in {"activating", "active", "deactivating"} then Active
    else if u.loadState == "not-found" then NotFound
    else if u.activeState == "inactive" && u.result == "success" then Succeeded
    else if u.result == "oom-kill" then OutOfMemory
    else if u.result in {"signal", "core-dump"} then Signalled
    else if u.result in {"exit-code", "timeout"} then Exited
    else Unknown
  }

  predicate Ended(k: Kind) {
    k == Succeeded || k == OutOfMemory || k == Signalled || k == Exited
  }

  /** An Engine container's own status. `Other` is every status the controller has no rule for,
      such as one being removed; `ran` says whether its process had been started. */
  datatype Status =
    | Created
    | Up(sub: string)
    | Down(sub: string, code: Option<int>, oomKilled: bool)
    | Other(sub: string, ran: bool)

  predicate WellNamed(s: Status) {
    match s
    case Created => true
    case Up(sub) => sub in {"running", "restarting", "paused"}
    case Down(sub, _, _) => sub in {"exited", "dead"}
    case Other(sub, _) => sub !in {"created", "running", "restarting", "paused", "exited", "dead"}
  }

  /** An Engine status by its name. Whether the process had been started shows only in the container's
      own history. */
  function StatusOf(name: string, code: Option<int>, oomKilled: bool, ran: bool): (s: Status)
    ensures WellNamed(s)
  {
    if name == "created" then Created
    else if name in {"running", "restarting", "paused"} then Up(name)
    else if name in {"exited", "dead"} then Down(name, code, oomKilled)
    else Other(name, ran)
  }

  predicate Live(s: Status) {
    s.Up? || (s.Other? && s.ran)
  }

  predicate Ran(s: Status) {
    Live(s) || s.Down?
  }

  /** `DockerBackend._observe`: the unit state one container status is recorded as. */
  function Observed(s: Status): UnitState {
    match s
    case Created => UnitState("loaded", "unknown", "created", "unknown", None)
    case Up(sub) => UnitState("loaded", "active", sub, "success", None)
    case Down(sub, code, oomKilled) =>
      UnitState("loaded", if code == Some(0) then "inactive" else "failed", sub,
                if oomKilled then "oom-kill"
                else if code == Some(0) then "success"
                else if code.Some? && code.value >= 128 then "signal"
                else "exit-code",
                code)
    case Other(sub, _) => UnitState("loaded", "unknown", sub, "unknown", None)
  }

  /** Reading a container never turns doubt into an outcome: it is active exactly when the process
      is up, ended exactly when the Engine calls it terminal, and otherwise unknown, never absent. An
      ended one succeeded on exit code 0, was signalled from 128 on, and otherwise exited, unless the
      Engine says it ran out of memory; and the code itself is kept. */
  lemma ObservedKind(s: Status)
    ensures KindOf(Observed(s)) == Active <==> s.Up?
    ensures Ended(KindOf(Observed(s))) <==> s.Down?
    ensures KindOf(Observed(s)) == Unknown <==> s.Created? || s.Other?
    ensures KindOf(Observed(s)) == OutOfMemory <==> s.Down? && s.oomKilled
    ensures KindOf(Observed(s)) == Succeeded <==> s.Down? && !s.oomKilled && s.code == Some(0)
    ensures KindOf(Observed(s)) == Signalled <==>
            s.Down? && !s.oomKilled && s.code.Some? && s.code.value >= 128
    ensures KindOf(Observed(s)) == Exited <==>
            s.Down? && !s.oomKilled && (s.code.Some? ==> s.code.value != 0 && s.code.value < 128)
    ensures s.Down? ==> Observed(s).status == s.code
    ensures Observed(s).subState == (if s.Created? then "created" else s.sub)
  {
    if s.Down? {
      var r := Observed(s).result;
      assert r[0] == 'o' || r == "success" || r == "signal" || r == "exit-code";
      assert "oom-kill" != "success" && "signal" != "oom-kill" && "exit-code" != "oom-kill" by {
        assert "oom-kill"[0] == 'o';
        assert "signal"[1] == 'i' && "success"[0] == 's' && "exit-code"[0] == 'e';
      }
    }
  }

  /** What a status by its name is read as. */
  lemma ReadByName(name: string, code: Option<int>, oomKilled: bool, ran: bool)
    ensures var k := KindOf(Observed(StatusOf(name, code, oomKilled, ran)));
            && (k == Active <==> name in ["running", "restarting", "paused"])
            && (Ended(k) <==> name in ["exited", "dead"])
            && k != NotFound
            && Observed(StatusOf(name, code, oomKilled, ran)).subState == name
  {
    ObservedKind(StatusOf(name, code, oomKilled, ran));
    assert "exited" != "running" && "dead" != "running" && "exited" != "restarting";
    assert "dead" != "restarting" && "exited" != "paused" && "dead" != "paused";
    assert "created" != "running" && "created" != "restarting" && "created" != "paused";
    assert "created" != "exited" && "created" != "dead";
    hide KindOf, Observed;
  }
}
