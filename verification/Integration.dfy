/** Accepting a candidate into the root repository: every step journalled before it happens, so an
    accept that dies anywhere is either undone or recognised as landed. */
module Integration {
  import opened Wrappers
  import opened Git

  datatype Phase = Probing | Staged | Verified | Committing | Committed

  datatype Journal = Journal(phase: Phase, target: Sha, changedPaths: set<Path>)

  /** `recover_journal`: a settled answer, or a refusal that changes nothing. */
  datatype Answer = Landed | Undone | Refused

  /** The task states an accept moves through. */
  datatype TaskState = Accepting | Accepted | ResultReady | RecoveryAmbiguous

  /** `commit_landed`. */
  predicate CommitLanded(r: Repo, target: Sha)
    requires r.head in r.commits
  {
    r.head != target && r.commits[r.head].parent == Some(target)
  }

  /** Whether `abort_staged` is allowed to touch the repository. */
  predicate AbortAllowed(r: Repo, j: Journal)
    requires r.head in r.commits
  {
    r.head == j.target && Dirty(r) <= j.changedPaths
  }

  /** What `recover_journal` answers. */
  function Recovery(r: Repo, j: Journal): Answer
    requires r.head in r.commits
  {
    if j.phase == Committed then Landed
    else if j.phase == Probing then Undone
    else if j.phase == Committing && CommitLanded(r, j.target) then Landed
    else if AbortAllowed(r, j) then Undone
    else Refused
  }

  /** Recovery undoes an accept exactly when nothing was staged, or HEAD is the target and all that is
      dirty is the candidate's; it refuses exactly when undoing could lose somebody else's work; and it
      asks the repository about nothing but a commit under way. */
  lemma UndoneExactlyWhenSafe(r: Repo, j: Journal)
    requires r.head in r.commits
    ensures Recovery(r, j) == Undone <==>
            || j.phase == Probing
            || (j.phase in {Staged, Verified, Committing} && r.head == j.target
                && forall p :: p in Dirty(r) ==> p in j.changedPaths)
    ensures Recovery(r, j) == Refused <==>
            || (j.phase in {Staged, Verified}
                && (r.head != j.target || exists p :: p in Dirty(r) && p !in j.changedPaths))
            || (j.phase == Committing
                && (if r.head == j.target then exists p :: p in Dirty(r) && p !in j.changedPaths
                    else r.commits[r.head].parent != Some(j.target)))
    ensures Recovery(r, j) == Landed <==>
            || j.phase == Committed
            || (j.phase == Committing && r.head != j.target && r.commits[r.head].parent == Some(j.target))
  {
  }

  /** The state a recovery moves an interrupted ACCEPTING task to. */
  function Settlement(r: Repo, journal: Option<Journal>): TaskState
    requires r.head in r.commits
  {
    match journal
    case None => ResultReady
    case Some(j) =>
      match Recovery(r, j)
      case Landed => Accepted
      case Undone => ResultReady
      case Refused => RecoveryAmbiguous
  }

  /** What each journal phase says about the accept's own commit, `made`, and about `entry`, HEAD as
      `commit_staged` found it, in every state the accept can die in. Before `committing` there is
      neither; during it HEAD is the commit or still `entry`; after it the commit exists. */
  predicate PhaseInv(r: Repo, j: Journal, made: Option<Sha>, entry: Option<Sha>) {
    && r.head in r.commits
    && (made.Some? ==>
          made.value in r.commits && made.value != j.target
          && entry.Some? && r.commits[made.value].parent == entry)
    && (j.phase in {Probing, Staged, Verified} ==> made == None && entry == None)
    && (j.phase == Committing ==> entry.Some? && r.head == made.GetOr(entry.value))
    && (j.phase == Committed ==> made.Some?)
  }

  /** A settled task tells the truth about the repository. */
  predicate Truthful(task: TaskState, made: Option<Sha>) {
    (task == Accepted ==> made.Some?) && (task == ResultReady ==> made == None)
  }

  /** Recovery reports the candidate accepted exactly when its commit was made, at every point where
      the accept can die with its journal, except inside `commit_staged`: there a commit that was made
      is recognised exactly when HEAD was the target as it began, and one that was not is invented
      exactly when HEAD was a child of the target. */
  lemma SettlementIsExact(r: Repo, j: Journal, made: Option<Sha>, entry: Option<Sha>)
    requires PhaseInv(r, j, made, entry)
    ensures (Settlement(r, Some(j)) == Accepted <==> made.Some?)
            <==> (j.phase == Committing ==>
                    if made.Some? then entry == Some(j.target)
                    else !(entry != Some(j.target) && r.commits[entry.value].parent == Some(j.target)))
  {
  }

  /** `git commit`: the whole index, on whatever HEAD is. */
  function AfterCommit(r: Repo, sha: Sha): Repo {
    r.(commits := r.commits[sha := Commit(Some(r.head), r.index)], head := sha)
  }

  /** Dying anywhere inside `commit_staged`, before the commit or after it, is told apart rightly if
      and only if HEAD was the target when it began. */
  lemma RecognisedIffOnTarget(r: Repo, target: Sha, owned: set<Path>, sha: Sha)
    requires r.head in r.commits && sha !in r.commits && sha != target
    ensures var j := Journal(Committing, target, owned);
            Recovery(r, j) != Landed && Recovery(AfterCommit(r, sha), j) == Landed <==> r.head == target
  {
  }

  /** The commit is the candidate on the target if and only if HEAD is the target and the index is
      the target with the candidate applied at the moment of the commit. */
  lemma CommitIsTheCandidateIff(r: Repo, target: Sha, candidate: Patch, sha: Sha)
    requires target in r.commits && sha !in r.commits
    ensures var made := AfterCommit(r, sha).commits[sha];
            made == Commit(Some(target), Patched(r.commits[target].tree, candidate))
            <==> r.head == target && r.index == Patched(r.commits[target].tree, candidate)
  {
  }

  /** A path staged by somebody else between the cherry-pick and the commit is committed with it. */
  lemma StagedEditIsCommitted(target: Sha, sha: Sha, t: Tree, candidate: Patch, p: Path, c: Content)
    requires sha != target && At(Patched(t, candidate), p) != Some(c)
    ensures var staged := Patched(t, candidate);
            var r := Repo(map[target := Commit(None, t)], target, staged[p := c], staged[p := c]);
            && AfterCommit(r, sha).commits[sha].tree != staged
            && At(AfterCommit(r, sha).commits[sha].tree, p) == Some(c)
  {
    var staged := Patched(t, candidate);
    assert At(staged[p := c], p) == Some(c);
  }

  /** A commit of somebody else's on the target moves the candidate onto it; and if the accept dies
      then, recovery reports that commit as the candidate's before the candidate is committed, and
      can settle nothing after. */
  lemma MovedHeadIsCommittedOn(target: Sha, theirs: Sha, sha: Sha, t: Tree, index: Tree, owned: set<Path>)
    requires target != theirs && sha != target && sha != theirs
    ensures var r := Repo(map[target := Commit(None, t), theirs := Commit(Some(target), t)], theirs, index, index);
            var j := Journal(Committing, target, owned);
            && PhaseInv(r, j, None, Some(theirs)) && Settlement(r, Some(j)) == Accepted
            && AfterCommit(r, sha).commits[sha].parent == Some(theirs)
            && PhaseInv(AfterCommit(r, sha), j, Some(sha), Some(theirs))
            && Settlement(AfterCommit(r, sha), Some(j)) == RecoveryAmbiguous
  {
  }

  // -- recovery as a whole -----------------------------------------------------------------------

  /** What survives a death. */
  datatype Durable = Durable(repo: Repo, journal: Option<Journal>, task: TaskState)

  function Restored(r: Repo): Repo
    requires r.head in r.commits
  {
    r.(index := HeadTree(r), work := HeadTree(r))
  }

  /** One recovery, run to its end or dying once the journal is cleared. */
  function Recovered(d: Durable, dies: bool): Durable
    requires d.repo.head in d.repo.commits
  {
    match d.journal
    case None => d.(task := ResultReady)
    case Some(j) =>
      var answer := Recovery(d.repo, j);
      if answer == Refused then d.(task := RecoveryAmbiguous)
      else
        Durable(if answer == Undone && j.phase != Probing then Restored(d.repo) else d.repo, None,
                if dies then d.task else if answer == Landed then Accepted else ResultReady)
  }

  /** An undone accept that had staged anything leaves HEAD's tree and nothing else; in every other case the
      repository is left as it is, a probing journal's included, and a refusal keeps the journal. */
  lemma RecoveredRepository(d: Durable, dies: bool)
    requires d.repo.head in d.repo.commits && d.journal.Some?
    ensures var j, after := d.journal.value, Recovered(d, dies);
            && after.repo.head == d.repo.head && after.repo.commits == d.repo.commits
            && (Recovery(d.repo, j) == Undone && j.phase in {Staged, Verified, Committing} ==>
                  after.repo.index == d.repo.commits[d.repo.head].tree && after.repo.work == after.repo.index)
            && (Recovery(d.repo, j) != Undone || j.phase == Probing ==> after.repo == d.repo)
            && (after.journal == d.journal <==> Recovery(d.repo, j) == Refused)
            && (Recovery(d.repo, j) == Refused ==> after.task == RecoveryAmbiguous)
            && (!dies && Recovery(d.repo, j) == Landed ==> after.task == Accepted)
            && (!dies && Recovery(d.repo, j) == Undone ==> after.task == ResultReady)
  {
  }

  /** A recovery that dies between clearing the journal and moving the task, and is run again, ends
      as if it had not died if and only if it had not found the commit: a landed commit is then
      handed back as if it had never been made. */
  lemma InterruptedRecovery(d: Durable)
    requires d.repo.head in d.repo.commits && d.journal.Some? && d.task == Accepting
    ensures Recovered(Recovered(d, true), false) == Recovered(d, false)
            <==> Recovery(d.repo, d.journal.value) != Landed
    ensures Recovery(d.repo, d.journal.value) == Landed ==>
              && Recovered(d, false).task == Accepted
              && Recovered(Recovered(d, true), false) == Durable(d.repo, None, ResultReady)
  {
  }

  /** Such a run from a landed commit: dead once, recovered once more, the candidate is reported
      undone although it is HEAD. */
  lemma WindowMisreports(target: Sha, made: Sha, t: Tree)
    requires target != made
    ensures var r := Repo(map[target := Commit(None, map[]), made := Commit(Some(target), t)], made, t, t);
            var d := Durable(r, Some(Journal(Committing, target, t.Keys)), Accepting);
            && PhaseInv(r, d.journal.value, Some(made), Some(target))
            && Recovered(d, true) == Durable(r, None, Accepting)
            && Recovered(Recovered(d, true), false).task == ResultReady
            && !Truthful(Recovered(Recovered(d, true), false).task, Some(made))
  {
  }

  // -- the undo loop --------------------------------------------------------------------------

  /** Where `abort_staged` can stand between two of its effects: HEAD at the target, nothing dirty
      that is not the candidate's. */
  predicate Restartable(r: Repo, j: Journal) {
    r.head in r.commits && AbortAllowed(r, j)
  }

  datatype Outcome = DoneAccepted | DoneConflict | DoneFailed | Raised | Died

  /** One task's accept: the repository, the journal and the task row, and the processes that change
      them. The ghost fields remember what no code reads: the accept's own commit, HEAD when
      `commit_staged` began, the index Git committed, and whether anybody else changed the index or
      committed. */
  class Accept {
    var repo: Repo
    var journal: Option<Journal>
    var task: TaskState
    ghost var made: Option<Sha>
    ghost var entry: Option<Sha>
    ghost var asked: Option<Tree>
    ghost var touched: bool
    ghost var moved: bool

    const target: Sha
    const owned: set<Path>
    const candidate: Patch

    function Durably(): Durable
      reads this
    {
      Durable(repo, journal, task)
    }

    /** What a commit of the candidate alone would hold. */
    function Wanted(): Commit
      requires target in repo.commits
      reads this
    {
      Commit(Some(target), Patched(repo.commits[target].tree, candidate))
    }

    /** Holds wherever a recovery may begin. */
    ghost predicate Recoverable()
      reads this
    {
      && repo.head in repo.commits && target in repo.commits
      && candidate.Keys <= owned
      && (journal.Some? ==>
            && PhaseInv(repo, journal.value, made, entry)
            && journal.value.target == target && journal.value.changedPaths == owned)
      && (made.Some? ==>
            && made.value in repo.commits && entry.Some? && asked.Some?
            && repo.commits[made.value] == Commit(entry, asked.value))
    }

    /** Holds whenever the accept may die. */
    ghost predicate CrashSafe()
      reads this
    {
      && Recoverable()
      && (journal == None && task == Accepting ==> made == None)
      && Truthful(task, made)
    }

    /** A task that has just been asked to accept: journalled as `probing`, nothing touched. */
    constructor (repo: Repo, target: Sha, candidate: Patch)
      requires repo.head in repo.commits && target in repo.commits
      ensures CrashSafe() && task == Accepting && made == None && !touched && !moved
      ensures this.repo == repo && this.target == target && this.candidate == candidate
      ensures journal == Some(Journal(Probing, target, owned))
    {
      this.repo, this.target, this.candidate, this.owned := repo, target, candidate, candidate.Keys;
      journal := Some(Journal(Probing, target, candidate.Keys));
      task, made, entry, asked, touched, moved := Accepting, None, None, None, false, false;
    }

    /** The operator works on: edits anywhere in the index and the working tree, and commits of their
        own unless the accept is committing. Also what verification commands do. */
    method OperatorWorks()
      requires Recoverable()
      modifies this`repo, this`touched, this`moved
      ensures Recoverable() && (old(CrashSafe()) ==> CrashSafe())
      ensures forall c :: c in old(repo).commits ==> c in repo.commits && repo.commits[c] == old(repo).commits[c]
      ensures old(touched) ==> touched
      ensures old(moved) ==> moved
      ensures !touched ==> repo.index == old(repo).index
      ensures moved == old(moved) || !(journal.Some? && journal.value.phase == Committing)
      ensures !moved || (journal.Some? && journal.value.phase == Committing) ==>
                repo.head == old(repo).head && repo.commits == old(repo).commits
    {
      var edits: Tree := *;
      var index: Tree := *;
      touched := touched || index != repo.index;
      repo := repo.(work := edits, index := index);
      var commits: bool := *;
      var sha: Sha := *;
      var tree: Tree := *;
      if commits && sha !in repo.commits && !(journal.Some? && journal.value.phase == Committing) {
        moved := true;
        repo := repo.(commits := repo.commits[sha := Commit(Some(repo.head), tree)], head := sha);
      }
    }

    method SavePhase(phase: Phase)
      requires journal.Some? && repo.head in repo.commits
      modifies this`journal
      ensures journal == Some(old(journal).value.(phase := phase))
    {
      journal := Some(journal.value.(phase := phase));
    }

    /** `abort_staged`: refuses without touching anything, or ends exactly at the target. Dying
        inside it leaves a state from which it can simply be run again, and no path outside the
        candidate's own ever changes. */
    method AbortStaged() returns (outcome: Outcome)
      requires CrashSafe() && journal.Some? && journal.value.phase in {Staged, Verified, Committing}
      modifies this`repo
      ensures CrashSafe() && outcome in {DoneFailed, Raised, Died}
      ensures outcome == Raised <==> !AbortAllowed(old(repo), journal.value)
      ensures outcome == Raised ==> repo == old(repo)
      ensures outcome == DoneFailed ==> repo.head == target && Pristine(repo)
      ensures outcome == Died ==> Restartable(repo, journal.value)
      ensures repo.commits == old(repo).commits && repo.head == old(repo).head
      ensures AgreeOutside(repo.work, old(repo).work, owned) && AgreeOutside(repo.index, old(repo).index, owned)
    {
      if repo.head != journal.value.target {
        return Raised;
      }
      if !(Dirty(repo) <= owned) {
        return Raised;
      }
      var dies: bool := *;
      if dies { return Died; }
      ResetTouchesOnlyOwned(repo, owned);
      repo := ResetHard(repo);
      outcome := RemoveUntracked();
    }

    /** The unlink loop after the reset: only owned files are left over, and every one goes. */
    method RemoveUntracked() returns (outcome: Outcome)
      requires OnlyUntracked(repo, owned)
      modifies this`repo
      ensures outcome in {DoneFailed, Died}
      ensures repo.(work := map[]) == old(repo).(work := map[])
      ensures AgreeOutside(repo.work, old(repo).work, owned)
      ensures repo.head in repo.commits && Dirty(repo) <= owned
      ensures outcome == DoneFailed ==> Pristine(repo)
    {
      assert AgreeOutside(repo.work, old(repo).work, owned);
      hide Dirty, Untracked, OnlyUntracked, AgreeOutside;
      var paths := Untracked(repo);
      OnlyUntrackedIsOwned(repo, owned);
      var dies: bool := *;
      while paths != {}
        invariant repo.(work := map[]) == old(repo).(work := map[])
        invariant OnlyUntracked(repo, owned) && Untracked(repo) == paths
        invariant AgreeOutside(repo.work, old(repo).work, owned)
        decreases |paths|
      {
        OnlyUntrackedIsOwned(repo, owned);
        dies := *;
        if dies { return Died; }
        var path :| path in paths;
        UnlinkOne(repo, path, owned, old(repo).work);
        if path in owned {
          repo := Unlink(repo, path);
        }
        paths := paths - {path};
      }
      OnlyUntrackedIsOwned(repo, owned);
      dies := *;
      if dies { return Died; }
      outcome := DoneFailed;
    }

    /** `stage_candidate`: refuses a dirty or moved target; otherwise journals `staged` and applies
        the candidate, undoing whatever a conflict left behind. */
    method StageCandidate() returns (outcome: Outcome, ghost stopped: bool)
      requires CrashSafe() && journal == Some(Journal(Probing, target, owned)) && made == None
      modifies this`repo, this`journal
      ensures CrashSafe() && outcome in {DoneAccepted, DoneConflict, Raised, Died}
      ensures repo.commits == old(repo).commits && repo.head == old(repo).head
      ensures outcome == DoneAccepted ==>
                && repo.head == target && journal == Some(Journal(Staged, target, owned))
                && repo.index == Patched(HeadTree(repo), candidate)
                && repo.work == Patched(HeadTree(repo), candidate)
      ensures outcome == DoneConflict ==>
                journal == Some(Journal(Staged, target, owned)) && repo.head == target && Pristine(repo)
      ensures outcome == Raised <==> Dirty(old(repo)) != {} || old(repo).head != target
      ensures outcome == Raised ==> repo == old(repo) && journal == old(journal)
      ensures outcome == DoneConflict ==> stopped
      ensures stopped ==> outcome in {DoneConflict, Died}
      ensures outcome == Died ==>
                journal in {old(journal), Some(Journal(Staged, target, owned))}
                && (repo == old(repo) || Restartable(repo, journal.value))
    {
      stopped := false;
      if Dirty(repo) != {} || repo.head != target {
        return Raised, stopped;
      }
      PristineIsClean(repo);
      var dies: bool := *;
      if dies { return Died, stopped; }
      SavePhase(Staged);
      var finished := CherryPick();
      stopped := !finished;
      dies := *;
      if dies { return Died, stopped; }
      if !finished {
        outcome := AbortStaged();
        if outcome == DoneFailed { outcome := DoneConflict; }
        return;
      }
      outcome := DoneAccepted;
    }

    /** `cherry-pick --no-commit`: writes the candidate's paths only, in any order. Stopped part way,
        by a conflict or by death, any of them may have been written with anything. */
    method CherryPick() returns (finished: bool)
      requires CrashSafe() && journal == Some(Journal(Staged, target, owned))
      requires repo.head == target && Pristine(repo)
      modifies this`repo
      ensures CrashSafe() && repo.commits == old(repo).commits && repo.head == old(repo).head
      ensures finished ==> repo.index == Patched(HeadTree(repo), candidate) && repo.work == repo.index
      ensures AbortAllowed(repo, journal.value)
    {
      finished := *;
      if finished {
        var t := Patched(HeadTree(repo), candidate);
        repo := repo.(index := t, work := t);
      } else {
        var toWork: Patch := *;
        var toIndex: Patch := *;
        if toWork.Keys <= owned && toIndex.Keys <= owned {
          repo := repo.(work := Patched(repo.work, toWork), index := Patched(repo.index, toIndex));
        }
      }
    }

    /** `commit_staged`: `committing` is journalled before Git is asked. The commit's parent is
        whatever HEAD is then, its tree whatever is in the index. */
    method CommitStaged(sha: Sha) returns (outcome: Outcome, ghost refused: bool)
      requires CrashSafe() && journal == Some(Journal(Staged, target, owned))
      requires made == None && task == Accepting
      modifies this`repo, this`journal, this`made, this`entry, this`asked, this`touched, this`moved
      ensures journal.Some?
      ensures CrashSafe() && outcome in {DoneAccepted, Raised, Died}
      ensures outcome == DoneAccepted ==>
                && journal == Some(Journal(Committed, target, owned)) && made == Some(sha)
      ensures entry == if journal.value.phase == Staged then None else Some(old(repo).head)
      ensures made.Some? ==>
                && made == Some(sha) && sha !in old(repo).commits && repo.head == sha && asked.Some?
                && repo.commits == old(repo).commits[sha := Commit(Some(old(repo).head), asked.value)]
      ensures made.Some? && !touched ==> asked == Some(old(repo).index)
      ensures made == None ==> repo.commits == old(repo).commits && repo.head == old(repo).head
      ensures outcome == Raised ==> made == None && refused
      ensures refused ==> outcome == Raised
      ensures made.Some? ==> (repo.commits[sha] == Wanted()
                              <==> old(repo).head == target && asked.value == Wanted().tree)
      ensures made.Some? ==>
                (Recovery(repo, journal.value) == Landed
                 <==> journal.value.phase == Committed || old(repo).head == target)
      ensures made == None ==>
                (Recovery(repo, journal.value) == Landed
                 <==> journal.value.phase == Committing && CommitLanded(old(repo), target))
      ensures old(touched) ==> touched
      ensures old(moved) <==> moved
    {
      refused := false;
      var dies: bool := *;
      if dies { return Died, refused; }
      SavePhase(Committing);
      entry := Some(repo.head);
      OperatorWorks();
      dies := *;
      if dies { return Died, refused; }
      var succeeds: bool := *;
      if !succeeds || sha in repo.commits {
        refused := true;
        return Raised, refused;
      }
      asked := Some(repo.index);
      repo := AfterCommit(repo, sha);
      made := Some(sha);
      dies := *;
      if dies { return Died, refused; }
      SavePhase(Committed);
      outcome := DoneAccepted;
    }

    /** The journal is cleared first: dying before the task moves leaves it ACCEPTING with no
        journal and no commit, which the next recovery reads correctly. */
    method GiveBack(given: Outcome) returns (outcome: Outcome)
      requires CrashSafe() && task == Accepting && made == None
      modifies this`journal, this`task
      ensures CrashSafe() && journal == None && outcome in {given, Died}
      ensures outcome == given != Died ==> task == ResultReady
      ensures task in {Accepting, ResultReady}
    {
      journal := None;
      var dies: bool := *;
      if dies { return Died; }
      task := ResultReady;
      outcome := given;
    }

    /** `run_accept`. `probeClean` is the dry-run merge's answer, `checksPass` whether the requested
        verification passed. Wherever it dies, `CrashSafe()` holds; when it gives the candidate back
        nothing was committed. The commit is the candidate on the target exactly when Git found HEAD
        at the target and the index as staged, and so whenever nobody else touched either. */
    method RunAccept(probeClean: bool, checksPass: bool, sha: Sha)
      returns (outcome: Outcome, ghost stopped: bool, ghost refused: bool)
      requires CrashSafe() && task == Accepting && made == None && !touched && !moved
      requires journal == Some(Journal(Probing, target, owned))
      modifies this
      ensures CrashSafe()
      ensures outcome == DoneAccepted ==>
                && task == Accepted && journal == None && made == Some(sha) && repo.head == sha
      ensures made.Some? ==>
                && made == Some(sha)
                && (repo.commits[sha] == Wanted() <==> entry == Some(target) && asked == Some(Wanted().tree))
      ensures made.Some? && !moved ==> entry == Some(target)
      ensures made.Some? && !moved && !touched ==> repo.commits[sha] == Wanted()
      ensures outcome in {DoneConflict, DoneFailed} ==> made == None && journal == None && task == ResultReady
      ensures outcome == DoneConflict ==> !probeClean || stopped
      ensures outcome == DoneFailed ==>
                probeClean && (!checksPass || Dirty(old(repo)) != {} || old(repo).head != target)
      ensures outcome == Raised ==> probeClean && (refused || !checksPass)
      ensures outcome == DoneAccepted ==>
                probeClean && checksPass && Dirty(old(repo)) == {} && old(repo).head == target && !stopped && !refused
      ensures (probeClean && checksPass && Dirty(old(repo)) == {} && old(repo).head == target && !stopped && !refused
               && outcome != Died) ==> outcome == DoneAccepted
      ensures outcome == Raised ==> made == None && task == Accepting && journal.Some?
      ensures made.Some? ==> probeClean && checksPass && !stopped
      ensures stopped ==> outcome in {DoneConflict, Died}
      ensures refused ==> outcome == Raised
      ensures task != RecoveryAmbiguous
    {
      stopped, refused := false, false;
      if !probeClean {
        outcome := GiveBack(DoneConflict);
        return;
      }
      outcome, stopped := StageCandidate();
      if outcome == Died { return; }
      if outcome == Raised || outcome == DoneConflict {
        outcome := GiveBack(if outcome == DoneConflict then DoneConflict else DoneFailed);
        return;
      }
      OperatorWorks();
      if !checksPass {
        outcome := AbortStaged();
        if outcome == DoneFailed {
          outcome := GiveBack(DoneFailed);
        }
        return;
      }
      outcome, refused := CommitStaged(sha);
      if outcome != DoneAccepted { return; }
      var dies: bool := *;
      if dies { return Died, stopped, refused; }
      task := Accepted;
      dies := *;
      if dies { return Died, stopped, refused; }
      journal := None;
      outcome := DoneAccepted;
    }

    /** `_recover_accept` and the task move that follows it: run to its end, or dying anywhere. Dying
        inside the undo it can simply be run again; dying between its two writes it leaves what
        `Recovered(_, true)` says, and no path outside the candidate's own ever changes. */
    method RecoverAccept() returns (outcome: Outcome)
      requires Recoverable() && task == Accepting
      modifies this`repo, this`journal, this`task
      ensures Recoverable() && repo.head == old(repo.head) && repo.commits == old(repo.commits)
      ensures AgreeOutside(repo.work, old(repo).work, owned) && AgreeOutside(repo.index, old(repo).index, owned)
      ensures outcome in {DoneAccepted, DoneFailed, Raised, Died}
      ensures outcome != Died ==> Durably() == Recovered(old(Durably()), false)
      ensures outcome == Died ==> task == Accepting
      ensures outcome == DoneAccepted <==> task == Accepted
      ensures outcome == DoneFailed <==> task == ResultReady
      ensures outcome == Died && journal == None ==> Durably() == Recovered(old(Durably()), true)
      ensures outcome == Died && journal.Some? ==>
                journal == old(journal) && Recovery(old(repo), journal.value) == Undone
                && Recovery(repo, journal.value) == Undone
    {
      if journal == None {
        task := ResultReady;
        return DoneFailed;
      }
      var answer := Recovery(repo, journal.value);
      if answer == Undone && journal.value.phase != Probing {
        var aborted := AbortStaged();
        if aborted == Died { return Died; }
      }
      if answer == Refused {
        task := RecoveryAmbiguous;
        return Raised;
      }
      journal := None;
      var dies: bool := *;
      if dies { return Died; }
      task := if answer == Landed then Accepted else ResultReady;
      outcome := if answer == Landed then DoneAccepted else DoneFailed;
    }

    /** An accept that may die anywhere, the operator working on meanwhile, and its recovery: if Git
        was asked to commit on the target or never asked, the two are one atomic step. The task is
        accepted exactly when the commit was made, and handed back only when nothing was; and the
        commit, when nobody else touched HEAD or the index, is the candidate on the target. */
    method AcceptAndRecover(probeClean: bool, checksPass: bool, sha: Sha)
      returns (settled: bool, ghost stopped: bool, ghost refused: bool)
      requires CrashSafe() && task == Accepting && made == None && !touched && !moved
      requires journal == Some(Journal(Probing, target, owned))
      modifies this
      ensures settled <==> task != Accepting
      ensures made.Some? ==> probeClean && checksPass && !stopped
      ensures settled && entry in {None, Some(target)} ==> (task == Accepted <==> made.Some?)
      ensures settled && task == ResultReady ==> made == None
      ensures settled && task == Accepted && made == None ==>
                entry.Some? && entry.value in repo.commits && repo.commits[entry.value].parent == Some(target)
      ensures made.Some? ==>
                && made == Some(sha) && sha in repo.commits && target in repo.commits
                && (repo.commits[sha] == Wanted() <==> entry == Some(target) && asked == Some(Wanted().tree))
      ensures made.Some? && !moved && !touched ==> repo.commits[sha] == Wanted()
    {
      var outcome;
      outcome, stopped, refused := RunAccept(probeClean, checksPass, sha);
      if task == Accepting {
        OperatorWorks();
        if journal.Some? {
          SettlementIsExact(repo, journal.value, made, entry);
        }
        outcome := RecoverAccept();
        if outcome == Died { return false, stopped, refused; }
      }
      settled := true;
    }
  }
}
