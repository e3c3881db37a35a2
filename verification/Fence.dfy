/** The admission fence: an operator's boolean, a maintenance record with an owner, and the
    submission reservations, each its own durable file. */
module Fence {
  import opened Wrappers

  /** A token as it is stored: its SHA-256 digest, compared only for equality. */
  type Owner(==, !new) = string

  datatype Maintenance = Maintenance(active: bool, owner: Owner)

  datatype State = State(
    maintenance: Option<Maintenance>,
    admission: Option<bool>,
    submissions: set<Owner>)

  const OPEN := State(None, None, {})

  predicate Held(f: State) {
    f.maintenance.Some? && f.maintenance.value.active
  }

  predicate HeldBy(f: State, owner: Owner) {
    Held(f) && f.maintenance.value.owner == owner
  }

  /** `DockerBackend._admission`. */
  predicate Admitted(f: State) {
    !Held(f) && (f.admission == None || f.admission.value)
  }

  /** One durable file write or unlink. */
  datatype Step =
    | WriteAdmission(open: bool)
    | ReopenByOwner(owner: Owner, open: bool)
    | Acquire(owner: Owner)
    | Release(owner: Owner)
    | Begin(owner: Owner)
    | End(owner: Owner)

  /** When the controller may make each write, judged from the files alone. */
  predicate Enabled(f: State, s: Step) {
    match s
    case WriteAdmission(open) => open ==> !Held(f)
    case ReopenByOwner(owner, _) => HeldBy(f, owner) && f.submissions == {}
    case Acquire(owner) => if Held(f) then HeldBy(f, owner) else Admitted(f)
    case Release(owner) => HeldBy(f, owner) && f.submissions == {}
    case Begin(owner) => Admitted(f) && owner !in f.submissions
    case End(_) => true
  }

  function Apply(f: State, s: Step): State {
    match s
    case WriteAdmission(open) => f.(admission := Some(open))
    case ReopenByOwner(_, open) => f.(admission := Some(open))
    case Acquire(owner) => f.(maintenance := Some(Maintenance(true, owner)))
    case Release(owner) => f.(maintenance := Some(Maintenance(false, owner)))
    case Begin(owner) => f.(submissions := f.submissions + {owner})
    case End(owner) => f.(submissions := f.submissions - {owner})
  }

  /** While one owner holds the fence, no write but that owner's own release lowers it. */
  lemma OnlyTheOwnerReleases(f: State, s: Step, owner: Owner)
    requires HeldBy(f, owner) && Enabled(f, s) && s != Release(owner)
    ensures HeldBy(Apply(f, s), owner) && !Admitted(Apply(f, s))
    ensures Apply(f, s).submissions <= f.submissions && !s.Begin?
  {
  }
}
