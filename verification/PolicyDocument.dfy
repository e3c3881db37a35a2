/** The dispatch policy, the document it is stored as, and the intensity presets that edit it.

    The parts of a document that are copied through unread are one opaque `rest` per object. */
module PolicyDocument {
  import opened Wrappers
  import opened Escalation

  type Name(==, !new) = string
  type Opaque(==, !new) = string

  datatype Provider = Provider(rest: Opaque, maxConcurrent: Option<int>)

  datatype Role = Role(
    rest: Opaque, selections: map<Name, Selection>, ladders: map<Name, Ladder>, fanout: int)

  datatype Policy = Policy(
    rest: Opaque, providers: map<Name, Provider>, roles: map<Name, Role>, total: Option<int>,
    escalation: Rules)

  const MAX_ROLES := 32
  const MAX_CONCURRENT := 16
  const MAX_CONCURRENT_TOTAL := 48
  const MAX_FANOUT := 3

  predicate ValidLadder(l: Ladder) {
    |l.below| <= MAX_LADDER_STEPS && |l.above| <= MAX_LADDER_STEPS
  }

  predicate ValidRole(r: Role) {
    1 <= r.fanout <= MAX_FANOUT && forall n :: n in r.ladders ==> ValidLadder(r.ladders[n])
  }

  predicate ValidProvider(p: Provider) {
    p.maxConcurrent.Some? ==> 1 <= p.maxConcurrent.value <= MAX_CONCURRENT
  }

  /** The bounds the model classes enforce on the fields kept here. */
  predicate Valid(p: Policy) {
    && (forall n :: n in p.providers ==> ValidProvider(p.providers[n]))
    && |p.roles| <= MAX_ROLES && (forall n :: n in p.roles ==> ValidRole(p.roles[n]))
    && (p.total.Some? ==> 1 <= p.total.value <= MAX_CONCURRENT_TOTAL)
    && Ordered(p.escalation)
  }

  // -- the stored form --------------------------------------------------------------------------

  /** A document key that may be missing. */
  datatype Field<+T> = Absent | Given(value: T)

  datatype DocProvider = DocProvider(rest: Opaque, maxConcurrent: Field<Option<int>>)

  datatype DocRole = DocRole(
    rest: Opaque, selections: map<Name, Selection>, ladders: Field<map<Name, Ladder>>, fanout: Field<int>)

  datatype Document = Document(
    rest: Opaque, providers: map<Name, DocProvider>, roles: map<Name, DocRole>,
    total: Field<Option<int>>, escalation: Field<Rules>)

  function DumpProvider(p: Provider): DocProvider {
    DocProvider(p.rest, Given(p.maxConcurrent))
  }

  function DumpRole(r: Role): DocRole {
    DocRole(r.rest, r.selections, Given(r.ladders), Given(r.fanout))
  }

  /** `model_dump`: every field written out. */
  function Dump(p: Policy): Document {
    Document(p.rest, DumpProviders(p.providers), DumpRoles(p.roles), Given(p.total), Given(p.escalation))
  }

  function DumpProviders(ps: map<Name, Provider>): map<Name, DocProvider> {
    map n | n in ps :: DumpProvider(ps[n])
  }

  function DumpRoles(rs: map<Name, Role>): map<Name, DocRole> {
    map n | n in rs :: DumpRole(rs[n])
  }

  function NonEmpty(ladders: map<Name, Ladder>): map<Name, Ladder> {
    map n | n in ladders && (ladders[n].below != [] || ladders[n].above != []) :: ladders[n]
  }

  function StoredProvider(p: Provider): DocProvider {
    DocProvider(p.rest, if p.maxConcurrent == None then Absent else Given(p.maxConcurrent))
  }

  function StoredRole(r: Role): DocRole {
    var ladders := NonEmpty(r.ladders);
    DocRole(r.rest, r.selections,
            if ladders == map[] then Absent else Given(ladders),
            if r.fanout == 1 then Absent else Given(r.fanout))
  }

  function StoredProviders(ps: map<Name, Provider>): map<Name, DocProvider> {
    map n | n in ps :: StoredProvider(ps[n])
  }

  function StoredRoles(rs: map<Name, Role>): map<Name, DocRole> {
    map n | n in rs :: StoredRole(rs[n])
  }

  /** `_stored_document`: fields newer than the first release are left out at their defaults. */
  function Stored(p: Policy): Document {
    Document(p.rest, StoredProviders(p.providers), StoredRoles(p.roles),
             if p.total == None then Absent else Given(p.total),
             if p.escalation == DEFAULT then Absent else Given(p.escalation))
  }

  datatype Error = Invalid | UnknownProvider | NoPreset

  function ParseProvider(d: DocProvider): Provider {
    Provider(d.rest, if d.maxConcurrent.Given? then d.maxConcurrent.value else None)
  }

  function ParseRole(d: DocRole): Role {
    Role(d.rest, d.selections,
         if d.ladders.Given? then d.ladders.value else map[],
         if d.fanout.Given? then d.fanout.value else 1)
  }

  function ParseProviders(ds: map<Name, DocProvider>): map<Name, Provider> {
    map n | n in ds :: ParseProvider(ds[n])
  }

  function ParseRoles(ds: map<Name, DocRole>): map<Name, Role> {
    map n | n in ds :: ParseRole(ds[n])
  }

  /** `parse`: defaults for what is missing, then validation. */
  function Parse(d: Document): Result<Policy, Error> {
    var p := Policy(d.rest, ParseProviders(d.providers), ParseRoles(d.roles),
                    if d.total.Given? then d.total.value else None,
                    if d.escalation.Given? then d.escalation.value else DEFAULT);
    if Valid(p) then Success(p) else Failure(Invalid)
  }

  /** A document is accepted exactly when every bound holds of the fields it gives; a field left out never
      stands in its way. */
  lemma ParseAcceptsExactly(d: Document)
    ensures Parse(d).Success? <==>
            && |d.roles| <= 32
            && (d.total.Given? && d.total.value.Some? ==> 1 <= d.total.value.value <= 48)
            && (forall n :: n in d.providers ==>
                  var c := d.providers[n].maxConcurrent;
                  c.Given? && c.value.Some? ==> 1 <= c.value.value <= 16)
            && (forall n :: n in d.roles ==> d.roles[n].fanout.Given? ==> 1 <= d.roles[n].fanout.value <= 3)
            && (forall n :: n in d.roles ==> d.roles[n].ladders.Given? ==>
                  forall l :: l in d.roles[n].ladders.value ==>
                    |d.roles[n].ladders.value[l].below| <= 3 && |d.roles[n].ladders.value[l].above| <= 3)
            && (d.escalation.Given? ==> Ordered(d.escalation.value))
  {
    assert ParseRoles(d.roles).Keys == d.roles.Keys;
    assert |ParseRoles(d.roles)| == |d.roles| by {
      assert |ParseRoles(d.roles).Keys| == |ParseRoles(d.roles)| && |d.roles.Keys| == |d.roles|;
    }
    assert Ordered(DEFAULT);
    forall n | n in d.providers
      ensures ValidProvider(ParseProviders(d.providers)[n]) <==>
                var c := d.providers[n].maxConcurrent; c.Given? && c.value.Some? ==> 1 <= c.value.value <= 16
    {
    }
    forall n | n in d.roles
      ensures ParseRoles(d.roles)[n] == ParseRole(d.roles[n])
    {
    }
  }

  function NormalRole(r: Role): Role {
    r.(ladders := NonEmpty(r.ladders))
  }

  function NormalRoles(rs: map<Name, Role>): map<Name, Role> {
    map n | n in rs :: NormalRole(rs[n])
  }

  /** What a reader of the stored form gets back: the same policy without its empty ladders. */
  function Normal(p: Policy): Policy {
    p.(roles := NormalRoles(p.roles))
  }

  lemma NormalIsValid(p: Policy)
    requires Valid(p)
    ensures Valid(Normal(p))
  {
    var q := Normal(p);
    assert q.roles.Keys == p.roles.Keys;
    assert |q.roles| == |q.roles.Keys| == |p.roles.Keys|;
    forall n | n in q.roles ensures ValidRole(q.roles[n]) {
      assert ValidRole(p.roles[n]);
    }
  }

  /** A full dump parses to the policy itself. */
  lemma DumpRoundTrip(p: Policy)
    requires Valid(p)
    ensures Parse(Dump(p)) == Success(p)
  {
    assert ParseProviders(DumpProviders(p.providers)) == p.providers;
    assert ParseRoles(DumpRoles(p.roles)) == p.roles;
  }

  lemma ProvidersRoundTrip(ps: map<Name, Provider>)
    ensures ParseProviders(StoredProviders(ps)) == ps
  {
    assert ParseProviders(StoredProviders(ps)).Keys == ps.Keys;
  }

  lemma RoleRoundTrip(r: Role)
    ensures ParseRole(StoredRole(r)) == NormalRole(r)
  {
  }

  lemma RolesRoundTrip(rs: map<Name, Role>)
    ensures ParseRoles(StoredRoles(rs)) == NormalRoles(rs)
  {
    hide StoredRole, ParseRole, NormalRole;
    assert ParseRoles(StoredRoles(rs)).Keys == rs.Keys == NormalRoles(rs).Keys;
    forall n | n in rs ensures ParseRoles(StoredRoles(rs))[n] == NormalRoles(rs)[n] {
      RoleRoundTrip(rs[n]);
    }
  }

  /** The stored form parses to the policy up to its empty ladders. */
  lemma StoredRoundTrip(p: Policy)
    requires Valid(p)
    ensures Parse(Stored(p)) == Success(Normal(p))
  {
    hide StoredProviders, StoredRoles, ParseProviders, ParseRoles, NormalRoles, Valid;
    ProvidersRoundTrip(p.providers);
    RolesRoundTrip(p.roles);
    NormalIsValid(p);
  }

  lemma StoredRoleIsFixed(r: Role)
    ensures StoredRole(NormalRole(r)) == StoredRole(r)
  {
    assert NonEmpty(NonEmpty(r.ladders)) == NonEmpty(r.ladders);
  }

  lemma StoredRolesAreFixed(rs: map<Name, Role>)
    ensures StoredRoles(NormalRoles(rs)) == StoredRoles(rs)
  {
    hide StoredRole, NormalRole;
    var again := StoredRoles(NormalRoles(rs));
    assert again.Keys == rs.Keys == StoredRoles(rs).Keys;
    forall n | n in rs ensures again[n] == StoredRoles(rs)[n] {
      StoredRoleIsFixed(rs[n]);
    }
  }

  /** Storing what was read back writes the same document again, so the fingerprint, a digest of
      the stored form, does not move. */
  lemma StoredIsFixed(p: Policy)
    requires Valid(p)
    ensures Parse(Stored(p)).Success? && Stored(Parse(Stored(p)).value) == Stored(p)
  {
    StoredRoundTrip(p);
    StoredRolesAreFixed(p.roles);
    hide Parse, Valid, StoredRoles, NormalRoles, StoredProviders;
  }

  function At<T>(m: map<Name, T>, n: Name): Option<T> {
    if n in m then Some(m[n]) else None
  }

  /** `step_selection` of a role. */
  function Step(r: Role, provider: Name, level: int): (Selection, int) {
    StepSelection(At(r.selections, provider), At(r.ladders, provider), level)
  }

  lemma NormalRoleSteps(r: Role, provider: Name, level: int)
    ensures Step(NormalRole(r), provider, level) == Step(r, provider, level)
  {
  }

  /** No choice of model or effort can tell the stored policy from the original. */
  lemma StoringIsInvisible(p: Policy, role: Name, provider: Name, level: int)
    requires Valid(p) && role in p.roles
    ensures Parse(Stored(p)).Success?
    ensures var q := Parse(Stored(p)).value;
            role in q.roles && Step(q.roles[role], provider, level) == Step(p.roles[role], provider, level)
  {
    StoredRoundTrip(p);
    NormalRoleSteps(p.roles[role], provider, level);
    hide Parse, Stored, Valid, Step;
  }

  /** `_stored_document` as it edits the dumped dictionary, one provider and one role at a time. */
  method StoreDocument(p: Policy) returns (d: Document)
    ensures d == Stored(p)
  {
    var providers := StripProviders(p.providers);
    var roles := StripRoles(p.roles);
    d := Dump(p).(providers := providers, roles := roles);
    if d.total == Given(None) {
      d := d.(total := Absent);
    }
    if d.escalation == Given(DEFAULT) {
      d := d.(escalation := Absent);
    }
  }

  method StripProviders(ps: map<Name, Provider>) returns (d: map<Name, DocProvider>)
    ensures d == StoredProviders(ps)
  {
    d := DumpProviders(ps);
    var todo := d.Keys;
    while todo != {}
      invariant todo <= ps.Keys == d.Keys
      invariant forall n :: n in ps ==> d[n] == if n in todo then DumpProvider(ps[n]) else StoredProvider(ps[n])
      decreases |todo|
    {
      var n :| n in todo;
      if d[n].maxConcurrent == Given(None) {
        d := d[n := d[n].(maxConcurrent := Absent)];
      }
      todo := todo - {n};
    }
  }

  method StripRole(dumped: DocRole, ghost r: Role) returns (role: DocRole)
    requires dumped == DumpRole(r)
    ensures role == StoredRole(r)
  {
    var ladders := NonEmpty(dumped.ladders.value);
    role := dumped.(ladders := if ladders != map[] then Given(ladders) else Absent);
    if role.fanout == Given(1) {
      role := role.(fanout := Absent);
    }
  }

  method StripRoles(rs: map<Name, Role>) returns (d: map<Name, DocRole>)
    ensures d == StoredRoles(rs)
  {
    d := DumpRoles(rs);
    hide StoredRole, DumpRole, NonEmpty;
    var todo := d.Keys;
    while todo != {}
      invariant todo <= rs.Keys == d.Keys
      invariant forall n :: n in rs ==> d[n] == if n in todo then DumpRole(rs[n]) else StoredRole(rs[n])
      decreases |todo|
    {
      var n :| n in todo;
      var role := StripRole(d[n], rs[n]);
      d := d[n := role];
      todo := todo - {n};
    }
  }

  // -- presets ------------------------------------------------------------------------------------

  datatype Family = Claude | Grok | Agy | OtherFamily

  datatype PresetLevel = Conserve | Balanced | Max

  const PRESET_LEVELS := [Conserve, Balanced, Max]

  function PresetConcurrency(level: PresetLevel): int {
    match level
    case Conserve => 1
    case Balanced => 4
    case Max => 8
  }

  datatype Rung = Rung(selection: Selection, ladder: Ladder)

  function Pick(model: string): Selection {
    Selection(Some(model), None)
  }

  function PickWith(model: string, effort: string): Selection {
    Selection(Some(model), Some(effort))
  }

  /** `_rungs`: one rung for mechanic, one for explorer and implementer, one for the heavy roles. */
  function Rungs(light: Rung, middle: Rung, heavy: Rung): map<Name, Rung> {
    map["mechanic" := light, "explorer" := middle, "implementer" := middle,
        "planner" := heavy, "debugger" := heavy, "reviewer" := heavy]
  }

  function Around(s: Selection, below: seq<Selection>, above: seq<Selection>): Rung {
    Rung(s, Ladder(below, above))
  }

  const FLASH := PickWith("gemini-3.8-flash-medium", "medium")
  const PRO := PickWith("gemini-3.1-pro-high", "high")

  function Grok4(effort: string): Selection {
    PickWith("grok-4.7", effort)
  }

  /** `_PRESETS`. */
  function Presets(family: Family, level: PresetLevel): Option<map<Name, Rung>> {
    match family
    case Claude => Some(
      match level
      case Conserve => Rungs(
        Around(Pick("haiku"), [], []),
        Around(PickWith("sonnet", "medium"), [Pick("haiku")], []),
        Around(PickWith("sonnet", "high"), [PickWith("sonnet", "medium")], []))
      case Balanced => Rungs(
        Around(Pick("haiku"), [], [PickWith("sonnet", "medium")]),
        Around(PickWith("sonnet", "high"), [PickWith("sonnet", "medium")], [PickWith("opus[1m]", "high")]),
        Around(PickWith("opus[1m]", "xhigh"), [PickWith("sonnet", "high")], []))
      case Max => Rungs(
        Around(PickWith("sonnet", "medium"), [Pick("haiku")], []),
        Around(PickWith("opus[1m]", "high"), [PickWith("sonnet", "high")], []),
        Around(PickWith("opus[1m]", "xhigh"), [PickWith("opus[1m]", "high")], [])))
    case Grok => Some(
      match level
      case Conserve => Rungs(
        Around(Grok4("low"), [], []),
        Around(Grok4("medium"), [Grok4("low")], []),
        Around(Grok4("medium"), [Grok4("low")], []))
      case Balanced =>
        Rungs(
          Around(Grok4("low"), [], [Grok4("medium")]),
          Around(Grok4("high"), [Grok4("medium")], []),
          Around(Grok4("high"), [Grok4("medium")], []))
        ["explorer" := Around(Grok4("medium"), [Grok4("low")], [Grok4("high")])]
      case Max => Rungs(
        Around(Grok4("medium"), [Grok4("low")], []),
        Around(Grok4("high"), [Grok4("medium")], []),
        Around(Grok4("high"), [Grok4("medium")], [])))
    case Agy => Some(
      match level
      case Conserve => Rungs(Around(FLASH, [], []), Around(FLASH, [], []), Around(PRO, [FLASH], []))
      case Balanced => Rungs(Around(FLASH, [], [PRO]), Around(PRO, [FLASH], []), Around(PRO, [FLASH], []))
      case Max => Rungs(Around(PRO, [FLASH], []), Around(PRO, [FLASH], []), Around(PRO, [FLASH], [])))
    case OtherFamily => None
  }

  /** What the presets ask of a provider's profile. */
  datatype Profile = Profile(family: Family, steerable: bool)

  /** The table a preset writes for this profile, if it has presets at all. */
  function Table(profile: Option<Profile>, level: PresetLevel): Option<map<Name, Rung>> {
    if profile.Some? && profile.value.steerable then Presets(profile.value.family, level) else None
  }

  lemma TablesGoTogether(profile: Option<Profile>, a: PresetLevel, b: PresetLevel)
    ensures Table(profile, a).Some? <==> Table(profile, b).Some?
  {
  }

  /** A role a preset rewrites: shipped, present, and already selecting the provider. */
  predicate Rewritten(p: Policy, table: map<Name, Rung>, provider: Name, role: Name) {
    role in p.roles && role in table && provider in p.roles[role].selections
  }

  function RewriteRole(r: Role, provider: Name, rung: Rung): Role {
    r.(selections := r.selections[provider := rung.selection],
       ladders := r.ladders[provider := rung.ladder])
  }

  function Patched(p: Policy, table: map<Name, Rung>, provider: Name, level: PresetLevel): Policy
    requires provider in p.providers
  {
    p.(providers := p.providers[provider :=
         p.providers[provider].(maxConcurrent := Some(PresetConcurrency(level)))],
       roles := map n | n in p.roles ::
         if Rewritten(p, table, provider, n) then RewriteRole(p.roles[n], provider, table[n]) else p.roles[n])
  }

  /** `apply_preset`: patch the dumped document, then parse it. */
  function ApplyPreset(p: Policy, profile: Option<Profile>, provider: Name, level: PresetLevel)
    : Result<Policy, Error>
  {
    if provider !in p.providers then Failure(UnknownProvider)
    else if Table(profile, level) == None then Failure(NoPreset)
    else Parse(Dump(Patched(p, Table(profile, level).value, provider, level)))
  }

  lemma PresetLaddersAreValid(family: Family, level: PresetLevel, role: Name)
    requires Presets(family, level).Some? && role in Presets(family, level).value
    ensures ValidLadder(Presets(family, level).value[role].ladder)
  {
  }

  /** The policy a preset makes. */
  function Applied(p: Policy, profile: Option<Profile>, provider: Name, level: PresetLevel): Policy
    requires provider in p.providers && Table(profile, level).Some?
  {
    Patched(p, Table(profile, level).value, provider, level)
  }

  lemma PatchedIsValid(p: Policy, profile: Option<Profile>, provider: Name, level: PresetLevel)
    requires Valid(p) && provider in p.providers && Table(profile, level).Some?
    ensures Valid(Applied(p, profile, provider, level))
  {
    hide Presets;
    var table := Table(profile, level).value;
    var q := Applied(p, profile, provider, level);
    assert q.roles.Keys == p.roles.Keys;
    assert |q.roles| == |q.roles.Keys| == |p.roles.Keys|;
    forall n | n in q.roles ensures ValidRole(q.roles[n]) {
      assert ValidRole(p.roles[n]);
      if Rewritten(p, table, provider, n) {
        PresetLaddersAreValid(profile.value.family, level, n);
      }
    }
  }

  /** A preset of a valid policy is always accepted. */
  lemma PresetIsAccepted(p: Policy, profile: Option<Profile>, provider: Name, level: PresetLevel)
    requires Valid(p) && provider in p.providers && Table(profile, level).Some?
    ensures ApplyPreset(p, profile, provider, level) == Success(Applied(p, profile, provider, level))
    ensures Valid(Applied(p, profile, provider, level))
  {
    hide Presets, Parse, Dump, Patched, Valid;
    PatchedIsValid(p, profile, provider, level);
    DumpRoundTrip(Applied(p, profile, provider, level));
  }

  /** What a preset writes: the level's concurrency, and for every shipped role that already selects the
      provider the table's own selection and ladder. */
  lemma PresetWrites(p: Policy, profile: Option<Profile>, provider: Name, level: PresetLevel, role: Name)
    requires Valid(p) && provider in p.providers && Table(profile, level).Some?
    ensures ApplyPreset(p, profile, provider, level).Success?
    ensures var q, table := ApplyPreset(p, profile, provider, level).value, Table(profile, level).value;
            && provider in q.providers
            && q.providers[provider].maxConcurrent
               == Some(match level case Conserve => 1 case Balanced => 4 case Max => 8)
            && (role in table.Keys && role in p.roles && provider in p.roles[role].selections ==>
                  && role in q.roles && provider in q.roles[role].selections && provider in q.roles[role].ladders
                  && q.roles[role].selections[provider] == table[role].selection
                  && q.roles[role].ladders[provider] == table[role].ladder)
  {
    PresetIsAccepted(p, profile, provider, level);
    hide Presets, Valid, Parse, Dump;
  }

  /** A preset is refused exactly for a provider the policy does not have, or one without presets. */
  lemma PresetRefusedExactlyWhen(p: Policy, profile: Option<Profile>, provider: Name, level: PresetLevel)
    requires Valid(p)
    ensures ApplyPreset(p, profile, provider, level) == Failure(UnknownProvider) <==> provider !in p.providers
    ensures ApplyPreset(p, profile, provider, level) == Failure(NoPreset) <==>
            provider in p.providers
            && (profile == None || !profile.value.steerable || profile.value.family == OtherFamily)
  {
    if provider in p.providers && Table(profile, level).Some? {
      PresetIsAccepted(p, profile, provider, level);
    }
  }

  /** Every preset writes the same shipped roles, and never steps a role to what it already has. To
      conserve is to step nothing up, and the lightest role nowhere; a balanced preset can step the lightest
      role up; and a maximal one steps nothing up and every role down. */
  lemma PresetsCoverShippedRoles(family: Family, level: PresetLevel)
    requires family != OtherFamily
    ensures Presets(family, level).Some?
    ensures Presets(family, level).value.Keys
            == {"mechanic", "explorer", "implementer", "planner", "debugger", "reviewer"}
    ensures forall role :: role in Presets(family, level).value ==>
              var rung := Presets(family, level).value[role];
              && rung.selection !in rung.ladder.below && rung.selection !in rung.ladder.above
              && (level == Conserve ==> rung.ladder.above == [] && (role == "mechanic" ==> rung.ladder.below == []))
              && (level == Balanced ==> role == "mechanic" ==> rung.ladder.above != [])
              && (level == Max ==> rung.ladder.above == [] && rung.ladder.below != [])
  {
  }

  /** And every family's presets name that family's own models, each with an effort but for the one that
      takes none. */
  predicate FamilysOwn(family: Family, s: Selection) {
    match family
    case Claude => s.model in {Some("haiku"), Some("sonnet"), Some("opus[1m]")} && (s.effort == None <==> s.model == Some("haiku"))
    case Grok => s.model == Some("grok-4.7") && s.effort in {Some("low"), Some("medium"), Some("high")}
    case Agy => s in {FLASH, PRO}
    case OtherFamily => false
  }

  lemma PresetsNameTheirOwn(family: Family, level: PresetLevel, role: Name)
    requires family != OtherFamily && Presets(family, level).Some? && role in Presets(family, level).value
    ensures var rung := Presets(family, level).value[role];
            && FamilysOwn(family, rung.selection)
            && (forall s :: s in rung.ladder.below ==> FamilysOwn(family, s))
            && (forall s :: s in rung.ladder.above ==> FamilysOwn(family, s))
  {
  }

  /** Two roles that differ at most in one provider's selection and ladder. */
  predicate SameButFor(a: Role, b: Role, provider: Name) {
    && a.rest == b.rest && a.fanout == b.fanout
    && a.selections - {provider} == b.selections - {provider}
    && a.ladders - {provider} == b.ladders - {provider}
  }

  /** Everything of `p` but one provider's concurrency, and that provider's entries of the roles a
      table rewrites, is in `q` unchanged. */
  predicate Frame(p: Policy, q: Policy, table: map<Name, Rung>, provider: Name) {
    && q.rest == p.rest && q.total == p.total && q.escalation == p.escalation
    && q.providers - {provider} == p.providers - {provider}
    && (provider in p.providers ==>
          provider in q.providers && q.providers[provider].rest == p.providers[provider].rest)
    && q.roles.Keys == p.roles.Keys
    && forall n :: n in p.roles ==>
         if Rewritten(p, table, provider, n) then SameButFor(p.roles[n], q.roles[n], provider)
         else q.roles[n] == p.roles[n]
  }

  lemma RewriteFrame(r: Role, provider: Name, rung: Rung)
    ensures SameButFor(r, RewriteRole(r, provider, rung), provider)
  {
  }

  lemma PatchedFrame(p: Policy, table: map<Name, Rung>, provider: Name, level: PresetLevel)
    requires provider in p.providers
    ensures Frame(p, Patched(p, table, provider, level), table, provider)
  {
    var q := Patched(p, table, provider, level);
    forall n | n in p.roles && Rewritten(p, table, provider, n)
      ensures SameButFor(p.roles[n], q.roles[n], provider)
    {
      RewriteFrame(p.roles[n], provider, table[n]);
    }
  }

  /** A preset touches only the provider's concurrency, and the selection and ladder on that
      provider of shipped roles that already select it. */
  lemma PresetFrame(p: Policy, profile: Option<Profile>, provider: Name, level: PresetLevel)
    requires Valid(p) && provider in p.providers && Table(profile, level).Some?
    ensures ApplyPreset(p, profile, provider, level).Success?
    ensures Frame(p, ApplyPreset(p, profile, provider, level).value, Table(profile, level).value, provider)
  {
    PresetIsAccepted(p, profile, provider, level);
    PatchedFrame(p, Table(profile, level).value, provider, level);
    hide Presets, ApplyPreset, Valid, Frame;
  }

  /** Applying a preset twice is applying it once. */
  lemma PresetIsIdempotent(p: Policy, profile: Option<Profile>, provider: Name, level: PresetLevel)
    requires Valid(p) && provider in p.providers && Table(profile, level).Some?
    ensures var q := Applied(p, profile, provider, level);
            Valid(q) && provider in q.providers && ApplyPreset(q, profile, provider, level) == Success(q)
  {
    PresetIsAccepted(p, profile, provider, level);
    var q := Applied(p, profile, provider, level);
    PresetIsAccepted(q, profile, provider, level);
    PatchedTwice(p, Table(profile, level).value, provider, level);
    hide Presets, ApplyPreset, Valid, Patched;
  }

  lemma PatchedTwice(p: Policy, table: map<Name, Rung>, provider: Name, level: PresetLevel)
    requires provider in p.providers
    ensures var q := Patched(p, table, provider, level); Patched(q, table, provider, level) == q
  {
    var q := Patched(p, table, provider, level);
    var again := Patched(q, table, provider, level);
    forall n | n in q.roles ensures again.roles[n] == q.roles[n] {
      if Rewritten(q, table, provider, n) {
        assert Rewritten(p, table, provider, n);
      }
    }
    assert again.roles == q.roles && again.providers == q.providers;
  }

  datatype Match = Level(level: PresetLevel) | Custom | NoPresets

  /** Whether applying a preset would leave the stored form as it is. */
  predicate Fits(p: Policy, profile: Option<Profile>, provider: Name, level: PresetLevel) {
    var applied := ApplyPreset(p, profile, provider, level);
    applied.Success? && Stored(applied.value) == Stored(p)
  }

  lemma NoTableNoFit(p: Policy, profile: Option<Profile>, provider: Name, level: PresetLevel)
    ensures Fits(p, profile, provider, level) ==> Table(profile, level).Some?
  {
    hide Presets, Stored;
  }

  /** `preset_matches`: the first level that fits. */
  method PresetMatches(p: Policy, profile: Option<Profile>, provider: Name) returns (m: Match)
    requires Valid(p) && provider in p.providers
    ensures m == NoPresets <==> Table(profile, Conserve) == None
    ensures m.Level? ==> Fits(p, profile, provider, m.level)
    ensures m == Custom ==> forall level :: level in PRESET_LEVELS ==> !Fits(p, profile, provider, level)
  {
    hide Fits, Table, Valid;
    var found := false;
    var i := 0;
    while i < |PRESET_LEVELS|
      invariant 0 <= i <= |PRESET_LEVELS|
      invariant found <==> i > 0 && Table(profile, Conserve).Some?
      invariant forall k :: 0 <= k < i ==> !Fits(p, profile, provider, PRESET_LEVELS[k])
    {
      var level := PRESET_LEVELS[i];
      TablesGoTogether(profile, Conserve, level);
      NoTableNoFit(p, profile, provider, level);
      if Table(profile, level).Some? {
        found := true;
        if Fits(p, profile, provider, level) {
          return Level(level);
        }
      }
      i := i + 1;
    }
    m := if found then Custom else NoPresets;
  }

  lemma StoredConcurrency(p: Policy, q: Policy, provider: Name)
    requires provider in p.providers && provider in q.providers && Stored(p) == Stored(q)
    ensures p.providers[provider].maxConcurrent == q.providers[provider].maxConcurrent
  {
    ProvidersRoundTrip(p.providers);
    ProvidersRoundTrip(q.providers);
  }

  /** On a policy a preset was just applied to, that level fits and no other does. */
  lemma OnlyTheAppliedLevelFits(p: Policy, profile: Option<Profile>, provider: Name,
      level: PresetLevel, other: PresetLevel)
    requires Valid(p) && provider in p.providers && Table(profile, level).Some?
    ensures Fits(Applied(p, profile, provider, level), profile, provider, other) <==> other == level
  {
    PresetIsIdempotent(p, profile, provider, level);
    TablesGoTogether(profile, level, other);
    var q := Applied(p, profile, provider, level);
    PresetIsAccepted(q, profile, provider, other);
    AppliedConcurrency(p, profile, provider, level);
    AppliedConcurrency(q, profile, provider, other);
    var r := Applied(q, profile, provider, other);
    hide Presets, Stored, Applied, ApplyPreset, Valid;
    if Stored(r) == Stored(q) {
      StoredConcurrency(r, q, provider);
    }
  }

  lemma AppliedConcurrency(p: Policy, profile: Option<Profile>, provider: Name, level: PresetLevel)
    requires provider in p.providers && Table(profile, level).Some?
    ensures var q := Applied(p, profile, provider, level);
            provider in q.providers
            && q.providers[provider].maxConcurrent == Some(PresetConcurrency(level))
  {
  }

  /** `preset_matches` on the result of `apply_preset` is the level applied. */
  method MatchAfterApply(p: Policy, profile: Option<Profile>, provider: Name, level: PresetLevel)
    returns (m: Match)
    requires Valid(p) && provider in p.providers && Table(profile, level).Some?
    ensures m == Level(level)
  {
    PresetIsIdempotent(p, profile, provider, level);
    TablesGoTogether(profile, level, Conserve);
    var q := Applied(p, profile, provider, level);
    hide Presets, Stored, Applied, ApplyPreset, Valid, Fits;
    m := PresetMatches(q, profile, provider);
    OnlyTheAppliedLevelFits(p, profile, provider, level, level);
    assert level in PRESET_LEVELS;
    if m.Level? {
      OnlyTheAppliedLevelFits(p, profile, provider, level, m.level);
    }
  }
}
