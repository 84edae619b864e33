/** Which containers, networks and images a cleanup may remove: pure decisions over reported metadata. */
module Policy {
  import opened Wrappers
  import opened References
  import opened Text

  const OWNERSHIP_LABEL := "xyz.myflow.ci.ephemeral"
  const PROTECTION_LABEL := "xyz.myflow.cleanup.protect"
  const BUILDER_LABEL := "com.docker.buildx.builder"
  const BUILDER_PREFIX := "buildx_buildkit_"
  /** Times are counted in microseconds, durations in seconds. */
  const SECOND := 1000000

  predicate ObjectId(text: string) {
    |text| == 64 && forall c :: c in text ==> HexChar(c)
  }

  /** Nothing stands for a value that is missing or of the wrong type. */
  type Labels = Option<map<string, string>>

  datatype Endpoint = Attached(network: string) | Unattached | Malformed

  datatype Container = Container(
    labels: Labels, name: Option<string>, status: Option<string>, created: Option<int>,
    image: Option<string>, mode: Option<string>, endpoints: Option<map<string, Endpoint>>)

  datatype Network = Network(
    labels: Labels, name: Option<string>, scope: Option<string>, driver: Option<string>,
    ingress: Option<bool>, attached: Option<set<string>>, created: Option<int>)

  /** A list of references; an element of the wrong type is nothing. */
  datatype Aliases = Absent | Null | NotAList | Listed(refs: seq<Option<string>>)

  datatype Image = Image(labels: Labels, tags: Aliases, digests: Aliases, created: Option<int>)

  datatype Trigger = OnPressure | Scheduled | Disabled

  datatype Scope = Scope(daemonWide: bool, repositories: seq<string>, references: seq<string>, ids: set<string>)

  datatype Protection = Protection(
    containerIds: set<string>, networkIds: set<string>, imageIds: set<string>,
    imageReferences: seq<string>, imageRepositories: seq<string>)

  datatype Settings = Settings(
    containerMinAge: int, networkMinAge: int, danglingMinAge: int, taggedMinAge: int,
    trigger: Trigger, scope: Scope, protection: Protection)

  datatype Reason =
    | CreationAge | EligibleImage
    | UnknownCreationTime | UnknownIdentity | UnknownLabels | UnknownName | UnknownReferences | UnknownAliases
    | Protected | Unmanaged | Infrastructure | ExcludedState | SystemNetwork | UnsupportedNetwork | Referenced
    | OutsideScope | MultiTag | ProfileDisabled | NoPressureSample | BelowPressure | StageChanged

  datatype Decision = Decision(eligible: bool, reason: Reason)

  function Excluded(reason: Reason): (d: Decision) {
    Decision(false, reason)
  }

  /** An unreadable reference inside a decision ends the run. */
  datatype InvalidPolicy = InvalidPolicy

  function Age(created: Option<int>, age: int, now: int): (d: Decision) {
    if created == None then Excluded(UnknownCreationTime)
    else Decision(created.value < now - age * SECOND, CreationAge)
  }

  predicate Labelled(labels: map<string, string>, key: string) {
    key in labels && labels[key] == "true"
  }

  /** What rules a container or network out before anything else is looked at. */
  function Ownership(id: string, labels: Labels, protectedIds: set<string>): (d: Option<Decision>) {
    if !ObjectId(id) then Some(Excluded(UnknownIdentity))
    else if labels == None then Some(Excluded(UnknownLabels))
    else if id in protectedIds || Labelled(labels.value, PROTECTION_LABEL) then Some(Excluded(Protected))
    else if !Labelled(labels.value, OWNERSHIP_LABEL) then Some(Excluded(Unmanaged))
    else None
  }

  function StripSlashes(name: string): (r: string) {
    if name != "" && name[0] == '/' then StripSlashes(name[1..]) else name
  }

  function ContainerDecision(id: string, item: Container, policy: Settings, now: int): (d: Decision) {
    var ownership := Ownership(id, item.labels, policy.protection.containerIds);
    if ownership.Some? then ownership.value
    else if item.name == None then Excluded(UnknownName)
    else if BUILDER_PREFIX <= StripSlashes(item.name.value) || BUILDER_LABEL in item.labels.value then
      Excluded(Infrastructure)
    else if item.status != Some("created") && item.status != Some("exited") then Excluded(ExcludedState)
    else Age(item.created, policy.containerMinAge, now)
  }

  function NetworkDecision(id: string, item: Network, policy: Settings, now: int, referenced: set<string>): (d: Decision) {
    var ownership := Ownership(id, item.labels, policy.protection.networkIds);
    if ownership.Some? then ownership.value
    else if item.name == None || item.name.value == "bridge" || item.name.value == "host" || item.name.value == "none" then
      Excluded(SystemNetwork)
    else if item.scope != Some("local") ||
            (item.driver != Some("bridge") && item.driver != Some("macvlan") && item.driver != Some("ipvlan")) ||
            item.ingress != Some(false) then Excluded(UnsupportedNetwork)
    else if item.attached == None then Excluded(UnknownReferences)
    else if item.attached.value != {} || id in referenced then Excluded(Referenced)
    else Age(item.created, policy.networkMinAge, now)
  }

  /** The listed references; a null list is empty. */
  function Refs(aliases: Aliases): (refs: seq<Option<string>>) {
    if aliases.Listed? then aliases.refs else []
  }

  predicate Blank(ref: Option<string>) {
    ref == Some("<none>:<none>") || ref == Some("<none>@<none>")
  }

  /** The normal forms of all references that are not blank, or nothing if one is not accepted. */
  function Names(refs: seq<Option<string>>): (names: Option<seq<string>>) {
    if refs == [] then Some([])
    else if Blank(refs[0]) then Names(refs[1..])
    else if refs[0] == None || ReferenceName(refs[0].value) == None || Names(refs[1..]) == None then None
    else Some([ReferenceName(refs[0].value).value] + Names(refs[1..]).value)
  }

  function AllRefs(item: Image): (refs: seq<Option<string>>) {
    Refs(item.tags) + Refs(item.digests)
  }

  predicate Unlisted(aliases: Aliases) {
    aliases.Absent? || aliases.NotAList?
  }

  /** Some configured reference has this normal form. */
  predicate NamedBy(configured: seq<string>, name: string) {
    exists k | 0 <= k < |configured| :: ReferenceName(configured[k]) == Some(name)
  }

  predicate RepositoryIn(configured: seq<string>, repo: string) {
    exists k | 0 <= k < |configured| :: Repository(configured[k]) == Some(repo)
  }

  /** Reads the names in order up to the first protected one; a name too long to be read again is an error. */
  function ProtectedName(names: seq<string>, protection: Protection): (r: Result<bool, InvalidPolicy>) {
    if names == [] then Success(false)
    else if NamedBy(protection.imageReferences, names[0]) then Success(true)
    else if Repository(names[0]) == None then Failure(InvalidPolicy)
    else if RepositoryIn(protection.imageRepositories, Repository(names[0]).value) then Success(true)
    else ProtectedName(names[1..], protection)
  }

  function ImageSafety(id: string, item: Image, policy: Settings, referenced: set<string>, protected: set<string>)
    : (d: Result<Decision, InvalidPolicy>)
  {
    if !ImageId(id) then Success(Excluded(UnknownIdentity))
    else if item.labels == None then Success(Excluded(UnknownLabels))
    else if Unlisted(item.tags) || Unlisted(item.digests) || Names(AllRefs(item)) == None then
      Success(Excluded(UnknownAliases))
    else if Labelled(item.labels.value, PROTECTION_LABEL) || id in protected || id in policy.protection.imageIds then
      Success(Excluded(Protected))
    else
      var named :- ProtectedName(Names(AllRefs(item)).value, policy.protection);
      if named then Success(Excluded(Protected))
      else if id in referenced then Success(Excluded(Referenced))
      else Success(Decision(true, EligibleImage))
  }

  predicate NameInScope(scope: Scope, name: string) {
    (Repository(name).Some? && RepositoryIn(scope.repositories, Repository(name).value)) ||
    NamedBy(scope.references, name)
  }

  /** Removing an image also removes its aliases, so each of them must be in scope. */
  predicate InScope(id: string, names: seq<string>, scope: Scope) {
    scope.daemonWide || id in scope.ids ||
    (names != [] && forall k :: 0 <= k < |names| ==> NameInScope(scope, names[k]))
  }

  /** The image carries a real tag, as the retention age sees it. */
  predicate HasTag(item: Image) {
    exists k | 0 <= k < |Refs(item.tags)| :: Refs(item.tags)[k] != Some("<none>:<none>")
  }

  function ImageDecision(id: string, item: Image, policy: Settings, now: int,
                         referenced: set<string>, protected: set<string>)
    : (d: Result<Decision, InvalidPolicy>)
  {
    var safety :- ImageSafety(id, item, policy, referenced, protected);
    if !safety.eligible then Success(safety)
    else if !InScope(id, Names(AllRefs(item)).value, policy.scope) then Success(Excluded(OutsideScope))
    else if |Refs(item.tags)| > 1 then Success(Excluded(MultiTag))
    else Success(Age(item.created, if HasTag(item) then policy.taggedMinAge else policy.danglingMinAge, now))
  }

  /** The image counts as tagged when stages are assigned; an unreadable tag list does. */
  predicate IsTagged(item: Image) {
    item.tags.NotAList? || HasTag(item)
  }

  datatype Profile = Daily | Weekly | RemoveImages

  /** What the profile and the pressure sample rule out; a sample that is not known is nothing. */
  function ImageProfile(item: Image, policy: Settings, profile: Profile, pressured: Option<bool>): (d: Option<Decision>) {
    if IsTagged(item) && (profile != Weekly || policy.trigger == Disabled) then Some(Excluded(ProfileDisabled))
    else if IsTagged(item) && policy.trigger == OnPressure && pressured == None then Some(Excluded(NoPressureSample))
    else if IsTagged(item) && policy.trigger == OnPressure && pressured == Some(false) then Some(Excluded(BelowPressure))
    else None
  }

  // ---------------------------------------------------------------------------------------------------
  // What eligibility means

  /** Owned by CI through its label, and protected neither by label nor by identifier. */
  predicate Owned(id: string, labels: Labels, protectedIds: set<string>) {
    labels.Some? && Labelled(labels.value, OWNERSHIP_LABEL) && !Labelled(labels.value, PROTECTION_LABEL) && id !in protectedIds
  }

  predicate OlderThan(created: Option<int>, age: int, now: int) {
    created.Some? && created.value + age * SECOND < now
  }

  /** All leading slashes go, and nothing else. */
  lemma {:induction false} StrippedName(name: string)
    ensures var r := StripSlashes(name);
            (r == "" || r[0] != '/') && |r| <= |name| && name[|name| - |r|..] == r &&
            forall k :: 0 <= k < |name| - |r| ==> name[k] == '/'
  {
    if name != "" && name[0] == '/' {
      StrippedName(name[1..]);
      assert forall k :: 1 <= k < |name| ==> name[k] == name[1..][k - 1];
    }
  }

  lemma ContainerEligibility(id: string, item: Container, policy: Settings, now: int)
    ensures ContainerDecision(id, item, policy, now).eligible <==>
              ObjectId(id) && Owned(id, item.labels, policy.protection.containerIds) &&
              (item.status == Some("created") || item.status == Some("exited")) &&
              item.name.Some? && !(BUILDER_PREFIX <= StripSlashes(item.name.value)) && BUILDER_LABEL !in item.labels.value &&
              OlderThan(item.created, policy.containerMinAge, now)
  {
  }

  lemma NetworkEligibility(id: string, item: Network, policy: Settings, now: int, referenced: set<string>)
    ensures NetworkDecision(id, item, policy, now, referenced).eligible <==>
              ObjectId(id) && Owned(id, item.labels, policy.protection.networkIds) && id !in referenced &&
              item.attached == Some({}) && item.ingress == Some(false) && item.scope == Some("local") &&
              (item.driver == Some("bridge") || item.driver == Some("macvlan") || item.driver == Some("ipvlan")) &&
              item.name.Some? && item.name.value != "bridge" && item.name.value != "host" && item.name.value != "none" &&
              OlderThan(item.created, policy.networkMinAge, now)
  {
  }

  /** Tagged images go only in a weekly run, and where the trigger is pressure only under known pressure. */
  lemma ProfileAllows(item: Image, policy: Settings, profile: Profile, pressured: Option<bool>)
    ensures ImageProfile(item, policy, profile, pressured) == None <==>
              (IsTagged(item) ==> profile == Weekly && policy.trigger != Disabled &&
                                  (policy.trigger == OnPressure ==> pressured == Some(true)))
  {
    if pressured.Some? {
      assert pressured == if pressured.value then Some(true) else Some(false);
    }
  }

  /** Nothing about the image itself keeps it: its identity and labels are read, and neither protect it. */
  predicate Unguarded(id: string, item: Image, policy: Settings, protected: set<string>) {
    ImageId(id) && item.labels.Some? && !Labelled(item.labels.value, PROTECTION_LABEL) &&
    id !in protected && id !in policy.protection.imageIds &&
    !Unlisted(item.tags) && !Unlisted(item.digests) && Names(AllRefs(item)).Some?
  }

  /** An image is eligible when nothing protects it under any of its names, nothing refers to it, all of its names
      are in scope, it has one tag at most, and it is old enough for its kind. */
  lemma ImageEligibility(id: string, item: Image, policy: Settings, now: int, referenced: set<string>, protected: set<string>)
    ensures Eligible(ImageDecision(id, item, policy, now, referenced, protected)) <==>
              Unguarded(id, item, policy, protected) && id !in referenced &&
              Open(Names(AllRefs(item)).value, policy.protection) &&
              InScope(id, Names(AllRefs(item)).value, policy.scope) && |Refs(item.tags)| <= 1 &&
              OlderThan(item.created, if HasTag(item) then policy.taggedMinAge else policy.danglingMinAge, now)
  {
    if Names(AllRefs(item)).Some? {
      OpenNames(Names(AllRefs(item)).value, policy.protection);
    }
  }

  /** The name at this position is too long, not protected by reference, and all before it are open. */
  predicate Stumbles(names: seq<string>, k: int, protection: Protection) {
    0 <= k < |names| && |names[k]| > MAX_REFERENCE && Open(names[..k], protection) &&
    !NamedBy(protection.imageReferences, names[k])
  }

  /** A decision about an image ends the run exactly when, before any protected name, it meets one whose normal form
      is too long to be read again. */
  lemma UnreadableImage(id: string, item: Image, policy: Settings, referenced: set<string>, protected: set<string>)
    ensures ImageSafety(id, item, policy, referenced, protected).Failure? <==>
              Unguarded(id, item, policy, protected) &&
              exists k :: Stumbles(Names(AllRefs(item)).value, k, policy.protection)
  {
    if Names(AllRefs(item)).Some? {
      NormalNames(AllRefs(item));
      FirstUnreadable(Names(AllRefs(item)).value, policy.protection);
    }
  }

  /** Each name is a normal form: it can be read again exactly when it is not too long. */
  predicate NormalForms(names: seq<string>) {
    forall k :: 0 <= k < |names| ==> (Repository(names[k]) == None <==> |names[k]| > MAX_REFERENCE)
  }

  lemma {:induction false} NormalNames(refs: seq<Option<string>>)
    requires Names(refs).Some?
    ensures NormalForms(Names(refs).value)
  {
    if refs != [] {
      var rest := refs[1..];
      if Blank(refs[0]) {
        NormalNames(rest);
      } else {
        NormalNames(rest);
        var name := ReferenceName(refs[0].value).value;
        ReferenceNameIsNormalForm(refs[0].value);
        assert Names(refs).value == [name] + Names(rest).value;
      }
    }
  }

  lemma StumblesLater(names: seq<string>, k: nat, protection: Protection)
    requires 0 < k < |names|
    ensures Stumbles(names, k, protection) <==> OpenName(names[0], protection) && Stumbles(names[1..], k - 1, protection)
  {
    var rest := names[1..];
    var before, others := names[..k], rest[..k - 1];
    assert before == [names[0]] + others;
    assert names[k] == rest[k - 1];
    assert Open(before, protection) <==> OpenName(names[0], protection) && Open(others, protection) by {
      assert forall j :: 0 <= j < |others| ==> others[j] == before[j + 1];
      assert forall j :: 1 <= j < |before| ==> before[j] == others[j - 1];
      assert before[0] == names[0];
    }
  }

  lemma {:induction false} FirstUnreadable(names: seq<string>, protection: Protection)
    requires NormalForms(names)
    ensures ProtectedName(names, protection).Failure? <==> exists k :: Stumbles(names, k, protection)
  {
    if names != [] {
      var rest := names[1..];
      FirstUnreadable(rest, protection);
      if k :| Stumbles(names, k, protection) {
        if k > 0 {
          StumblesLater(names, k, protection);
        }
      }
      assert Stumbles(names, 0, protection) <==> Repository(names[0]) == None && !NamedBy(protection.imageReferences, names[0]);
      if k :| Stumbles(rest, k, protection) {
        StumblesLater(names, k + 1, protection);
      }
    }
  }

  // ---------------------------------------------------------------------------------------------------
  // How the decisions depend on what is referenced and protected

  predicate Eligible(d: Result<Decision, InvalidPolicy>) {
    d.Success? && d.value.eligible
  }

  /** Nobody loses eligibility when fewer images are referenced or protected: a decision taken on an old
      snapshot with no references is a sound first filter. */
  lemma ImageEligibilityShrinks(id: string, item: Image, policy: Settings, now: int,
                                fewRefs: set<string>, fewProtected: set<string>,
                                refs: set<string>, protected: set<string>)
    requires fewRefs <= refs && fewProtected <= protected
    ensures Eligible(ImageSafety(id, item, policy, refs, protected)) ==>
              Eligible(ImageSafety(id, item, policy, fewRefs, fewProtected))
    ensures Eligible(ImageDecision(id, item, policy, now, refs, protected)) ==>
              Eligible(ImageDecision(id, item, policy, now, fewRefs, fewProtected))
  {
  }

  lemma NetworkEligibilityShrinks(id: string, item: Network, policy: Settings, now: int, few: set<string>,
                                  refs: set<string>, gone: set<string>)
    requires few <= refs
    requires NetworkDecision(id, item, policy, now, refs).eligible
    ensures NetworkDecision(id, Detached(item, gone), policy, now, few).eligible
  {
  }

  /** The network after some containers are gone. */
  function Detached(item: Network, gone: set<string>): (r: Network) {
    item.(attached := if item.attached.Some? then Some(item.attached.value - gone) else None)
  }

  // ---------------------------------------------------------------------------------------------------
  // How the decisions depend on the aliases of an image

  /** `fewer` carries some of the aliases of `item` and is otherwise the same image. */
  predicate FewerAliases(fewer: Image, item: Image) {
    fewer.labels == item.labels && fewer.created == item.created &&
    !Unlisted(fewer.tags) && !Unlisted(fewer.digests) && |Refs(fewer.tags)| <= |Refs(item.tags)| &&
    SubList(Refs(fewer.tags), Refs(item.tags)) && SubList(Refs(fewer.digests), Refs(item.digests))
  }

  predicate SubList(fewer: seq<Option<string>>, refs: seq<Option<string>>) {
    forall k :: 0 <= k < |fewer| ==> fewer[k] in refs
  }

  predicate SubNames(fewer: seq<string>, names: seq<string>) {
    forall k :: 0 <= k < |fewer| ==> fewer[k] in names
  }

  lemma {:induction false} NameOf(refs: seq<Option<string>>, k: nat)
    requires Names(refs).Some? && k < |refs| && !Blank(refs[k])
    ensures refs[k].Some? && ReferenceName(refs[k].value).Some?
    ensures ReferenceName(refs[k].value).value in Names(refs).value
  {
    var rest := refs[1..];
    if k > 0 {
      assert rest[k - 1] == refs[k];
      assert Names(rest).Some?;
      NameOf(rest, k - 1);
      var name := ReferenceName(refs[k].value).value;
      assert name in Names(rest).value;
      assert Names(refs).value == Names(rest).value || Names(refs).value[1..] == Names(rest).value;
    }
  }

  lemma {:induction false} FewerNames(fewer: seq<Option<string>>, refs: seq<Option<string>>)
    requires SubList(fewer, refs) && Names(refs).Some?
    ensures Names(fewer).Some? && SubNames(Names(fewer).value, Names(refs).value)
  {
    if fewer != [] {
      FewerNames(fewer[1..], refs);
      assert fewer[0] in refs;
      var k :| 0 <= k < |refs| && refs[k] == fewer[0];
      if !Blank(refs[k]) {
        NameOf(refs, k);
      }
    }
  }

  /** Each of the names is readable and unprotected. */
  predicate Open(names: seq<string>, protection: Protection) {
    forall k :: 0 <= k < |names| ==> OpenName(names[k], protection)
  }

  predicate OpenName(name: string, protection: Protection) {
    !NamedBy(protection.imageReferences, name) && Repository(name).Some? &&
    !RepositoryIn(protection.imageRepositories, Repository(name).value)
  }

  lemma {:induction false} OpenNames(names: seq<string>, protection: Protection)
    ensures ProtectedName(names, protection) == Success(false) <==> Open(names, protection)
  {
    if names != [] {
      var rest := names[1..];
      OpenNames(rest, protection);
      assert Open(names, protection) <==> OpenName(names[0], protection) && Open(rest, protection) by {
        assert forall k :: 0 <= k < |rest| ==> rest[k] == names[k + 1];
        assert forall k :: 1 <= k < |names| ==> names[k] == rest[k - 1];
      }
    }
  }

  lemma SublistOfAll(fewer: Image, item: Image)
    requires FewerAliases(fewer, item)
    ensures SubList(AllRefs(fewer), AllRefs(item))
  {
    forall k | 0 <= k < |AllRefs(fewer)|
      ensures AllRefs(fewer)[k] in AllRefs(item)
    {
      assert AllRefs(fewer)[k] in Refs(fewer.tags) || AllRefs(fewer)[k] in Refs(fewer.digests);
    }
  }

  lemma FewerAliasesOpen(fewer: Image, item: Image, protection: Protection)
    requires FewerAliases(fewer, item) && Names(AllRefs(item)).Some?
    requires ProtectedName(Names(AllRefs(item)).value, protection) == Success(false)
    ensures Names(AllRefs(fewer)).Some? && ProtectedName(Names(AllRefs(fewer)).value, protection) == Success(false)
    ensures SubNames(Names(AllRefs(fewer)).value, Names(AllRefs(item)).value)
  {
    SublistOfAll(fewer, item);
    FewerNames(AllRefs(fewer), AllRefs(item));
    OpenNames(Names(AllRefs(item)).value, protection);
    OpenNames(Names(AllRefs(fewer)).value, protection);
  }

  /** Safe to touch: nothing about the image keeps it, none of its names does, and nothing refers to it. */
  lemma SafetyMeans(id: string, item: Image, policy: Settings, referenced: set<string>, protected: set<string>)
    ensures Eligible(ImageSafety(id, item, policy, referenced, protected)) <==>
              Unguarded(id, item, policy, protected) && id !in referenced &&
              ProtectedName(Names(AllRefs(item)).value, policy.protection) == Success(false)
  {
  }

  lemma UnguardedAfterAliasLoss(id: string, fewer: Image, item: Image, policy: Settings, protected: set<string>)
    requires FewerAliases(fewer, item) && Unguarded(id, item, policy, protected) && Names(AllRefs(fewer)).Some?
    ensures Unguarded(id, fewer, policy, protected)
  {
  }

  /** An image stays safe to touch while it loses aliases. */
  lemma SafetySurvivesAliasLoss(id: string, fewer: Image, item: Image, policy: Settings,
                                referenced: set<string>, protected: set<string>)
    requires FewerAliases(fewer, item)
    requires Eligible(ImageSafety(id, item, policy, referenced, protected))
    ensures Eligible(ImageSafety(id, fewer, policy, referenced, protected))
  {
    SafetyMeans(id, item, policy, referenced, protected);
    FewerAliasesOpen(fewer, item, policy.protection);
    UnguardedAfterAliasLoss(id, fewer, item, policy, protected);
    SafetyMeans(id, fewer, policy, referenced, protected);
  }

  lemma ScopeAfterAliasLoss(id: string, few: seq<string>, names: seq<string>, scope: Scope)
    requires SubNames(few, names) && InScope(id, names, scope)
    ensures InScope(id, few, scope) <==> scope.daemonWide || id in scope.ids || few != []
  {
    forall k | 0 <= k < |few|
      ensures NameInScope(scope, few[k]) || scope.daemonWide || id in scope.ids
    {
      assert few[k] in names;
    }
  }

  lemma TagsAfterAliasLoss(fewer: Image, item: Image)
    requires FewerAliases(fewer, item)
    ensures HasTag(fewer) ==> HasTag(item)
  {
    if HasTag(fewer) {
      var k :| 0 <= k < |Refs(fewer.tags)| && Refs(fewer.tags)[k] != Some("<none>:<none>");
      assert Refs(fewer.tags)[k] in Refs(item.tags);
    }
  }

  /** Retention is different: an eligible image stays eligible after losing aliases exactly when it does not
      lose its only claim to be in scope and does not become dangling while younger than that age allows. */
  lemma RetentionAfterAliasLoss(id: string, fewer: Image, item: Image, policy: Settings, now: int,
                                referenced: set<string>, protected: set<string>)
    requires FewerAliases(fewer, item)
    requires Eligible(ImageDecision(id, item, policy, now, referenced, protected))
    ensures Eligible(ImageDecision(id, fewer, policy, now, referenced, protected)) <==>
              (policy.scope.daemonWide || id in policy.scope.ids || !AllBlank(AllRefs(fewer))) &&
              (HasTag(item) ==> HasTag(fewer) || Age(item.created, policy.danglingMinAge, now).eligible)
  {
    ImageEligibility(id, item, policy, now, referenced, protected);
    ImageEligibility(id, fewer, policy, now, referenced, protected);
    OpenNames(Names(AllRefs(item)).value, policy.protection);
    FewerAliasesOpen(fewer, item, policy.protection);
    OpenNames(Names(AllRefs(fewer)).value, policy.protection);
    UnguardedAfterAliasLoss(id, fewer, item, policy, protected);
    ScopeAfterAliasLoss(id, Names(AllRefs(fewer)).value, Names(AllRefs(item)).value, policy.scope);
    BlankMeansNoNames(AllRefs(fewer));
    TagsAfterAliasLoss(fewer, item);
  }

  predicate AllBlank(refs: seq<Option<string>>) {
    forall k :: 0 <= k < |refs| ==> Blank(refs[k])
  }

  lemma {:induction false} BlankMeansNoNames(refs: seq<Option<string>>)
    requires Names(refs).Some?
    ensures Names(refs).value == [] <==> AllBlank(refs)
  {
    if refs != [] {
      if Blank(refs[0]) {
        BlankMeansNoNames(refs[1..]);
        assert AllBlank(refs[1..]) ==> AllBlank(refs) by {
          assert forall k :: 1 <= k < |refs| ==> refs[k] == refs[1..][k - 1];
        }
        assert AllBlank(refs) ==> AllBlank(refs[1..]);
      } else {
        assert !AllBlank(refs);
      }
    }
  }

  lemma ShortReference() returns (ref: string)
    ensures ReferenceName(ref).Some? && Repository(ref).Some? && !Blank(Some(ref))
    ensures Repository(ReferenceName(ref).value) == Repository(ref)
  {
    ref := "a";
    LibraryName(ref);
    ReferenceNameIsNormalForm(ref);
    assert |ref| == 1;
  }

  /** An image with one tag, the same image without it, and two policies that keep the tagged one eligible. */
  function OneTag(ref: string): Image { Image(Some(map[]), Listed([Some(ref)]), Null, Some(0)) }
  function Bare(): Image { Image(Some(map[]), Null, Null, Some(0)) }
  function Unprotected(): Protection { Protection({}, {}, {}, [], []) }
  function Listing(ref: string): Settings {
    Settings(1, 1, 1, 1, Scheduled, Scope(false, [ref], [], {}), Unprotected())
  }
  function Patient(): Settings {
    Settings(1, 1, 9, 1, Scheduled, Scope(true, [], [], {}), Unprotected())
  }

  lemma OneName(ref: Option<string>)
    requires !Blank(ref) && ref.Some? && ReferenceName(ref.value).Some?
    ensures Names([ref]) == Some([ReferenceName(ref.value).value])
  {
    assert Names([]) == Some([]);
    assert [ref][1..] == [];
    assert [ReferenceName(ref.value).value] + [] == [ReferenceName(ref.value).value];
  }

  lemma OneOpenName(name: string)
    requires Repository(name).Some?
    ensures ProtectedName([name], Unprotected()) == Success(false) && ProtectedName([], Unprotected()) == Success(false)
  {
    assert [name][1..] == [];
    assert !NamedBy([], name) && !RepositoryIn([], Repository(name).value);
  }

  lemma SingleName(ref: string)
    requires !Blank(Some(ref))
    ensures AllRefs(OneTag(ref)) == [Some(ref)] && AllRefs(Bare()) == []
    ensures HasTag(OneTag(ref)) && !HasTag(Bare())
  {
    assert Refs(OneTag(ref).tags) == [Some(ref)];
    assert Refs(OneTag(ref).tags)[0] == Some(ref);
  }

  lemma OpenIsSafe(id: string, item: Image, policy: Settings)
    requires ImageId(id) && policy.protection == Unprotected() && item.labels == Some(map[])
    requires !Unlisted(item.tags) && !Unlisted(item.digests) && Names(AllRefs(item)).Some?
    requires ProtectedName(Names(AllRefs(item)).value, Unprotected()) == Success(false)
    ensures ImageSafety(id, item, policy, {}, {}) == Success(Decision(true, EligibleImage))
  {
  }

  lemma SingleSafe(id: string, ref: string, policy: Settings)
    requires ImageId(id) && policy.protection == Unprotected() && ReferenceName(ref).Some? && !Blank(Some(ref))
    requires Repository(ReferenceName(ref).value).Some?
    ensures ImageSafety(id, OneTag(ref), policy, {}, {}) == Success(Decision(true, EligibleImage))
    ensures ImageSafety(id, Bare(), policy, {}, {}) == Success(Decision(true, EligibleImage))
  {
    SingleName(ref);
    OneName(Some(ref));
    OneOpenName(ReferenceName(ref).value);
    OpenIsSafe(id, OneTag(ref), policy);
    OpenIsSafe(id, Bare(), policy);
  }

  lemma AliasLossExcludes(id: string, ref: string)
    requires ImageId(id) && ReferenceName(ref).Some? && Repository(ref).Some? && !Blank(Some(ref))
    requires Repository(ReferenceName(ref).value) == Repository(ref)
    ensures Eligible(ImageDecision(id, OneTag(ref), Listing(ref), 2 * SECOND, {}, {}))
    ensures !Eligible(ImageDecision(id, Bare(), Listing(ref), 2 * SECOND, {}, {}))
    ensures Eligible(ImageDecision(id, OneTag(ref), Patient(), 2 * SECOND, {}, {}))
    ensures !Eligible(ImageDecision(id, Bare(), Patient(), 2 * SECOND, {}, {}))
  {
    var name := ReferenceName(ref).value;
    SingleName(ref);
    OneName(Some(ref));
    SingleSafe(id, ref, Listing(ref));
    SingleSafe(id, ref, Patient());
    assert NameInScope(Listing(ref).scope, name) by {
      assert Repository(Listing(ref).scope.repositories[0]) == Some(Repository(name).value);
    }
    assert InScope(id, [name], Listing(ref).scope);
    assert !InScope(id, [], Listing(ref).scope);
  }

  /** Losing an alias can cost eligibility, in both ways the condition above names: by scope and by age. */
  lemma AliasLossCanExclude(id: string) returns (ref: string)
    requires ImageId(id)
    ensures FewerAliases(Bare(), OneTag(ref))
    ensures Eligible(ImageDecision(id, OneTag(ref), Listing(ref), 2 * SECOND, {}, {}))
    ensures !Eligible(ImageDecision(id, Bare(), Listing(ref), 2 * SECOND, {}, {}))
    ensures Eligible(ImageDecision(id, OneTag(ref), Patient(), 2 * SECOND, {}, {}))
    ensures !Eligible(ImageDecision(id, Bare(), Patient(), 2 * SECOND, {}, {}))
  {
    ref := ShortReference();
    AliasLossExcludes(id, ref);
  }

  /** Such names exist: an image whose only tag is a valid reference ends the run. */
  lemma LongNameEndsRun(id: string, policy: Settings) returns (ref: string)
    requires ImageId(id) && policy.protection == Unprotected()
    ensures ReferenceName(ref).Some? && ImageSafety(id, OneTag(ref), policy, {}, {}).Failure?
  {
    ref := LongNormalForm();
    LongIsNotBlank(ref);
    SingleName(ref);
    OneName(Some(ref));
    assert Stumbles([ReferenceName(ref).value], 0, policy.protection);
    UnreadableImage(id, OneTag(ref), policy, {}, {});
  }

  lemma LongIsNotBlank(ref: string)
    requires ReferenceName(ref).Some?
    ensures !Blank(Some(ref))
  {
    assert !Alnum("<none>:<none>"[0]) && !Alnum("<none>@<none>"[0]);
  }
}
