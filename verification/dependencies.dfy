/** The resource dependency relation of a stack: which resource types may
    depend on which (`DependencyConfiguration`), the candidate list offered for
    each resource, the selection toggle, and the two review views "depends on" /
    "depended on by" (`ResourceReview`). */
module Dependencies {
  import opened Json
  import opened Seqs
  import opened StackForm

  /** For each source type, the target types it may depend on. */
  const ValidTargetTable: map<string, seq<string>> := map[
    "ec2_instance" := ["security_group", "elastic_ip"],
    "rds_instance" := ["security_group"],
    "load_balancer" := ["security_group", "ec2_instance", "ecs_service"],
    "ecs_service" := ["load_balancer"],
    "security_group" := ["ec2_instance", "rds_instance", "load_balancer"],
    "elastic_ip" := ["ec2_instance"]]

  /** The types a resource of type `s` may depend on; an unknown type may depend on nothing. */
  function ValidTargets(s: string): (ts: seq<string>)
    ensures s !in ValidTargetTable ==> ts == []
    ensures "s3_bucket" !in ts
  {
    if s in ValidTargetTable then ValidTargetTable[s] else []
  }

  /** `isValidDependency(source, target)` */
  predicate IsValidDependency(source: string, target: string) {
    target in ValidTargets(source)
  }

  /** The relation written out as the set of allowed (source, target) pairs. */
  const ValidPairs: set<(string, string)> := {
    ("ec2_instance", "security_group"), ("ec2_instance", "elastic_ip"),
    ("rds_instance", "security_group"),
    ("load_balancer", "security_group"), ("load_balancer", "ec2_instance"), ("load_balancer", "ecs_service"),
    ("ecs_service", "load_balancer"),
    ("security_group", "ec2_instance"), ("security_group", "rds_instance"), ("security_group", "load_balancer"),
    ("elastic_ip", "ec2_instance")}

  /** The check answers yes exactly for the listed pairs, and no for any unknown source. */
  lemma ValidIffListed(source: string, target: string)
    ensures IsValidDependency(source, target) <==> (source, target) in ValidPairs
  {
  }

  /** An S3 bucket takes part in no dependency, on either side. */
  lemma S3BucketIsolated(other: string)
    ensures !IsValidDependency("s3_bucket", other)
    ensures !IsValidDependency(other, "s3_bucket")
  {
  }

  /** The description table of the dependency step (`DependencyConfiguration`). */
  const ConfigDescriptions: map<(string, string), string> := map[
    ("ec2_instance", "security_group") := "Attach this security group to the EC2 instance",
    ("ec2_instance", "elastic_ip") := "Associate this Elastic IP with the EC2 instance",
    ("rds_instance", "security_group") := "Attach this security group to the RDS instance",
    ("load_balancer", "security_group") := "Attach this security group to the load balancer",
    ("load_balancer", "ec2_instance") := "Register this EC2 instance as a target",
    ("load_balancer", "ecs_service") := "Register this ECS service as a target",
    ("ecs_service", "load_balancer") := "Use this load balancer for the ECS service",
    ("security_group", "ec2_instance") := "Allow traffic from/to this EC2 instance",
    ("security_group", "rds_instance") := "Allow traffic from/to this RDS instance",
    ("security_group", "load_balancer") := "Allow traffic from/to this load balancer",
    ("elastic_ip", "ec2_instance") := "Associate with this EC2 instance"]

  /** The description table of the stack review (`ResourceReview`). */
  const ReviewDescriptions: map<(string, string), string> := map[
    ("ec2_instance", "security_group") := "Attached to security group",
    ("ec2_instance", "elastic_ip") := "Associated with Elastic IP",
    ("rds_instance", "security_group") := "Attached to security group",
    ("load_balancer", "security_group") := "Attached to security group",
    ("load_balancer", "ec2_instance") := "Targets EC2 instance",
    ("load_balancer", "ecs_service") := "Targets ECS service",
    ("ecs_service", "load_balancer") := "Uses load balancer",
    ("security_group", "ec2_instance") := "Allows traffic from/to EC2 instance",
    ("security_group", "rds_instance") := "Allows traffic from/to RDS instance",
    ("security_group", "load_balancer") := "Allows traffic from/to load balancer",
    ("elastic_ip", "ec2_instance") := "Associated with EC2 instance"]

  const ConfigFallback: string := "Connect these resources"
  const ReviewFallback: string := "Connected to"

  /** `descriptions[s]?.[t] || fallback` */
  function Describe(table: map<(string, string), string>, fallback: string, source: string, target: string): (r: string)
    ensures (source, target) in table && table[(source, target)] != "" ==> r == table[(source, target)]
    ensures (source, target) !in table ==> r == fallback
  {
    if (source, target) in table && table[(source, target)] != "" then table[(source, target)] else fallback
  }

  function ConfigDescription(source: string, target: string): (r: string)
    ensures IsValidDependency(source, target) ==> r == ConfigDescriptions[(source, target)] && r != ConfigFallback
    ensures !IsValidDependency(source, target) ==> r == ConfigFallback
  {
    ValidIffListed(source, target);
    Describe(ConfigDescriptions, ConfigFallback, source, target)
  }

  function ReviewDescription(source: string, target: string): (r: string)
    ensures IsValidDependency(source, target) ==> r == ReviewDescriptions[(source, target)] && r != ReviewFallback
    ensures !IsValidDependency(source, target) ==> r == ReviewFallback
  {
    ValidIffListed(source, target);
    Describe(ReviewDescriptions, ReviewFallback, source, target)
  }

  /** Both description tables describe exactly the valid pairs. */
  lemma DescriptionsCoverValidPairs()
    ensures ConfigDescriptions.Keys == ValidPairs
    ensures ReviewDescriptions.Keys == ValidPairs
  {
  }

  // ---- the dependency step ----

  predicate Candidate(rs: seq<FormResource>, i: nat, j: nat)
    requires i < |rs| && j < |rs|
  {
    j != i && IsValidDependency(rs[i].resourceType, rs[j].resourceType)
  }

  /** Positions `from..` of the candidate list of resource `i`. */
  function CandidatesFrom(rs: seq<FormResource>, i: nat, from: nat): (js: seq<nat>)
    requires i < |rs| && from <= |rs|
    ensures forall k :: 0 <= k < |js| ==> from <= js[k] < |rs| && Candidate(rs, i, js[k])
    ensures forall k, l :: 0 <= k < l < |js| ==> js[k] < js[l]
    ensures forall j :: from <= j < |rs| && Candidate(rs, i, j) ==> j in js
    decreases |rs| - from
  {
    if from == |rs| then []
    else if Candidate(rs, i, from) then [from] + CandidatesFrom(rs, i, from + 1)
    else CandidatesFrom(rs, i, from + 1)
  }

  /** The potential dependencies of resource `i`, as positions in the list: every
      other resource whose type `i` may depend on, in list order. */
  function PotentialDependencies(rs: seq<FormResource>, i: nat): (js: seq<nat>)
    requires i < |rs|
    ensures i !in js
    ensures forall k :: 0 <= k < |js| ==> js[k] < |rs| && IsValidDependency(rs[i].resourceType, rs[js[k]].resourceType)
    ensures forall k, l :: 0 <= k < l < |js| ==> js[k] < js[l]
    ensures forall j :: 0 <= j < |rs| && j != i && IsValidDependency(rs[i].resourceType, rs[j].resourceType) ==> j in js
  {
    CandidatesFrom(rs, i, 0)
  }

  /** A resource gets a card in the dependency step only when it has candidates. */
  predicate HasCard(rs: seq<FormResource>, i: nat)
    requires i < |rs|
  {
    |PotentialDependencies(rs, i)| > 0
  }

  /** The warning below the cards: every resource has an empty candidate list. */
  predicate ShowsNoDependencyWarning(rs: seq<FormResource>) {
    forall i :: 0 <= i < |rs| ==> |PotentialDependencies(rs, i)| == 0
  }

  /** Some other resource is a valid target of resource `i`. */
  predicate HasCandidate(rs: seq<FormResource>, i: nat)
    requires i < |rs|
  {
    exists j :: 0 <= j < |rs| && Candidate(rs, i, j)
  }

  /** A card is shown for `i` exactly when some other resource is a valid target for it. */
  lemma HasCardIffCandidate(rs: seq<FormResource>, i: nat)
    requires i < |rs|
    ensures HasCard(rs, i) <==> HasCandidate(rs, i)
  {
    var js := PotentialDependencies(rs, i);
    if |js| > 0 {
      assert Candidate(rs, i, js[0]);
    }
    if HasCandidate(rs, i) {
      var j :| 0 <= j < |rs| && Candidate(rs, i, j);
      assert j in js;
    }
  }

  /** The warning is shown exactly when no card is shown, which is exactly when
      no two distinct resources form a valid pair. */
  lemma WarningIffNoCards(rs: seq<FormResource>)
    ensures ShowsNoDependencyWarning(rs) <==> forall i :: 0 <= i < |rs| ==> !HasCard(rs, i)
    ensures ShowsNoDependencyWarning(rs) <==> forall i :: 0 <= i < |rs| ==> !HasCandidate(rs, i)
  {
    forall i | 0 <= i < |rs|
      ensures HasCard(rs, i) <==> HasCandidate(rs, i)
      ensures HasCard(rs, i) <==> |PotentialDependencies(rs, i)| != 0
    {
      HasCardIffCandidate(rs, i);
    }
  }

  /** A single resource, or a list of buckets only, never offers a dependency. */
  lemma LoneOrBucketsOnlyShowWarning(rs: seq<FormResource>)
    requires |rs| <= 1 || forall i :: 0 <= i < |rs| ==> rs[i].resourceType == "s3_bucket"
    ensures ShowsNoDependencyWarning(rs)
  {
    WarningIffNoCards(rs);
  }

  /** A click on a candidate: a selected id is removed (every copy), an
      unselected one is appended at the end. */
  function Toggle(selected: seq<string>, id: string): (r: seq<string>)
    ensures id in selected ==> id !in r && forall x :: x in r <==> x in selected && x != id
    ensures id in selected ==> r == RemoveAll(selected, id)
    ensures id !in selected ==> r == selected + [id]
  {
    if id in selected then RemoveAll(selected, id) else selected + [id]
  }

  /** Removing a selected id keeps every other id, each copy in its place:
      the removal splits over any cut of the selection, and a single entry
      stays exactly when it is not the clicked id. */
  lemma {:induction false} ToggleOffKeepsOrder(a: seq<string>, b: seq<string>, y: string, id: string)
    requires id in a + b
    ensures Toggle(a + b, id) == RemoveAll(a, id) + RemoveAll(b, id)
    ensures RemoveAll([y], id) == if y == id then [] else [y]
  {
    RemoveAllAppend(a, b, id);
    assert [y][1..] == [];
  }

  /** Clicking an unselected candidate twice restores the selection. */
  lemma ToggleTwice(selected: seq<string>, id: string)
    requires id !in selected
    ensures Toggle(Toggle(selected, id), id) == selected
  {
    RemoveAllAppend(selected, [id], id);
    RemoveAllAbsent(selected, id);
    assert RemoveAll([id], id) == [];
  }

  /** On a selection without duplicates, a click flips exactly the clicked id. */
  lemma ToggleFlipsMembership(selected: seq<string>, id: string, other: string)
    ensures id in Toggle(selected, id) <==> id !in selected
    ensures other != id ==> (other in Toggle(selected, id) <==> other in selected)
  {
  }

  /** `handleDependencyChange(i, ids)`: only `resources[i].dependencies` is written. */
  function SetDependencies(rs: seq<FormResource>, i: nat, ids: seq<string>): (r: seq<FormResource>)
    requires i < |rs|
    ensures |r| == |rs|
    ensures r[i] == rs[i].(dependencies := Some(ids))
    ensures forall j :: 0 <= j < |rs| && j != i ==> r[j] == rs[j]
  {
    rs[i := rs[i].(dependencies := Some(ids))]
  }

  /** A click on candidate `j` of resource `i`, as the card handler does it. */
  function ClickCandidate(rs: seq<FormResource>, i: nat, j: nat): (r: seq<FormResource>)
    requires i < |rs| && j < |rs|
    ensures |r| == |rs| && forall k :: 0 <= k < |rs| && k != i ==> r[k] == rs[k]
    ensures r[i].dependencies == Some(Toggle(SelectedDependencies(rs[i]), rs[j].id))
  {
    SetDependencies(rs, i, Toggle(SelectedDependencies(rs[i]), rs[j].id))
  }

  // ---- the review views ----

  /** Does `r` list `id` among its dependencies? (`r.dependencies && r.dependencies.includes(id)`) */
  predicate Lists(r: FormResource, id: string) {
    r.dependencies.Some? && id in r.dependencies.value
  }

  /** The filter of the "depends on" view: `y` is listed by `x`. */
  function ListedBy(x: FormResource): FormResource -> bool {
    (y: FormResource) => Lists(x, y.id)
  }

  /** The filter of the "depended on by" view: `y` lists `x`. */
  function Listing(x: FormResource): FormResource -> bool {
    (y: FormResource) => Lists(y, x.id)
  }

  /** The resources `x` depends on, in list order. */
  function DependenciesOf(rs: seq<FormResource>, x: FormResource): (r: seq<FormResource>)
    ensures forall y :: y in r <==> y in rs && Lists(x, y.id)
  {
    Filter(rs, ListedBy(x))
  }

  /** The resources that depend on `x`, in list order. */
  function DependentsOf(rs: seq<FormResource>, x: FormResource): (r: seq<FormResource>)
    ensures forall y :: y in r <==> y in rs && Lists(y, x.id)
  {
    Filter(rs, Listing(x))
  }

  /** The "depends on" view keeps list order and multiplicity: it is computed
      piece by piece, each resource kept exactly when `x` lists it. */
  lemma DependenciesOfInOrder(a: seq<FormResource>, b: seq<FormResource>, y: FormResource, x: FormResource)
    ensures DependenciesOf(a + b, x) == DependenciesOf(a, x) + DependenciesOf(b, x)
    ensures DependenciesOf([y], x) == if Lists(x, y.id) then [y] else []
  {
    FilterAppend(a, b, ListedBy(x));
    FilterSingleton(y, ListedBy(x));
  }

  /** The "depended on by" view keeps list order and multiplicity in the same way. */
  lemma DependentsOfInOrder(a: seq<FormResource>, b: seq<FormResource>, y: FormResource, x: FormResource)
    ensures DependentsOf(a + b, x) == DependentsOf(a, x) + DependentsOf(b, x)
    ensures DependentsOf([y], x) == if Lists(y, x.id) then [y] else []
  {
    FilterAppend(a, b, Listing(x));
    FilterSingleton(y, Listing(x));
  }

  /** The two views are duals: within one list, `y` depends on `x` exactly when
      `x` is among the dependencies of `y`. */
  lemma DependentsDualDependencies(rs: seq<FormResource>, x: FormResource, y: FormResource)
    requires x in rs && y in rs
    ensures y in DependentsOf(rs, x) <==> x in DependenciesOf(rs, y)
  {
  }

  /** A resource that lists no dependency has an empty "depends on" view. */
  lemma NoListNoDependencies(rs: seq<FormResource>, x: FormResource)
    requires x.dependencies.None? || x.dependencies == Some([])
    ensures DependenciesOf(rs, x) == []
  {
  }
}
