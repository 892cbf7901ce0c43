/** The stack deployment page (`StackDeploymentStatus`): when it polls, the
    id-to-resource map, the dependency-aware ordering of the timeline, and the
    chips and dots that show each resource's status. */
module StackStatusPage {
  import opened Json
  import opened Strings

  // ---- polling ----

  /** `data?.status === s` */
  predicate StatusIs(data: Option<Object>, s: string) {
    data.Some? && "status" in data.value && data.value["status"] == Str(s)
  }

  datatype Interval = Stop | Every(ms: nat)

  /** The query's refetch interval: none once the stack has finished. */
  function RefetchInterval(data: Option<Object>): (i: Interval)
    ensures i == Stop <==> StatusIs(data, "completed") || StatusIs(data, "failed")
    ensures i.Every? ==> i.ms == 5000
  {
    if StatusIs(data, "completed") || StatusIs(data, "failed") then Stop else Every(5000)
  }

  /** The extra five-second timer refetches only for a pending or running stack. */
  predicate EffectRefetches(data: Option<Object>) {
    StatusIs(data, "pending") || StatusIs(data, "in_progress")
  }

  /** The timer only refetches where the query still polls; the query also polls
      before any data and for statuses the timer ignores. */
  lemma EffectWithinPolling(data: Option<Object>)
    ensures EffectRefetches(data) ==> RefetchInterval(data).Every?
    ensures data.None? ==> RefetchInterval(data).Every? && !EffectRefetches(data)
  {
  }

  // ---- resources ----

  datatype StackResource = StackResource(
    id: string, name: string, resourceType: string, status: string, dependencies: Option<seq<string>>)

  /** `resource.dependencies || []` */
  function Deps(r: StackResource): seq<string> {
    r.dependencies.GetOr([])
  }

  /** `resources.reduce((m, r) => { m[r.id] = r; ... }, {})`, folded from the left. */
  function ResourceMap(rs: seq<StackResource>): (m: map<string, StackResource>)
    ensures m.Keys == set i | 0 <= i < |rs| :: rs[i].id
    ensures forall id :: id in m ==> m[id].id == id && m[id] in rs
    decreases |rs|
  {
    if rs == [] then map[]
    else
      var last := rs[|rs| - 1];
      var m := ResourceMap(rs[..|rs| - 1]);
      assert forall i :: 0 <= i < |rs| - 1 ==> rs[..|rs| - 1][i] == rs[i];
      m[last.id := last]
  }

  /** The map holds, for every id, the last resource listed with that id. */
  lemma {:induction false} LastOneWins(rs: seq<StackResource>, i: nat)
    requires i < |rs|
    requires forall j :: i < j < |rs| ==> rs[j].id != rs[i].id
    ensures ResourceMap(rs)[rs[i].id] == rs[i]
    decreases |rs|
  {
    if i < |rs| - 1 {
      var init := rs[..|rs| - 1];
      assert init[i] == rs[i];
      assert forall j :: i < j < |init| ==> init[j] == rs[j];
      LastOneWins(init, i);
    }
  }

  /** A dependency chip: the dependency's name when its id is known and named,
      otherwise the raw id. */
  function DepChipLabel(m: map<string, StackResource>, depId: string): (l: string)
    ensures depId in m && m[depId].name != "" ==> l == m[depId].name
    ensures !(depId in m && m[depId].name != "") ==> l == depId
  {
    if depId in m && m[depId].name != "" then m[depId].name else depId
  }

  datatype Colour = Success | Error | Warning | Primary | Grey | Default

  function DepChipColour(m: map<string, StackResource>, depId: string): (c: Colour)
    ensures c == Success <==> depId in m && m[depId].status == "completed"
    ensures c == Error <==> depId in m && m[depId].status == "failed"
    ensures c == Default <==> !(depId in m && m[depId].status in {"completed", "failed"})
  {
    if depId in m && m[depId].status == "completed" then Success
    else if depId in m && m[depId].status == "failed" then Error
    else Default
  }

  /** The stack status chip: completed green, failed red, running amber, anything else plain. */
  function StackChipColour(status: string): (c: Colour)
    ensures c == Success <==> status == "completed"
    ensures c == Error <==> status == "failed"
    ensures c == Warning <==> status == "in_progress"
    ensures c == Default <==> status !in {"completed", "failed", "in_progress"}
  {
    match status
    case "completed" => Success
    case "failed" => Error
    case "in_progress" => Warning
    case _ => Default
  }

  /** The stack status chip's label (`status.replace('_', ' ')`). */
  function StatusChipLabel(status: string): string {
    SpaceFirstUnderscore(status)
  }

  /** The stack's chip for the `status` field as received: only a string has
      `replace`, so any other value, `null` included, makes the render throw
      (`None`). */
  function StackChipOf(status: Value): (l: Option<string>)
    ensures l.None? <==> !status.Str?
    ensures l.Some? ==> l.value == StatusChipLabel(status.s) && |l.value| == |status.s|
  {
    if status.Str? then Some(StatusChipLabel(status.s)) else None
  }

  /** The running status reads "in progress" on its chip. */
  lemma InProgressChipLabel()
    ensures StatusChipLabel("in_progress") == "in progress"
  {
    assert "in_progress" == "in" + "_" + "progress";
    SpaceFirstUnderscoreSplits("in", "progress");
    assert "in" + " " + "progress" == "in progress";
  }

  /** The timeline dot of a resource. */
  function DotColour(status: string): (c: Colour)
    ensures c == Success <==> status == "completed"
    ensures c == Error <==> status == "failed"
    ensures c == Primary <==> status == "in_progress"
    ensures c == Grey <==> status !in {"completed", "failed", "in_progress"}
  {
    if status == "completed" then Success
    else if status == "failed" then Error
    else if status == "in_progress" then Primary
    else Grey
  }

  /** A resource's chip shows its status, or "pending" when it has none. */
  function ResourceChipStatus(r: StackResource): (s: string)
    ensures r.status != "" ==> s == r.status
    ensures r.status == "" ==> s == "pending"
  {
    if r.status != "" then r.status else "pending"
  }

  // ---- ordering ----

  /** Code-point order on strings, -1, 0 or 1. */
  function LexCompare(a: string, b: string): (c: int)
    ensures c in {-1, 0, 1}
    ensures c == 0 <==> a == b
    decreases |a|
  {
    if a == [] && b == [] then 0
    else if a == [] then -1
    else if b == [] then 1
    else if a[0] < b[0] then -1
    else if a[0] > b[0] then 1
    else
      var c := LexCompare(a[1..], b[1..]);
      assert c == 0 ==> a == [a[0]] + a[1..] == [b[0]] + b[1..] == b;
      c
  }

  lemma {:induction false} LexCompareAntisymmetric(a: string, b: string)
    ensures LexCompare(b, a) == -LexCompare(a, b)
    decreases |a|
  {
    if a != [] && b != [] && a[0] == b[0] {
      LexCompareAntisymmetric(a[1..], b[1..]);
    }
  }

  /** The timeline comparator: a resource that depends on another goes after it,
      and otherwise the names decide. */
  function Compare(a: StackResource, b: StackResource): (c: int)
    ensures c in {-1, 0, 1}
    ensures b.id in Deps(a) ==> c == 1
    ensures b.id !in Deps(a) && a.id in Deps(b) ==> c == -1
    ensures b.id !in Deps(a) && a.id !in Deps(b) ==> c == LexCompare(a.name, b.name)
  {
    if b.id in Deps(a) then 1
    else if a.id in Deps(b) then -1
    else LexCompare(a.name, b.name)
  }

  /** The comparator is not a consistent order: with `x` depending on `z`, names
      put `x` before `y` before `z`, while the dependency puts `x` after `z`. */
  lemma CompareNotTransitive()
    ensures var x := StackResource("1", "a", "ec2_instance", "", Some(["3"]));
      var y := StackResource("2", "b", "ec2_instance", "", None);
      var z := StackResource("3", "c", "ec2_instance", "", None);
      Compare(x, y) == -1 && Compare(y, z) == -1 && Compare(x, z) == 1
  {
    var x := StackResource("1", "a", "ec2_instance", "", Some(["3"]));
    var y := StackResource("2", "b", "ec2_instance", "", None);
    var z := StackResource("3", "c", "ec2_instance", "", None);
    assert LexCompare("a", "b") == -1;
    assert LexCompare("b", "c") == -1;
    assert "1" !in Deps(y) && "2" !in Deps(x);
    assert "2" !in Deps(z) && "3" !in Deps(y);
  }

  /** Insert `x` before the first element it does not compare greater than. */
  function Insert(x: StackResource, s: seq<StackResource>): (r: seq<StackResource>)
    ensures |r| == |s| + 1
    ensures multiset(r) == multiset(s) + multiset{x}
    decreases |s|
  {
    if s == [] then [x]
    else if Compare(x, s[0]) <= 0 then [x] + s
    else
      var rest := Insert(x, s[1..]);
      assert s == [s[0]] + s[1..];
      [s[0]] + rest
  }

  /** The order the timeline is drawn in: an insertion sort of a copy of the
      list with the comparator above. The engine's sort algorithm is not
      modelled; with this comparator its order is implementation-defined. */
  function SortResources(rs: seq<StackResource>): (r: seq<StackResource>)
    decreases |rs|
  {
    if rs == [] then [] else Insert(rs[0], SortResources(rs[1..]))
  }

  /** The timeline shows every resource exactly as often as the list holds it. */
  lemma {:induction false} SortIsPermutation(rs: seq<StackResource>)
    ensures |SortResources(rs)| == |rs|
    ensures multiset(SortResources(rs)) == multiset(rs)
    decreases |rs|
  {
    if rs != [] {
      SortIsPermutation(rs[1..]);
      assert rs == [rs[0]] + rs[1..];
    }
  }

  /** Of two resources where one depends on the other, the dependency is drawn first. */
  lemma DependencyFirstForPairs(a: StackResource, b: StackResource)
    requires b.id in Deps(a) && a.id !in Deps(b)
    ensures SortResources([a, b]) == [b, a]
    ensures SortResources([b, a]) == [b, a]
  {
    assert [a, b][1..] == [b] && [b, a][1..] == [a];
    assert [b][1..] == [] && [a][1..] == [];
    assert SortResources([b]) == [b] && SortResources([a]) == [a];
    assert Compare(a, b) == 1 && Compare(b, a) == -1;
    assert Insert(a, [b]) == [b] + Insert(a, []);
  }
}
