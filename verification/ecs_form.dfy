/** The wizard's ECS step: the Fargate size selector, which shows and accepts
    a `cpu-memory` key, and the switch that fronts the service with a load
    balancer. */
module EcsForm {
  import opened Json
  import opened Strings
  import opened Wizard

  datatype FargateSize = FargateSize(cpu: nat, memory: nat)

  const FargateSizes: seq<FargateSize> := [
    FargateSize(256, 512), FargateSize(256, 1024), FargateSize(512, 1024),
    FargateSize(1024, 2048), FargateSize(2048, 4096), FargateSize(4096, 8192)]

  /** The selector key of a size, `{cpu}-{memory}`. */
  function SizeKey(s: FargateSize): (k: string)
    ensures |k| >= 3
  {
    NatToString(s.cpu) + "-" + NatToString(s.memory)
  }

  /** Different sizes never share a key, so a key names one size. */
  lemma SizeKeyInjective(a: FargateSize, b: FargateSize)
    requires SizeKey(a) == SizeKey(b)
    ensures a == b
  {
    assert NatToString(a.cpu) + ['-'] + NatToString(a.memory) == NatToString(b.cpu) + ['-'] + NatToString(b.memory);
    SplitAtSeparator(NatToString(a.cpu), NatToString(a.memory), NatToString(b.cpu), NatToString(b.memory), '-');
    NatToStringInjective(a.cpu, b.cpu);
    NatToStringInjective(a.memory, b.memory);
  }

  /** The six listed sizes have six different keys. */
  lemma FargateKeysDistinct(i: nat, j: nat)
    requires i < j < |FargateSizes|
    ensures SizeKey(FargateSizes[i]) != SizeKey(FargateSizes[j])
  {
    if SizeKey(FargateSizes[i]) == SizeKey(FargateSizes[j]) {
      SizeKeyInjective(FargateSizes[i], FargateSizes[j]);
    }
  }

  /** `fargateSizes.find(size => key === ...)`. */
  function FindSize(sizes: seq<FargateSize>, key: string): (r: Option<FargateSize>)
    ensures r.Some? ==> r.value in sizes && SizeKey(r.value) == key
    ensures r.None? <==> forall i :: 0 <= i < |sizes| ==> SizeKey(sizes[i]) != key
    decreases |sizes|
  {
    if sizes == [] then None
    else if SizeKey(sizes[0]) == key then Some(sizes[0])
    else
      var r := FindSize(sizes[1..], key);
      assert forall i :: 1 <= i < |sizes| ==> sizes[i] == sizes[1..][i - 1];
      r
  }

  /** The size selector: a listed key sets cpu and memory, any other key changes nothing. */
  function SelectSize(e: EcsValues, key: string): (r: EcsValues)
    ensures FindSize(FargateSizes, key).None? ==> r == e
    ensures FindSize(FargateSizes, key).Some? ==>
      && r == e.(cpu := Number(FindSize(FargateSizes, key).value.cpu),
                 memory := Number(FindSize(FargateSizes, key).value.memory))
      && SizeKey(FargateSize(r.cpu.n, r.memory.n)) == key
  {
    match FindSize(FargateSizes, key)
    case None => e
    case Some(s) => e.(cpu := Number(s.cpu), memory := Number(s.memory))
  }

  /** The key the selector shows for the current values. */
  function CurrentSizeValue(e: EcsValues): string {
    NumberText(e.cpu) + "-" + NumberText(e.memory)
  }

  /** Selecting a listed key shows that key. */
  lemma SelectThenShow(e: EcsValues, k: nat)
    requires k < |FargateSizes|
    ensures CurrentSizeValue(SelectSize(e, SizeKey(FargateSizes[k]))) == SizeKey(FargateSizes[k])
  {
    var s := FindSize(FargateSizes, SizeKey(FargateSizes[k]));
    assert s.Some? by { assert SizeKey(FargateSizes[k]) == SizeKey(FargateSizes[k]); }
  }

  /** Showing a listed size and selecting the key shown changes nothing. */
  lemma ShowThenSelect(e: EcsValues, k: nat)
    requires k < |FargateSizes|
    requires e.cpu == Number(FargateSizes[k].cpu) && e.memory == Number(FargateSizes[k].memory)
    ensures SelectSize(e, CurrentSizeValue(e)) == e
  {
    var key := CurrentSizeValue(e);
    assert key == SizeKey(FargateSizes[k]);
    var s := FindSize(FargateSizes, key);
    assert s.Some?;
    SizeKeyInjective(s.value, FargateSizes[k]);
  }

  /** The wizard starts on the first listed size. */
  lemma InitialSizeListed()
    ensures CurrentSizeValue(InitialValues.ecs) == SizeKey(FargateSizes[0])
  {
  }

  /** The load-balancer switch: it sets `frontWithAlb`, and switching on with
      no load-balancer name names it `{name}-alb`. */
  function ToggleAlb(v: WizardValues, checked: bool): (r: WizardValues)
    ensures r.dependencies == v.dependencies.(frontWithAlb := checked)
    ensures checked && v.alb.name == "" ==> r.alb == v.alb.(name := v.name + "-alb")
    ensures !(checked && v.alb.name == "") ==> r.alb == v.alb
    ensures r.(dependencies := v.dependencies, alb := v.alb) == v
  {
    var r := v.(dependencies := v.dependencies.(frontWithAlb := checked));
    if checked && v.alb.name == "" then r.(alb := v.alb.(name := v.name + "-alb")) else r
  }

  /** Switching off then on again keeps the name given the first time. */
  lemma ToggleAlbKeepsName(v: WizardValues)
    ensures ToggleAlb(ToggleAlb(ToggleAlb(v, true), false), true).alb == ToggleAlb(v, true).alb
  {
  }
}
