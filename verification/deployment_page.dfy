/** The single-deployment page (`DeploymentStatus`): the progress stepper, the
    status chip, the outputs section and the loading indicator, all read from
    the snapshot the status hook keeps. */
module DeploymentPage {
  import opened Json
  import opened Strings
  import opened DeploymentSync
  import BackendApi

  /** The status string the stepper and the chip colour switch on. A missing or
      non-string field matches no case there, exactly as the empty string does;
      the chip's label is another matter (`ChipOf`). */
  function StatusOf(snap: Snapshot): (s: string)
    ensures "status" in snap && snap["status"].Str? ==> s == snap["status"].s
  {
    if "status" in snap && snap["status"].Str? then snap["status"].s else ""
  }

  /** The active step: pending 0, in progress 1, completed 2, failed stays at 1. */
  function StepNumber(status: string): (n: nat)
    ensures n <= 2
    ensures n == 2 <==> status == "completed"
    ensures n == 1 <==> status == "in_progress" || status == "failed"
  {
    match status
    case "pending" => 0
    case "in_progress" => 1
    case "completed" => 2
    case "failed" => 1
    case _ => 0
  }

  /** The completed marks of the steps Initiated, In Progress and Completed. */
  function StepsCompleted(status: string): (done: seq<bool>)
    ensures |done| == 3
    ensures done[0] <==> status != "pending"
    ensures done[2] <==> status == "completed"
  {
    [status != "pending", status == "in_progress" || status == "completed", status == "completed"]
  }

  /** The marks form a prefix: a step is marked only when every earlier one is,
      and every step before the active one is marked. */
  lemma CompletedStepsFormPrefix(status: string)
    ensures forall i, j :: 0 <= i <= j < 3 && StepsCompleted(status)[j] ==> StepsCompleted(status)[i]
    ensures forall j :: 0 <= j < StepNumber(status) ==> StepsCompleted(status)[j]
  {
  }

  datatype ChipColour = Success | Error | Primary | Default

  function ChipColourOf(status: string): (c: ChipColour)
    ensures c == Success <==> status == "completed"
    ensures c == Error <==> status == "failed"
    ensures c == Primary <==> status == "in_progress" || status == "pending"
    ensures c == Default <==> status !in {"completed", "failed", "in_progress", "pending"}
  {
    match status
    case "completed" => Success
    case "failed" => Error
    case "in_progress" => Primary
    case "pending" => Primary
    case _ => Default
  }

  /** The chip text: the first underscore becomes a space, then upper case. */
  function ChipLabel(status: string): (l: string)
    ensures |l| == |status|
    ensures forall i :: 0 <= i < |l| ==> !('a' <= l[i] <= 'z')
    ensures FirstIndex(status, '_').None? ==> l == Upper(status)
  {
    Upper(ReplaceFirst(status, '_', ' '))
  }

  /** The chip rendered for a snapshot: `status.replace(...)` exists only on a
      string, so a missing, null or otherwise non-string status makes the
      render throw (`None`) instead of showing a label. */
  function ChipOf(snap: Snapshot): (l: Option<string>)
    ensures l.None? <==> !("status" in snap && snap["status"].Str?)
    ensures l.Some? ==> l.value == ChipLabel(snap["status"].s) && |l.value| == |snap["status"].s|
  {
    if "status" in snap && snap["status"].Str? then Some(ChipLabel(snap["status"].s)) else None
  }

  /** A webhook that omits `status` stores `null`; the next status pull hands
      that to the page, whose chip then throws. */
  lemma StatuslessWebhookBreaksChip(
    check: BackendApi.SecretCheck, secret: Option<string>, data: Object, store: BackendApi.Store, id: string)
    requires BackendApi.WellFormed(store)
    requires BackendApi.Accepts(check, secret, data) && "deployment_id" in data && data["deployment_id"] == Str(id)
    requires "status" !in data
    ensures var r := BackendApi.DeploymentStatus(BackendApi.Webhook(check, secret, data, store).store, id);
      r.code == 200 && ChipOf(Settle(r.body)).None?
  {
    BackendApi.WebhookStatusVisible(check, secret, data, store, id);
  }

  /** The chip of a status with an underscore: the part before the first
      underscore and the rest, each upper-cased, joined by a space. Later
      underscores stay. */
  lemma ChipLabelSpacesFirstUnderscore(a: string, b: string)
    requires '_' !in a
    ensures ChipLabel(a + "_" + b) == Upper(a) + " " + Upper(b)
  {
    var s := a + "_" + b;
    assert s[|a|] == '_';
    assert forall j :: 0 <= j < |a| ==> s[j] == a[j];
    var t := ReplaceFirst(s, '_', ' ');
    assert FirstIndex(s, '_') == Some(|a|);
    assert t == a + " " + b;
    assert ChipLabel(s) == Upper(t);
    UpperAppend(a + " ", b);
    UpperAppend(a, " ");
    assert Upper(" ") == " ";
  }

  /** `Object.keys(v).length`: the fields of an object, the elements of an
      array, the characters of a string, and none for other values. */
  function KeyCount(v: Value): (n: nat)
    ensures v.Obj? ==> n == |v.fields|
    ensures v.Null? || v.Bool? || v.Num? ==> n == 0
  {
    match v
    case Obj(f) => |f|
    case Arr(items) => |items|
    case Str(s) => |s|
    case _ => 0
  }

  /** The outputs section appears when the snapshot has outputs with at least one key. */
  predicate ShowsOutputs(snap: Snapshot) {
    FieldTruthy(snap, "outputs") && KeyCount(snap["outputs"]) > 0
  }

  /** The entries listed for an outputs object: each value rendered with `String`. */
  function OutputEntries(outputs: Object): (e: map<string, string>)
    ensures e.Keys == outputs.Keys
    ensures forall k :: k in outputs && outputs[k].Str? ==> e[k] == outputs[k].s
  {
    map k | k in outputs :: Text(outputs[k])
  }

  /** An absent, empty-object or empty-string output field shows no section. */
  lemma EmptyOutputsHidden(snap: Snapshot)
    requires "outputs" !in snap || snap["outputs"] == Obj(map[]) || snap["outputs"] == Str("")
      || snap["outputs"] == Null
    ensures !ShowsOutputs(snap)
  {
  }

  /** `status?.isLoading || !status`. */
  predicate IsLoading(status: Option<Snapshot>) {
    status.None? || FieldTruthy(status.value, "isLoading")
  }

  /** Every snapshot the hook stores has `isLoading: false`, so the page shows
      the loading state exactly until the first snapshot arrives. */
  lemma LoadingUntilFirstSnapshot(c: Config, s: State)
    requires Inv(c, s)
    ensures IsLoading(s.status) <==> s.status.None?
  {
  }

  /** For any run of the hook, the page is loading exactly while no snapshot is held. */
  lemma LoadingIffNoSnapshot(v: Variant, c: Config, events: seq<Event>)
    ensures IsLoading(Run(v, c, events).status) <==> Run(v, c, events).status.None?
  {
    RunKeepsInv(v, c, events);
    LoadingUntilFirstSnapshot(c, Run(v, c, events));
  }
}
