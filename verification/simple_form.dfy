/** The three-step single-instance request form (`ResourceRequestForm`): the
    size table, the request it posts, its stepper, and what a reply leads to. */
module SimpleRequestForm {
  import opened Json

  const Steps: seq<string> := ["Resource Selection", "Configuration", "Review"]

  const DefaultSubnet: string := "subnet-07759e500cfdfb6b2"

  const SizeTable: map<string, string> := map["small" := "t2.micro", "medium" := "t2.small", "large" := "t2.medium"]

  /** `mapping[size] || 't2.micro'`. */
  function SizeMapping(size: string): (t: string)
    ensures size in SizeTable ==> t == SizeTable[size]
    ensures size !in SizeTable ==> t == "t2.micro"
    ensures t in {"t2.micro", "t2.small", "t2.medium"}
  {
    if size in SizeTable then SizeTable[size] else "t2.micro"
  }

  /** The three sizes map to three different instance types. */
  lemma SizeMappingSeparatesSizes(a: string, b: string)
    requires a in SizeTable && b in SizeTable
    ensures SizeMapping(a) == SizeMapping(b) <==> a == b
  {
  }

  datatype FormValues = FormValues(
    resourceType: string, size: string, region: string,
    name: string, environment: string, subnetId: Option<string>)

  const InitialValues: FormValues :=
    FormValues("ec2_instance", "medium", "eu-west-2", "", "dev", Some(DefaultSubnet))

  datatype Request = Request(
    resource_type: string, name: string, environment: string, region: string,
    instance_type: string, volume_size: string, subnet_id: string)

  /** The request posted on submit. */
  function BuildRequest(v: FormValues): (r: Request)
    ensures r.resource_type == v.resourceType && r.region == v.region
    ensures r.name == v.name && r.environment == v.environment
    ensures r.instance_type == SizeMapping(v.size) && r.volume_size == "20"
    ensures v.subnetId.Some? && v.subnetId.value != "" ==> r.subnet_id == v.subnetId.value
    ensures v.subnetId.None? || v.subnetId.value == "" ==> r.subnet_id == DefaultSubnet
    ensures r.subnet_id != ""
  {
    var subnet := if v.subnetId.Some? && v.subnetId.value != "" then v.subnetId.value else DefaultSubnet;
    Request(v.resourceType, v.name, v.environment, v.region, SizeMapping(v.size), "20", subnet)
  }

  /** Only the size is turned into an instance type; two forms that differ in
      anything else send requests that differ too. */
  lemma BuildRequestKeepsFields(v: FormValues, w: FormValues)
    requires BuildRequest(v) == BuildRequest(w)
    ensures v.resourceType == w.resourceType && v.name == w.name
    ensures v.environment == w.environment && v.region == w.region
  {
  }

  /** The yup schema: every top-level field and both nested fields are non-empty. */
  predicate Valid(v: FormValues) {
    v.resourceType != "" && v.size != "" && v.region != "" && v.name != "" && v.environment != ""
  }

  /** The initial values lack a name, so the form cannot be submitted untouched. */
  lemma InitialInvalid()
    ensures !Valid(InitialValues)
  {
  }

  /** Back (disabled on the first step) and Next (shown before the last step). */
  datatype Button = Next | Back

  function Press(step: nat, b: Button): (r: nat)
    requires step < |Steps|
    ensures r < |Steps|
    ensures b == Back ==> r == (if step == 0 then 0 else step - 1)
    ensures b == Next ==> r == (if step == |Steps| - 1 then step else step + 1)
  {
    match b
    case Back => if step == 0 then step else step - 1
    case Next => if step < |Steps| - 1 then step + 1 else step
  }

  /** The submit button replaces Next exactly on the review step. */
  predicate ShowsSubmit(step: nat) {
    step == |Steps| - 1
  }

  lemma SubmitOnlyOnReview(step: nat)
    requires step < |Steps|
    ensures ShowsSubmit(step) <==> step == 2
    ensures ShowsSubmit(step) <==> Steps[step] == "Review"
  {
  }

  /** Next then Back returns to the step the user was on, before the last step. */
  lemma NextThenBack(step: nat)
    requires step < |Steps| - 1
    ensures Press(Press(step, Next), Back) == step
  {
  }

  /** What the page does with the reply. */
  datatype Reply = Created(requestId: string) | Failed(detail: Option<string>)
  datatype Outcome = NavigateTo(path: string) | ShowError(message: string)

  function AfterSubmit(r: Reply): (o: Outcome)
    ensures r.Created? ==> o == NavigateTo("/deployments/" + r.requestId)
    ensures r.Failed? && r.detail.Some? && r.detail.value != "" ==> o == ShowError(r.detail.value)
    ensures r.Failed? && (r.detail.None? || r.detail.value == "") ==> o == ShowError("Failed to submit resource request")
    ensures o.ShowError? ==> o.message != ""
  {
    match r
    case Created(id) => NavigateTo("/deployments/" + id)
    case Failed(detail) =>
      if detail.Some? && detail.value != "" then ShowError(detail.value)
      else ShowError("Failed to submit resource request")
  }
}
