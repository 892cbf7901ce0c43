/** The multi-resource stack request form (`EnhancedResourceRequestForm`): the
    resource list it edits, the per-type default configuration, the validation
    rules, the list operations and the submit payload. */
module StackForm {
  import opened Json

  /** One entry of the form's resource list. `dependencies` is absent on
      resources added with the Add button until the dependency step writes it. */
  datatype FormResource = FormResource(
    id: string,
    resourceType: string,
    name: string,
    region: string,
    environment: string,
    configuration: Object,
    dependencies: Option<seq<string>>)

  /** `resource.dependencies || []` */
  function SelectedDependencies(r: FormResource): (ids: seq<string>)
    ensures r.dependencies.Some? ==> ids == r.dependencies.value
    ensures r.dependencies.None? ==> ids == []
  {
    r.dependencies.GetOr([])
  }

  const Steps: seq<string> := ["Resource Selection", "Configuration", "Dependencies", "Review"]

  const KnownTypes: set<string> := {
    "ec2_instance", "s3_bucket", "rds_instance", "security_group",
    "elastic_ip", "load_balancer", "ecs_service"}

  const DefaultSubnet: string := "subnet-07759e500cfdfb6b2"
  const SecondSubnet: string := "subnet-0d95a35be6e1fb603"

  /** The starting rule of a new security group: SSH from anywhere. */
  const DefaultSshRule: Object := map[
    "type" := Str("ingress"), "protocol" := Str("tcp"),
    "port_range" := Str("22"), "source" := Str("0.0.0.0/0")]

  /** `getDefaultConfiguration`: a fixed record per known type, `{}` otherwise. */
  function DefaultConfiguration(t: string): (r: Object)
    ensures t !in KnownTypes ==> r == map[]
    ensures t == "ec2_instance" ==>
      && r.Keys == {"size", "subnet_id", "assign_eip", "security_groups"}
      && r["size"] == Str("medium") && r["subnet_id"] == Str(DefaultSubnet) && r["assign_eip"] == Bool(false)
    ensures t == "load_balancer" ==>
      && r.Keys == {"scheme", "security_groups", "subnets"}
      && r["scheme"] == Str("internet-facing")
      && r["subnets"] == Arr([Str(DefaultSubnet), Str(SecondSubnet)])
    ensures t == "ecs_service" ==> "desired_count" in r && r["desired_count"] == Num(1)
    ensures t == "security_group" ==> "rules" in r && r["rules"] == Arr([Obj(DefaultSshRule)])
  {
    match t
    case "ec2_instance" =>
      map["size" := Str("medium"), "subnet_id" := Str(DefaultSubnet),
          "assign_eip" := Bool(false), "security_groups" := Arr([])]
    case "s3_bucket" =>
      map["versioning_enabled" := Bool(false), "public_access" := Bool(false)]
    case "rds_instance" =>
      map["engine" := Str("mysql"), "size" := Str("medium"),
          "multi_az" := Bool(false), "security_groups" := Arr([])]
    case "security_group" =>
      map["description" := Str(""), "rules" := Arr([Obj(DefaultSshRule)])]
    case "elastic_ip" =>
      map["associate_with" := Str("")]
    case "load_balancer" =>
      map["scheme" := Str("internet-facing"), "security_groups" := Arr([]),
          "subnets" := Arr([Str(DefaultSubnet), Str(SecondSubnet)])]
    case "ecs_service" =>
      map["task_definition" := Str(""), "desired_count" := Num(1),
          "deployment_strategy" := Str("rolling"), "load_balancer" := Str("")]
    case _ => map[]
  }

  /** Exactly the seven known types get a non-empty default. */
  lemma DefaultEmptyIffUnknown(t: string)
    ensures DefaultConfiguration(t) == map[] <==> t !in KnownTypes
  {
    var r := DefaultConfiguration(t);
    if t == "ec2_instance" { assert "size" in r; }
    else if t == "s3_bucket" { assert "versioning_enabled" in r; }
    else if t == "rds_instance" { assert "engine" in r; }
    else if t == "security_group" { assert "rules" in r; }
    else if t == "elastic_ip" { assert "associate_with" in r; }
    else if t == "load_balancer" { assert "scheme" in r; }
    else if t == "ecs_service" { assert "desired_count" in r; }
  }

  // ---- validation rules ----

  /** Yup's `string().required()`: present, a string, and not empty. */
  predicate RequiredString(o: Object, k: string) {
    k in o && o[k].Str? && o[k].s != ""
  }

  /** A security-group rule: `port_range` may be missing only for ICMP; type,
      protocol and source are always required. */
  predicate RuleValid(rule: Object) {
    && RequiredString(rule, "type")
    && RequiredString(rule, "protocol")
    && RequiredString(rule, "source")
    && (rule["protocol"] == Str("icmp") || FieldTruthy(rule, "port_range"))
  }

  /** The load-balancer subnet rule: when a list is given it has at least two entries. */
  predicate SubnetsValid(config: Object) {
    "subnets" in config && config["subnets"].Arr? ==> |config["subnets"].items| >= 2
  }

  /** The ECS desired-count rule: a number of at least one. */
  predicate DesiredCountValid(config: Object) {
    "desired_count" in config && config["desired_count"].Num? && config["desired_count"].n >= 1
  }

  /** One list entry: id, type, name, region and environment are all non-empty. */
  predicate ResourceValid(r: FormResource) {
    r.id != "" && r.resourceType != "" && r.name != "" && r.region != "" && r.environment != ""
  }

  /** The form-level schema: at least one resource, every resource valid. */
  predicate FormValid(rs: seq<FormResource>) {
    |rs| >= 1 && forall i :: 0 <= i < |rs| ==> ResourceValid(rs[i])
  }

  /** The rule above leaves ICMP rules free of a port and demands one otherwise. */
  lemma PortRequiredUnlessIcmp(rule: Object)
    requires RequiredString(rule, "type") && RequiredString(rule, "source")
    requires RequiredString(rule, "protocol")
    ensures rule["protocol"] == Str("icmp") ==> RuleValid(rule)
    ensures rule["protocol"] != Str("icmp") ==> (RuleValid(rule) <==> FieldTruthy(rule, "port_range"))
  {
  }

  /** The defaults meet the rules they are checked against: two subnets for a
      load balancer, a desired count of one for a service, and a complete SSH rule. */
  lemma DefaultsMeetRules()
    ensures SubnetsValid(DefaultConfiguration("load_balancer"))
    ensures DesiredCountValid(DefaultConfiguration("ecs_service"))
    ensures RuleValid(DefaultSshRule)
  {
  }

  // ---- list operations ----

  /** The list the form starts with: one EC2 instance with no dependencies. */
  function InitialResources(id: string): (rs: seq<FormResource>)
    ensures |rs| == 1 && rs[0].id == id && rs[0].resourceType == "ec2_instance"
    ensures rs[0].configuration == DefaultConfiguration("ec2_instance") && rs[0].dependencies == Some([])
    ensures rs[0].name == "" && rs[0].region == "eu-west-2" && rs[0].environment == "dev"
  {
    [FormResource(id, "ec2_instance", "", "eu-west-2", "dev", DefaultConfiguration("ec2_instance"), Some([]))]
  }

  /** The Add button: the empty resource with a fresh id, EC2 type and EC2
      defaults. It carries no dependency list. */
  function AddResource(rs: seq<FormResource>, id: string): (r: seq<FormResource>)
    ensures |r| == |rs| + 1 && r[..|rs|] == rs
    ensures r[|rs|] == FormResource(id, "ec2_instance", "", "eu-west-2", "dev",
      DefaultConfiguration("ec2_instance"), None)
  {
    rs + [FormResource(id, "ec2_instance", "", "eu-west-2", "dev", DefaultConfiguration("ec2_instance"), None)]
  }

  /** A freshly added resource has no name yet, so the form is invalid until it gets one. */
  lemma AddedResourceBlocksSubmit(rs: seq<FormResource>, id: string)
    ensures !FormValid(AddResource(rs, id))
  {
    var r := AddResource(rs, id);
    assert !ResourceValid(r[|rs|]);
  }

  /** The delete button is offered only while more than one resource is listed. */
  predicate CanRemove(rs: seq<FormResource>) {
    |rs| > 1
  }

  /** `remove(index)`, reachable only through the delete button. */
  function RemoveResource(rs: seq<FormResource>, i: nat): (r: seq<FormResource>)
    requires CanRemove(rs) && i < |rs|
    ensures |r| == |rs| - 1 && |r| >= 1
    ensures forall j :: 0 <= j < i ==> r[j] == rs[j]
    ensures forall j :: i <= j < |r| ==> r[j] == rs[j + 1]
  {
    rs[..i] + rs[i + 1..]
  }

  /** However the delete button is used, the list never becomes empty. */
  lemma {:induction false} RemovalsKeepOne(rs: seq<FormResource>, picks: seq<nat>)
    requires |rs| >= 1
    ensures |RemoveEach(rs, picks)| >= 1
    decreases |picks|
  {
    if picks != [] && CanRemove(rs) && picks[0] < |rs| {
      RemovalsKeepOne(RemoveResource(rs, picks[0]), picks[1..]);
    } else if picks != [] {
      RemovalsKeepOne(rs, picks[1..]);
    }
  }

  /** A series of clicks on delete buttons; a click on a button that is not
      offered (one resource left, or no such card) does nothing. */
  function RemoveEach(rs: seq<FormResource>, picks: seq<nat>): seq<FormResource>
    decreases |picks|
  {
    if picks == [] then rs
    else if CanRemove(rs) && picks[0] < |rs| then RemoveEach(RemoveResource(rs, picks[0]), picks[1..])
    else RemoveEach(rs, picks[1..])
  }

  /** The type selector: the type and the configuration are replaced, nothing else changes. */
  function ChangeType(rs: seq<FormResource>, i: nat, t: string): (r: seq<FormResource>)
    requires i < |rs|
    ensures |r| == |rs|
    ensures r[i] == rs[i].(resourceType := t, configuration := DefaultConfiguration(t))
    ensures forall j :: 0 <= j < |rs| && j != i ==> r[j] == rs[j]
  {
    rs[i := rs[i].(resourceType := t, configuration := DefaultConfiguration(t))]
  }

  /** One entry of the stack request body. */
  datatype StackItem = StackItem(
    resource_type: string,
    name: string,
    environment: string,
    region: string,
    parameters: Object,
    dependencies: seq<string>)

  function ToStackItem(r: FormResource): StackItem {
    StackItem(r.resourceType, r.name, r.environment, r.region, r.configuration, SelectedDependencies(r))
  }

  /** The submit body: one item per resource, in list order, with the
      configuration as parameters and a missing dependency list sent as `[]`. */
  function SubmitPayload(rs: seq<FormResource>): (items: seq<StackItem>)
    ensures |items| == |rs|
    ensures forall i :: 0 <= i < |rs| ==>
      && items[i].resource_type == rs[i].resourceType && items[i].name == rs[i].name
      && items[i].environment == rs[i].environment && items[i].region == rs[i].region
      && items[i].parameters == rs[i].configuration
      && items[i].dependencies == (if rs[i].dependencies.Some? then rs[i].dependencies.value else [])
    decreases |rs|
  {
    if rs == [] then [] else [ToStackItem(rs[0])] + SubmitPayload(rs[1..])
  }

  /** The body of a list joined from two parts is the two bodies joined. */
  lemma {:induction false} SubmitPayloadAppend(a: seq<FormResource>, b: seq<FormResource>)
    ensures SubmitPayload(a + b) == SubmitPayload(a) + SubmitPayload(b)
    decreases |a|
  {
    if a == [] {
      assert a + b == b;
    } else {
      assert (a + b)[1..] == a[1..] + b;
      SubmitPayloadAppend(a[1..], b);
    }
  }
}
