/** The workflow dispatch of the backend (`trigger_infrastructure_deployment`):
    the workflow inputs and per-type configuration built from a deployment
    request, the dispatch call with GitHub's reply abstracted as a status code,
    and the pending deployment record saved when GitHub accepts. */
module GithubDispatch {
  import opened Json
  import opened Strings

  // ---- exceptions ----

  /** An exception raised on the way to a dispatched workflow, carrying what
      `str(e)` renders. */
  datatype Fault =
    | MissingToken
    | WorkflowRejected(code: nat, body: string)
    | RequestFailed(message: string)
    | StoreFailed(message: string)
    | NoAttribute(typeName: string, attribute: string)
    | Unhashable(typeName: string)

  /** `str(e)`. The last two are Python's own wording for its built-in errors. */
  function ErrorText(f: Fault): string {
    match f
    case MissingToken => "GITHUB_TOKEN environment variable is not set"
    case WorkflowRejected(code, body) => "Failed to trigger workflow: " + NatToString(code) + " - " + body
    case RequestFailed(m) => m
    case StoreFailed(m) => m
    case NoAttribute(t, a) => "'" + t + "' object has no attribute '" + a + "'"
    case Unhashable(t) => "unhashable type: '" + t + "'"
  }

  /** A rejected dispatch names its status code and GitHub's reply, and both
      can be read back from the message. */
  lemma ErrorTextDeterminesRejection(c1: nat, b1: string, c2: nat, b2: string)
    requires ErrorText(WorkflowRejected(c1, b1)) == ErrorText(WorkflowRejected(c2, b2))
    ensures c1 == c2 && b1 == b2
  {
    var p := "Failed to trigger workflow: ";
    var x1 := NatToString(c1) + [' '] + ("- " + b1);
    var x2 := NatToString(c2) + [' '] + ("- " + b2);
    assert ErrorText(WorkflowRejected(c1, b1)) == p + x1;
    assert ErrorText(WorkflowRejected(c2, b2)) == p + x2;
    assert x1 == (p + x1)[|p|..];
    assert x2 == (p + x2)[|p|..];
    SplitAtSeparator(NatToString(c1), "- " + b1, NatToString(c2), "- " + b2, ' ');
    NatToStringInjective(c1, c2);
    assert b1 == ("- " + b1)[2..];
    assert b2 == ("- " + b2)[2..];
  }

  datatype Result<T> = Success(value: T) | Failure(fault: Fault)

  /** Python's name for the type of a value, as its error messages print it. */
  function TypeName(v: Value): (t: string)
    ensures v.Obj? <==> t == "dict"
    ensures v.Str? <==> t == "str"
  {
    match v
    case Null => "NoneType"
    case Bool(_) => "bool"
    case Num(_) => "int"
    case Str(_) => "str"
    case Arr(_) => "list"
    case Obj(_) => "dict"
  }

  // ---- configuration ----

  /** The rule a security group gets when the request names none: HTTP from anywhere. */
  const DefaultIngressRules: Value := Arr([Obj(map[
    "from_port" := Num(80), "to_port" := Num(80), "protocol" := Str("tcp"),
    "cidr_blocks" := Arr([Str("0.0.0.0/0")]), "description" := Str("HTTP")])])

  /** The configuration fields of each type the dispatch knows, with the value
      each takes when the request leaves it out (`None` for the bucket name). */
  const ConfigDefaults: map<string, Object> := map[
    "ec2_instance" := map[
      "instance_type" := Str("t2.micro"), "volume_size" := Str("20"), "assign_eip" := Str("true")],
    "s3_bucket" := map["bucket_name" := Null, "versioning_enabled" := Str("false")],
    "rds_instance" := map[
      "engine" := Str("mysql"), "engine_version" := Str("8.0"), "instance_class" := Str("db.t3.micro"),
      "allocated_storage" := Str("20"), "master_username" := Str("admin"), "multi_az" := Str("false")],
    "ecs_service" := map[
      "container_image" := Str("nginx:latest"), "container_port" := Str("80"), "cpu" := Str("256"),
      "memory" := Str("512"), "launch_type" := Str("FARGATE")],
    "alb" := map["internal" := Str("false")],
    "security_group" := map[
      "sg_description" := Str("Managed by Terraform"), "vpc_id" := Str("vpc-default"),
      "ingress_rules" := DefaultIngressRules]]

  /** The configuration passed to the workflow: the type's fields, each taken
      from the request parameters when present and defaulted otherwise. */
  function Config(resourceType: string, params: Object): (config: Object)
    ensures resourceType !in ConfigDefaults ==> config == map[]
    ensures resourceType in ConfigDefaults ==> config.Keys == ConfigDefaults[resourceType].Keys
    ensures forall k :: k in config && k in params ==> config[k] == params[k]
    ensures forall k :: resourceType in ConfigDefaults && k in config && k !in params ==>
      config[k] == ConfigDefaults[resourceType][k]
  {
    if resourceType in ConfigDefaults then
      var d := ConfigDefaults[resourceType];
      map k | k in d :: GetOr(params, k, d[k])
    else map[]
  }

  /** Only the type's own fields matter: requests that agree on those get the
      same configuration, whatever else they carry. */
  lemma ConfigIgnoresOtherParams(t: string, p: Object, q: Object)
    requires t in ConfigDefaults
    requires forall k :: k in ConfigDefaults[t] ==> (k in p <==> k in q)
    requires forall k :: k in ConfigDefaults[t] && k in p ==> p[k] == q[k]
    ensures Config(t, p) == Config(t, q)
  {
    assert Config(t, p).Keys == Config(t, q).Keys;
  }

  /** A security group requested without rules opens HTTP to the world. */
  lemma SecurityGroupDefaultRule(params: Object)
    requires "ingress_rules" !in params
    ensures var c := Config("security_group", params);
      "ingress_rules" in c && c["ingress_rules"] == DefaultIngressRules
  {
    assert "ingress_rules" in ConfigDefaults["security_group"];
  }

  /** A bucket requested without a name is sent with a null name. */
  lemma BucketNameNullWhenAbsent(params: Object)
    requires "bucket_name" !in params
    ensures var c := Config("s3_bucket", params);
      "bucket_name" in c && c["bucket_name"] == Null
  {
    assert "bucket_name" in ConfigDefaults["s3_bucket"];
  }

  /** The front end's load balancer type is not the dispatch's "alb", so it
      is sent with an empty configuration whatever the request holds. */
  lemma LoadBalancerGetsNoConfig(params: Object)
    ensures Config("load_balancer", params) == map[]
  {
  }

  // ---- inputs ----

  /** The workflow inputs. `config_json` carries the configuration object; its
      rendering as JSON text is not modelled. */
  function Inputs(resourceType: string, name: Value, environment: Value, region: Value, params: Object): (inputs: Object)
    ensures inputs.Keys == {"resource_type", "name", "environment", "region", "config_json"}
      + (if "subnet_id" in params then {"subnet_id"} else {})
    ensures inputs["resource_type"] == Str(resourceType) && inputs["name"] == name
    ensures inputs["environment"] == environment && inputs["region"] == region
    ensures "subnet_id" in params ==> inputs["subnet_id"] == params["subnet_id"]
    ensures inputs["config_json"] == Obj(Config(resourceType, params))
  {
    var base := map[
      "resource_type" := Str(resourceType), "name" := name, "environment" := environment, "region" := region];
    var withSubnet := if "subnet_id" in params then base["subnet_id" := params["subnet_id"]] else base;
    withSubnet["config_json" := Obj(Config(resourceType, params))]
  }

  // ---- dispatch ----

  /** GitHub's answer to the dispatch request, or the transport error. */
  datatype Reply = Responded(code: nat, body: string) | NoReply(message: string)

  /** What the dispatch meets outside the process: the token in the
      environment, GitHub's reply, the clock and random part of the new id, the
      creation time, and the store's error on insert, if any. */
  datatype Services = Services(
    token: Option<string>, reply: Reply, timestamp: int, hex: string, createdAt: string,
    storeError: Option<string>)

  /** `not GITHUB_TOKEN`: unset and empty both count as missing. */
  predicate TokenSet(token: Option<string>) {
    token.Some? && token.value != ""
  }

  predicate Accepted(svc: Services) {
    svc.reply.Responded? && svc.reply.code == 204
  }

  /** `deploy-<seconds>-<8 hex digits>`. */
  function DeploymentId(svc: Services): string {
    "deploy-" + IntToString(svc.timestamp) + "-" + svc.hex
  }

  /** The result of one dispatch: the returned dictionary or the raised
      exception, the request body sent to GitHub, and the record saved. */
  datatype Dispatch = Dispatch(outcome: Result<Object>, sent: Option<Object>, saved: Option<Object>)

  /** The body of the dispatch request: the workflow runs on `main` with the inputs. */
  function WorkflowBody(resourceType: string, name: Value, environment: Value, region: Value, params: Object): (b: Object)
    ensures "ref" in b && b["ref"] == Str("main")
    ensures "inputs" in b && b["inputs"] == Obj(Inputs(resourceType, name, environment, region, params))
  {
    map["ref" := Str("main"), "inputs" := Obj(Inputs(resourceType, name, environment, region, params))]
  }

  /** The dictionary returned once the workflow is dispatched and recorded. */
  function PendingReply(svc: Services): (r: Object)
    ensures "deployment_id" in r && r["deployment_id"] == Str(DeploymentId(svc))
    ensures "status" in r && r["status"] == Str("pending")
    ensures "message" in r && r["message"] == Str("Deployment triggered successfully")
  {
    map["deployment_id" := Str(DeploymentId(svc)), "status" := Str("pending"),
        "message" := Str("Deployment triggered successfully")]
  }

  /** The pending deployment saved after a dispatch: its parameters are the
      inputs overlaid with the request's own parameters. */
  function PendingRecord(svc: Services, resourceType: string, name: Value, environment: Value, region: Value,
                         inputs: Object, params: Object): (r: Object)
    ensures "id" in r && r["id"] == Str(DeploymentId(svc))
    ensures "status" in r && r["status"] == Str("pending")
    ensures "name" in r && r["name"] == name
    ensures "resource_type" in r && r["resource_type"] == Str(resourceType)
    ensures "parameters" in r && r["parameters"] == Obj(inputs + params)
  {
    map[
      "id" := Str(DeploymentId(svc)), "resource_type" := Str(resourceType), "name" := name,
      "environment" := environment, "region" := region, "status" := Str("pending"),
      "parameters" := Obj(inputs + params), "created_at" := Str(svc.createdAt)]
  }

  function Trigger(svc: Services, resourceType: string, name: Value, environment: Value, region: Value,
                   deploymentParams: Option<Object>): (d: Dispatch)
    ensures !TokenSet(svc.token) ==> d == Dispatch(Failure(MissingToken), None, None)
    ensures d.sent.Some? <==> TokenSet(svc.token)
    ensures d.sent.Some? ==>
      d.sent.value == WorkflowBody(resourceType, name, environment, region, deploymentParams.GetOr(map[]))
    ensures d.saved.Some? <==> TokenSet(svc.token) && Accepted(svc) && svc.storeError.None?
    ensures d.outcome.Success? <==> d.saved.Some?
    ensures TokenSet(svc.token) && svc.reply.Responded? && svc.reply.code != 204 ==>
      d.outcome == Failure(WorkflowRejected(svc.reply.code, svc.reply.body))
    ensures TokenSet(svc.token) && svc.reply.NoReply? ==> d.outcome == Failure(RequestFailed(svc.reply.message))
    ensures d.outcome.Success? ==> d.outcome.value == PendingReply(svc)
    ensures d.saved.Some? ==>
      var params := deploymentParams.GetOr(map[]);
      d.saved.value == PendingRecord(svc, resourceType, name, environment, region,
        Inputs(resourceType, name, environment, region, params), params)
  {
    if !TokenSet(svc.token) then Dispatch(Failure(MissingToken), None, None)
    else
      var params := deploymentParams.GetOr(map[]);
      var sent := WorkflowBody(resourceType, name, environment, region, params);
      match svc.reply
      case NoReply(m) => Dispatch(Failure(RequestFailed(m)), Some(sent), None)
      case Responded(code, body) =>
        if code != 204 then Dispatch(Failure(WorkflowRejected(code, body)), Some(sent), None)
        else if svc.storeError.Some? then Dispatch(Failure(StoreFailed(svc.storeError.value)), Some(sent), None)
        else
          var inputs := Inputs(resourceType, name, environment, region, params);
          Dispatch(Success(PendingReply(svc)), Some(sent),
            Some(PendingRecord(svc, resourceType, name, environment, region, inputs, params)))
  }

  /** The saved parameters are the workflow inputs overlaid with the request
      parameters: a request parameter wins over an input of the same name. */
  lemma SavedParametersPreferRequest(svc: Services, resourceType: string, name: Value, environment: Value,
                                     region: Value, deploymentParams: Option<Object>)
    requires Trigger(svc, resourceType, name, environment, region, deploymentParams).saved.Some?
    ensures var r := Trigger(svc, resourceType, name, environment, region, deploymentParams).saved.value;
      var params := deploymentParams.GetOr(map[]);
      var inputs := Inputs(resourceType, name, environment, region, params);
      && "parameters" in r && r["parameters"].Obj?
      && r["parameters"].fields.Keys == inputs.Keys + params.Keys
      && (forall k :: k in params ==> r["parameters"].fields[k] == params[k])
      && (forall k :: k in inputs && k !in params ==> r["parameters"].fields[k] == inputs[k])
  {
  }

  /** The saved id and the returned id are the same. */
  lemma ReturnedIdIsSaved(svc: Services, resourceType: string, name: Value, environment: Value,
                          region: Value, deploymentParams: Option<Object>)
    ensures var d := Trigger(svc, resourceType, name, environment, region, deploymentParams);
      d.outcome.Success? ==> d.saved.Some? && d.saved.value["id"] == d.outcome.value["deployment_id"]
  {
  }
}
