/** The provisioning entry point of the backend (`execute_terraform`): the
    defaults it fills in, the size-to-instance-type table, the order in which
    computed and requested parameters are merged, and the result it returns
    whether the dispatch succeeds or raises. */
module Terraform {
  import opened Json
  import opened Strings
  import opened GithubDispatch
  import SimpleRequestForm

  const SizeTable: map<string, string> := map["small" := "t2.micro", "medium" := "t2.small", "large" := "t2.medium"]

  const DefaultSubnet: string := "subnet-07759e500cfdfb6b2"

  /** `size_mapping.get(params.get("size", "small"), "t2.micro")`: a missing size
      counts as small, an unknown one gives t2.micro, and a list or dict cannot
      be looked up at all. */
  function InstanceType(params: Object): (r: Result<string>)
    ensures "size" !in params ==> r == Success("t2.micro")
    ensures "size" in params && params["size"].Str? && params["size"].s in SizeTable ==>
      r == Success(SizeTable[params["size"].s])
    ensures "size" in params && params["size"].Str? && params["size"].s !in SizeTable ==> r == Success("t2.micro")
    ensures r.Failure? <==> "size" in params && (params["size"].Arr? || params["size"].Obj?)
    ensures r.Failure? ==> r.fault == Unhashable(TypeName(params["size"]))
    ensures r.Success? ==> r.value in {"t2.micro", "t2.small", "t2.medium"}
  {
    var size := GetOr(params, "size", Str("small"));
    match size
    case Arr(_) => Failure(Unhashable(TypeName(size)))
    case Obj(_) => Failure(Unhashable(TypeName(size)))
    case Str(s) => Success(if s in SizeTable then SizeTable[s] else "t2.micro")
    case _ => Success("t2.micro")
  }

  /** The backend maps a size to the same instance type as the request form. */
  lemma SizeTableMatchesForm(size: string)
    ensures InstanceType(map["size" := Str(size)]) == Success(SimpleRequestForm.SizeMapping(size))
  {
  }

  /** `params.get("parameters", {})`: anything but a dictionary has no `get`. */
  function Nested(params: Object): (r: Result<Object>)
    ensures "parameters" !in params ==> r == Success(map[])
    ensures "parameters" in params && params["parameters"].Obj? ==> r == Success(params["parameters"].fields)
    ensures r.Failure? <==> "parameters" in params && !params["parameters"].Obj?
    ensures r.Failure? ==> r.fault == NoAttribute(TypeName(params["parameters"]), "get")
  {
    if "parameters" !in params then Success(map[])
    else match params["parameters"]
      case Obj(fields) => Success(fields)
      case v => Failure(NoAttribute(TypeName(v), "get"))
  }

  /** The random parts of the names this entry point invents. */
  datatype Uuids = Uuids(name: string, bucket: string, error: string)

  /** What is handed to the dispatch. */
  datatype Prepared = Prepared(name: Value, environment: Value, region: Value, deploymentParams: Object)

  /** The parameters computed for the type, before the request's own are merged in. */
  function Computed(resourceType: string, params: Object, nested: Object, name: Value, ids: Uuids): Result<Object> {
    if resourceType == "ec2_instance" then
      match InstanceType(params)
      case Failure(f) => Failure(f)
      case Success(it) => Success(map[
        "instance_type" := Str(it), "volume_size" := Str("20"), "assign_eip" := Str("true"),
        "subnet_id" := GetOr(nested, "subnet_id", Str(DefaultSubnet))])
    else if resourceType == "s3_bucket" then
      if name.Str? then Success(map[
        "bucket_name" := Str(Lower(name.s) + "-" + ids.bucket),
        "versioning_enabled" := GetOr(nested, "versioning_enabled", Str("false"))])
      else Failure(NoAttribute(TypeName(name), "lower"))
    else Success(map[])
  }

  /** Everything computed before the dispatch (lines up to the call). */
  function Prepare(resourceType: string, params: Object, ids: Uuids): (r: Result<Prepared>)
    ensures Nested(params).Failure? ==> r == Failure(Nested(params).fault)
    ensures r.Success? ==>
      var nested := Nested(params).value;
      && r.value.name == GetOr(nested, "name", Str(resourceType + "-" + ids.name))
      && r.value.environment == GetOr(nested, "environment", Str("dev"))
      && r.value.region == GetOr(params, "region", Str("eu-west-2"))
      && forall k :: k in nested ==> k in r.value.deploymentParams && r.value.deploymentParams[k] == nested[k]
    ensures r.Success? && resourceType !in {"ec2_instance", "s3_bucket"} ==>
      r.value.deploymentParams == Nested(params).value
    ensures resourceType == "ec2_instance" && Nested(params).Success? ==>
      (r.Failure? <==> InstanceType(params).Failure?)
    ensures resourceType == "s3_bucket" && Nested(params).Success? ==>
      (r.Failure? <==> !GetOr(Nested(params).value, "name", Str(resourceType + "-" + ids.name)).Str?)
    ensures resourceType !in {"ec2_instance", "s3_bucket"} ==> (r.Failure? <==> Nested(params).Failure?)
  {
    match Nested(params)
    case Failure(f) => Failure(f)
    case Success(nested) =>
      var name := GetOr(nested, "name", Str(resourceType + "-" + ids.name));
      var environment := GetOr(nested, "environment", Str("dev"));
      var region := GetOr(params, "region", Str("eu-west-2"));
      match Computed(resourceType, params, nested, name, ids)
      case Failure(f) => Failure(f)
      case Success(base) => Success(Prepared(name, environment, region, base + nested))
  }

  /** An EC2 request always dispatches a subnet: the requested one, or the default. */
  lemma Ec2AlwaysHasSubnet(params: Object, ids: Uuids)
    requires Prepare("ec2_instance", params, ids).Success?
    ensures var p := Prepare("ec2_instance", params, ids).value.deploymentParams;
      var nested := Nested(params).value;
      && "subnet_id" in p
      && ("subnet_id" !in nested ==> p["subnet_id"] == Str(DefaultSubnet))
  {
  }

  /** The EC2 parameters carry an instance type: the requested one, or the one
      the size maps to. */
  lemma Ec2InstanceType(params: Object, ids: Uuids)
    requires Prepare("ec2_instance", params, ids).Success?
    ensures var p := Prepare("ec2_instance", params, ids).value.deploymentParams;
      var nested := Nested(params).value;
      && "instance_type" in p
      && ("instance_type" !in nested ==> p["instance_type"] == Str(InstanceType(params).value))
      && ("instance_type" in nested ==> p["instance_type"] == nested["instance_type"])
  {
    var nested := Nested(params).value;
    var name := GetOr(nested, "name", Str("ec2_instance" + "-" + ids.name));
    var base := Computed("ec2_instance", params, nested, name, ids).value;
    assert "instance_type" in base && base["instance_type"] == Str(InstanceType(params).value);
  }

  /** With no instance type in the request parameters, the workflow
      configuration of an EC2 request carries the type the size maps to; a
      requested instance type overrides the size. */
  lemma SizeReachesWorkflowConfig(svc: Services, params: Object, ids: Uuids)
    requires Prepare("ec2_instance", params, ids).Success?
    requires TokenSet(svc.token)
    ensures var p := Prepare("ec2_instance", params, ids).value;
      var d := Trigger(svc, "ec2_instance", p.name, p.environment, p.region, Some(p.deploymentParams));
      var config := Config("ec2_instance", p.deploymentParams);
      var nested := Nested(params).value;
      && d.sent.Some?
      && d.sent.value["inputs"].fields["config_json"] == Obj(config)
      && "instance_type" in config
      && ("instance_type" !in nested ==> config["instance_type"] == Str(InstanceType(params).value))
      && ("instance_type" in nested ==> config["instance_type"] == nested["instance_type"])
  {
    var p := Prepare("ec2_instance", params, ids).value;
    var d := Trigger(svc, "ec2_instance", p.name, p.environment, p.region, Some(p.deploymentParams));
    assert d.sent.value == WorkflowBody("ec2_instance", p.name, p.environment, p.region, p.deploymentParams);
    assert "instance_type" in ConfigDefaults["ec2_instance"];
    Ec2InstanceType(params, ids);
  }

  /** A bucket's name is the lower-cased resource name and a random suffix,
      unless the request names the bucket itself. */
  lemma BucketNameFromResourceName(params: Object, ids: Uuids, name: string)
    requires "parameters" in params && params["parameters"].Obj?
    requires var n := params["parameters"].fields; "name" in n && n["name"] == Str(name) && "bucket_name" !in n
    ensures Prepare("s3_bucket", params, ids).Success?
    ensures var p := Prepare("s3_bucket", params, ids).value.deploymentParams;
      "bucket_name" in p && p["bucket_name"] == Str(Lower(name) + "-" + ids.bucket)
  {
  }

  /** What the try-block yields: the dispatch's result, or the exception it raised. */
  datatype Environment = Environment(
    dispatch: Services, ids: Uuids, errorCreatedAt: string, errorSaveSucceeds: bool)

  function Attempt(env: Environment, resourceType: string, params: Object): (r: Result<Object>)
    ensures Prepare(resourceType, params, env.ids).Failure? ==>
      r == Failure(Prepare(resourceType, params, env.ids).fault)
    ensures Prepare(resourceType, params, env.ids).Success? ==>
      var p := Prepare(resourceType, params, env.ids).value;
      r == Trigger(env.dispatch, resourceType, p.name, p.environment, p.region, Some(p.deploymentParams)).outcome
  {
    match Prepare(resourceType, params, env.ids)
    case Failure(f) => Failure(f)
    case Success(p) => Trigger(env.dispatch, resourceType, p.name, p.environment, p.region, Some(p.deploymentParams)).outcome
  }

  /** The returned dictionary and the failed-deployment record saved, if any. */
  datatype Execution = Execution(response: Object, errorRecord: Option<Object>)

  /** The dictionary `execute_terraform` returns. */
  function Returned(status: string, id: string, resourceType: string, message: string): (r: Object)
    ensures "status" in r && r["status"] == Str(status)
    ensures "deployment_id" in r && r["deployment_id"] == Str(id)
    ensures "resource_type" in r && r["resource_type"] == Str(resourceType)
    ensures "message" in r && r["message"] == Str(message)
  {
    map["status" := Str(status), "deployment_id" := Str(id),
        "resource_type" := Str(resourceType), "message" := Str(message)]
  }

  /** The failed deployment recorded when the entry point catches an exception. */
  function ErrorRecord(id: string, resourceType: string, params: Object, createdAt: string, text: string): (r: Object)
    ensures "id" in r && r["id"] == Str(id)
    ensures "status" in r && r["status"] == Str("error")
    ensures "parameters" in r && r["parameters"] == Obj(params)
    ensures "error_message" in r && r["error_message"] == Str(text)
  {
    map[
      "id" := Str(id), "resource_type" := Str(resourceType), "status" := Str("error"),
      "parameters" := Obj(params), "created_at" := Str(createdAt), "error_message" := Str(text)]
  }

  /** The returned dictionary for the try-block's outcome `a`: success reports
      the dispatch's id as pending; an exception becomes an error result with a
      fresh `deploy-error-` id, and a failure to record it is swallowed. */
  function Respond(env: Environment, resourceType: string, params: Object, a: Result<Object>): (e: Execution)
    ensures "status" in e.response && "deployment_id" in e.response && "message" in e.response
    ensures "resource_type" in e.response && e.response["resource_type"] == Str(resourceType)
    ensures a.Success? ==>
      && e.response["status"] == Str("pending")
      && e.response["deployment_id"] == Str(DeploymentId(env.dispatch))
      && e.response["message"] == Str("Deployment initiated through GitHub Actions")
      && e.errorRecord.None?
    ensures a.Failure? ==>
      && e.response["status"] == Str("error")
      && e.response["deployment_id"] == Str("deploy-error-" + env.ids.error)
      && e.response["message"] == Str("Deployment failed: " + ErrorText(a.fault))
      && (e.errorRecord.Some? <==> env.errorSaveSucceeds)
    ensures e.errorRecord.Some? ==>
      var r := e.errorRecord.value;
      && "status" in r && r["status"] == Str("error")
      && "parameters" in r && r["parameters"] == Obj(params)
      && "id" in r && r["id"] == e.response["deployment_id"]
      && a.Failure? && "error_message" in r && r["error_message"] == Str(ErrorText(a.fault))
  {
    if a.Success? then
      Execution(Returned("pending", DeploymentId(env.dispatch), resourceType,
        "Deployment initiated through GitHub Actions"), None)
    else
      var id := "deploy-error-" + env.ids.error;
      var text := ErrorText(a.fault);
      Execution(Returned("error", id, resourceType, "Deployment failed: " + text),
        if env.errorSaveSucceeds then Some(ErrorRecord(id, resourceType, params, env.errorCreatedAt, text)) else None)
  }

  /** `execute_terraform`: it never raises, and it reports pending exactly when
      the preparation and the dispatch both went through. */
  function Execute(env: Environment, resourceType: string, params: Object): (e: Execution)
    ensures "status" in e.response && "deployment_id" in e.response && "message" in e.response
    ensures e.response["status"] == Str("pending") <==> Attempt(env, resourceType, params).Success?
  {
    Respond(env, resourceType, params, Attempt(env, resourceType, params))
  }

  /** An id handed out for a dispatched deployment never looks like one handed
      out for a failure: after `deploy-` comes a digit or a minus sign, not `e`. */
  lemma PendingAndErrorIdsDiffer(svc: Services, hex: string)
    ensures DeploymentId(svc) != "deploy-error-" + hex
  {
    var a := DeploymentId(svc);
    var b := "deploy-error-" + hex;
    var n := IntToString(svc.timestamp);
    assert a[7] == n[0];
    assert n[0] == '-' || IsDigit(n[0]);
    assert b[7] == 'e';
  }

  /** A missing token is reported, not raised: the caller sees an error result
      whose message is the token error's. */
  lemma MissingTokenReported(env: Environment, resourceType: string, params: Object)
    requires !TokenSet(env.dispatch.token)
    requires Prepare(resourceType, params, env.ids).Success?
    ensures var r := Execute(env, resourceType, params).response;
      && "status" in r && r["status"] == Str("error")
      && "message" in r && r["message"] == Str("Deployment failed: " + ErrorText(MissingToken))
  {
    assert Attempt(env, resourceType, params) == Failure(MissingToken);
  }
}
