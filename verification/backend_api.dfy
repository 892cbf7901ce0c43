/** The backend's HTTP routes (`main.py`): who may provision, the two creation
    routes and how each reports a failed dispatch, the status lookup, and the
    workflow's webhook with its shared-secret check and its upsert into the
    deployments table. */
module BackendApi {
  import opened Json
  import opened GithubDispatch
  import Terraform

  /** An HTTP reply: the status code and the JSON body. */
  datatype Response = Response(code: nat, body: Object)

  function Detail(code: nat, text: string): Response {
    Response(code, map["detail" := Str(text)])
  }

  /** Only administrators and developers may provision. */
  predicate MayProvision(role: string) {
    role == "admin" || role == "developer"
  }

  const Forbidden: Response := Detail(403, "Not authorized to provision resources")

  // ---- POST /api/resources ----

  datatype ResourceRequest = ResourceRequest(resource_type: string, size: string, region: string, parameters: Object)

  /** The parameters the route hands to the provisioning entry point. */
  function TerraformParams(req: ResourceRequest): Object {
    map["size" := Str(req.size), "region" := Str(req.region), "parameters" := Obj(req.parameters)]
  }

  /** The reply body built from the entry point's result: its id, status and message. */
  function ResourceReply(e: Object): (b: Object)
    requires "deployment_id" in e && "status" in e && "message" in e
    ensures b.Keys == {"request_id", "status", "message"}
    ensures b["request_id"] == e["deployment_id"] && b["status"] == e["status"] && b["message"] == e["message"]
  {
    map["request_id" := e["deployment_id"], "status" := e["status"], "message" := e["message"]]
  }

  /** A permitted request always gets a 200 reply: a failed dispatch shows up
      as status "error" in the body, never as an HTTP error. */
  function CreateResource(role: string, req: ResourceRequest, env: Terraform.Environment): (r: Response)
    ensures !MayProvision(role) ==> r == Forbidden
    ensures MayProvision(role) ==>
      r == Response(200, ResourceReply(Terraform.Execute(env, req.resource_type, TerraformParams(req)).response))
    ensures MayProvision(role) ==>
      (r.body["status"] == Str("pending") <==> Terraform.Attempt(env, req.resource_type, TerraformParams(req)).Success?)
  {
    if !MayProvision(role) then Forbidden
    else Response(200, ResourceReply(Terraform.Execute(env, req.resource_type, TerraformParams(req)).response))
  }

  /** Through this route the preparation only fails for a bucket whose
      requested name is not a string: the size and nested parameters always
      have the shape the entry point expects. */
  lemma ResourceRoutePreparesUnlessBadName(req: ResourceRequest, ids: Terraform.Uuids)
    requires req.resource_type != "s3_bucket" || "name" !in req.parameters || req.parameters["name"].Str?
    ensures Terraform.Prepare(req.resource_type, TerraformParams(req), ids).Success?
  {
    var params := TerraformParams(req);
    assert Terraform.Nested(params) == Success(req.parameters);
    assert Terraform.InstanceType(params).Success?;
  }

  // ---- POST /api/deployments/create ----

  /** The request body; the region and parameters have defaults when omitted. */
  datatype DeploymentRequest = DeploymentRequest(
    resource_type: string, name: string, environment: string, region: Option<string>, parameters: Option<Object>)

  function Dispatched(req: DeploymentRequest, svc: Services): Dispatch {
    Trigger(svc, req.resource_type, Str(req.name), Str(req.environment), Str(req.region.GetOr("eu-west-2")),
      Some(req.parameters.GetOr(map[])))
  }

  /** Any exception from the dispatch becomes a 500 carrying its message;
      otherwise the reply is pending with the new id. */
  function CreateDeployment(role: string, req: DeploymentRequest, svc: Services): (r: Response)
    ensures !MayProvision(role) ==> r == Forbidden
    ensures MayProvision(role) ==> (r.code == 200 <==> Dispatched(req, svc).outcome.Success?)
    ensures MayProvision(role) && r.code == 200 ==> r.body == map[
      "request_id" := Str(DeploymentId(svc)), "status" := Str("pending"),
      "message" := Str("Deployment initiated successfully")]
    ensures MayProvision(role) && Dispatched(req, svc).outcome.Failure? ==>
      r == Detail(500, ErrorText(Dispatched(req, svc).outcome.fault))
  {
    if !MayProvision(role) then Forbidden
    else match Dispatched(req, svc).outcome
      case Success(result) =>
        Response(200, map[
          "request_id" := result["deployment_id"], "status" := Str("pending"),
          "message" := Str("Deployment initiated successfully")])
      case Failure(f) => Detail(500, ErrorText(f))
  }

  /** The two creation routes report the same missing token differently: one
      as an HTTP 500, the other as a 200 whose body says "error". */
  lemma RoutesReportMissingTokenDifferently(
    role: string, dreq: DeploymentRequest, rreq: ResourceRequest, env: Terraform.Environment)
    requires MayProvision(role) && !TokenSet(env.dispatch.token)
    requires Terraform.Prepare(rreq.resource_type, TerraformParams(rreq), env.ids).Success?
    ensures CreateDeployment(role, dreq, env.dispatch).code == 500
    ensures var r := CreateResource(role, rreq, env);
      r.code == 200 && r.body["status"] == Str("error")
  {
    assert Terraform.Attempt(env, rreq.resource_type, TerraformParams(rreq)) == Failure(MissingToken);
  }

  // ---- the deployments table ----

  /** The columns of the deployments table that the routes read or write. */
  datatype Column =
    | Id | ResourceType | Name | Environment | Region | Status | Outputs
    | CreatedAt | CompletedAt | Parameters | ErrorMessage

  /** The column's name, which is also the payload field it is filled from. */
  function ColumnName(c: Column): string {
    match c
    case Id => "id"
    case ResourceType => "resource_type"
    case Name => "name"
    case Environment => "environment"
    case Region => "region"
    case Status => "status"
    case Outputs => "outputs"
    case CreatedAt => "created_at"
    case CompletedAt => "completed_at"
    case Parameters => "parameters"
    case ErrorMessage => "error_message"
  }

  /** A row lists the columns it holds; a column it lacks reads as null. */
  type Row = map<Column, Value>

  function Cell(row: Row, c: Column): Value {
    if c in row then row[c] else Null
  }

  /** The deployments table, by id. */
  type Store = map<string, Row>

  /** Every row is filed under its own id. */
  predicate WellFormed(store: Store) {
    forall id :: id in store ==> Id in store[id] && store[id][Id] == Str(id)
  }

  // ---- GET /api/deployments/{id}/status ----

  /** 404 for an unknown id, otherwise exactly the id, status and both times. */
  function DeploymentStatus(store: Store, id: string): (r: Response)
    ensures id !in store ==> r == Detail(404, "Deployment not found")
    ensures id in store && store[id] != map[] ==>
      && r.code == 200
      && r.body.Keys == {"deployment_id", "status", "created_at", "completed_at"}
      && r.body["deployment_id"] == Cell(store[id], Id)
      && r.body["status"] == Cell(store[id], Status)
      && r.body["created_at"] == Cell(store[id], CreatedAt)
      && r.body["completed_at"] == Cell(store[id], CompletedAt)
  {
    if id !in store || store[id] == map[] then Detail(404, "Deployment not found")
    else
      var row := store[id];
      Response(200, map[
        "deployment_id" := Cell(row, Id), "status" := Cell(row, Status),
        "created_at" := Cell(row, CreatedAt), "completed_at" := Cell(row, CompletedAt)])
  }

  /** In a well-formed table the lookup fails exactly for unknown ids, and a
      found row reports its own id. */
  lemma StatusFoundIffStored(store: Store, id: string)
    requires WellFormed(store)
    ensures DeploymentStatus(store, id).code == 404 <==> id !in store
    ensures id in store ==> DeploymentStatus(store, id).body["deployment_id"] == Str(id)
  {
    if id in store {
      assert Id in store[id];
    }
  }

  // ---- POST /api/webhook/deployment ----

  /** The configured secret as Python sees it: `None` when the variable is unset. */
  function SecretValue(secret: Option<string>): (v: Value)
    ensures secret.None? <==> v == Null
  {
    match secret
    case None => Null
    case Some(s) => Str(s)
  }

  /** The check as written: the payload's secret must equal the configured one,
      and an absent secret reads as `None` on both sides. */
  predicate SecretAcceptedAsWritten(secret: Option<string>, data: Object) {
    GetOr(data, "secret", Null) == SecretValue(secret)
  }

  /** The check as intended: a secret must be configured, non-empty, and sent. */
  predicate SecretAccepted(secret: Option<string>, data: Object) {
    secret.Some? && secret.value != "" && GetOr(data, "secret", Null) == Str(secret.value)
  }

  /** With no secret configured, the check as written accepts every payload
      that leaves its secret out. */
  lemma UnsetSecretAcceptsAnyPayload(data: Object)
    requires "secret" !in data
    ensures SecretAcceptedAsWritten(None, data)
    ensures !SecretAccepted(None, data)
  {
  }

  /** The intended check accepts only payloads carrying the configured secret,
      rejects everything while none is configured, and agrees with the check as
      written whenever a non-empty secret is configured. */
  lemma SecretAcceptedMeansConfigured(secret: Option<string>, data: Object)
    ensures SecretAccepted(secret, data) ==> secret.Some? && "secret" in data && data["secret"] == Str(secret.value)
    ensures secret.Some? && secret.value != "" ==>
      (SecretAccepted(secret, data) <==> SecretAcceptedAsWritten(secret, data))
  {
  }

  datatype SecretCheck = AsWritten | Configured

  predicate Accepts(check: SecretCheck, secret: Option<string>, data: Object) {
    match check
    case AsWritten => SecretAcceptedAsWritten(secret, data)
    case Configured => SecretAccepted(secret, data)
  }

  /** The columns every webhook writes: all but the id, the creation time and
      the columns only the provisioning path fills. */
  predicate WebhookColumn(c: Column) {
    !(c.Id? || c.CreatedAt? || c.Parameters? || c.ErrorMessage?)
  }

  /** The webhook's column values: each read from the payload field of the same
      name, a field the payload leaves out written as null, and the outputs as
      an empty object. */
  function UpdateData(data: Object): (u: Row)
    ensures forall c :: c in u <==> WebhookColumn(c)
    ensures forall c :: c in u && c != Outputs ==> u[c] == GetOr(data, ColumnName(c), Null)
    ensures Outputs in u && u[Outputs] == GetOr(data, "outputs", Obj(map[]))
  {
    map[
      ResourceType := GetOr(data, "resource_type", Null), Name := GetOr(data, "name", Null),
      Environment := GetOr(data, "environment", Null), Region := GetOr(data, "region", Null),
      Status := GetOr(data, "status", Null), Outputs := GetOr(data, "outputs", Obj(map[])),
      CompletedAt := GetOr(data, "completed_at", Null)]
  }

  /** The row a webhook inserts for an unknown id. */
  function NewRow(id: string, data: Object): Row {
    UpdateData(data)[Id := Str(id)][CreatedAt := GetOr(data, "created_at", Null)]
  }

  /** Insert a new row with its id and creation time, or overwrite the
      webhook's columns of the existing one. */
  function Upsert(store: Store, id: string, data: Object): (s: Store)
    ensures s.Keys == store.Keys + {id}
    ensures forall other :: other in store && other != id ==> s[other] == store[other]
    ensures forall c :: WebhookColumn(c) ==> c in s[id] && s[id][c] == UpdateData(data)[c]
    ensures id !in store || store[id] == map[] ==>
      && (forall c :: c in s[id] <==> WebhookColumn(c) || c == Id || c == CreatedAt)
      && s[id][Id] == Str(id)
      && s[id][CreatedAt] == GetOr(data, "created_at", Null)
    ensures id in store && store[id] != map[] ==>
      && (forall c :: c in s[id] <==> WebhookColumn(c) || c in store[id])
      && (forall c :: c in store[id] && !WebhookColumn(c) ==> s[id][c] == store[id][c])
  {
    if id !in store || store[id] == map[] then
      store[id := NewRow(id, data)]
    else
      store[id := store[id] + UpdateData(data)]
  }

  datatype WebhookResult = WebhookResult(response: Response, store: Store)

  /** The webhook. A payload whose `deployment_id` is not a string cannot be
      filed: the table refuses it and the server answers its generic 500. */
  function Webhook(check: SecretCheck, secret: Option<string>, data: Object, store: Store): (w: WebhookResult)
    ensures !Accepts(check, secret, data) ==> w == WebhookResult(Detail(403, "Invalid webhook secret"), store)
    ensures Accepts(check, secret, data) && "deployment_id" in data && data["deployment_id"].Str? ==>
      w == WebhookResult(Response(200, map["status" := Str("ok")]), Upsert(store, data["deployment_id"].s, data))
    ensures w.response.code != 200 ==> w.store == store
  {
    if !Accepts(check, secret, data) then WebhookResult(Detail(403, "Invalid webhook secret"), store)
    else match GetOr(data, "deployment_id", Null)
      case Str(id) => WebhookResult(Response(200, map["status" := Str("ok")]), Upsert(store, id, data))
      case _ => WebhookResult(Detail(500, "Internal Server Error"), store)
  }

  /** An upsert keeps every row filed under its own id. */
  lemma UpsertKeepsWellFormed(store: Store, id: string, data: Object)
    requires WellFormed(store)
    ensures WellFormed(Upsert(store, id, data))
  {
    var s := Upsert(store, id, data);
    forall other | other in s
      ensures Id in s[other] && s[other][Id] == Str(other)
    {
      if other == id && id in store && store[id] != map[] {
        assert Id in store[id];
      }
    }
  }

  /** A webhook keeps every row filed under its own id. */
  lemma WebhookKeepsWellFormed(check: SecretCheck, secret: Option<string>, data: Object, store: Store)
    requires WellFormed(store)
    ensures WellFormed(Webhook(check, secret, data, store).store)
  {
    if Accepts(check, secret, data) && "deployment_id" in data && data["deployment_id"].Str? {
      UpsertKeepsWellFormed(store, data["deployment_id"].s, data);
    }
  }

  /** Upserting into a row that already holds the webhook's values changes nothing. */
  lemma UpsertHeldRow(store: Store, id: string, data: Object)
    requires id in store
    requires forall c :: WebhookColumn(c) ==> c in store[id] && store[id][c] == UpdateData(data)[c]
    ensures Upsert(store, id, data) == store
  {
    var s := Upsert(store, id, data);
    assert store[id] != map[] by { assert WebhookColumn(Status); }
    assert s[id].Keys == store[id].Keys;
    assert s[id] == store[id];
    assert s.Keys == store.Keys;
  }

  /** Writing the same update twice leaves the table as writing it once. */
  lemma UpsertIdempotent(store: Store, id: string, data: Object)
    ensures Upsert(Upsert(store, id, data), id, data) == Upsert(store, id, data)
  {
    UpsertHeldRow(Upsert(store, id, data), id, data);
  }

  /** Delivering the same webhook twice leaves the table as delivering it once. */
  lemma WebhookIdempotent(check: SecretCheck, secret: Option<string>, data: Object, store: Store)
    ensures var once := Webhook(check, secret, data, store);
      Webhook(check, secret, data, once.store) == once
  {
    if Accepts(check, secret, data) && "deployment_id" in data && data["deployment_id"].Str? {
      UpsertIdempotent(store, data["deployment_id"].s, data);
    }
  }

  /** An update never moves a deployment's creation time or id. */
  lemma UpdateKeepsCreation(check: SecretCheck, secret: Option<string>, data: Object, store: Store, id: string)
    requires id in store && CreatedAt in store[id] && Id in store[id]
    requires Accepts(check, secret, data) && "deployment_id" in data && data["deployment_id"] == Str(id)
    ensures var s := Webhook(check, secret, data, store).store;
      && s[id][CreatedAt] == store[id][CreatedAt]
      && s[id][Id] == store[id][Id]
  {
  }

  /** A webhook that leaves the name out clears the name the row had: every
      column the payload omits is written as null. */
  lemma OmittedNameCleared(check: SecretCheck, secret: Option<string>, data: Object, store: Store, id: string)
    requires Accepts(check, secret, data) && "deployment_id" in data && data["deployment_id"] == Str(id)
    requires "name" !in data
    requires id in store && Name in store[id]
    ensures var s := Webhook(check, secret, data, store).store;
      s[id][Name] == Null && s[id][Status] == GetOr(data, "status", Null)
  {
    assert store[id] != map[];
  }

  /** After an accepted webhook the status route reports the pushed status. */
  lemma WebhookStatusVisible(check: SecretCheck, secret: Option<string>, data: Object, store: Store, id: string)
    requires WellFormed(store)
    requires Accepts(check, secret, data) && "deployment_id" in data && data["deployment_id"] == Str(id)
    ensures var r := DeploymentStatus(Webhook(check, secret, data, store).store, id);
      && r.code == 200
      && r.body["status"] == GetOr(data, "status", Null)
      && r.body["deployment_id"] == Str(id)
  {
    var s := Upsert(store, id, data);
    assert Webhook(check, secret, data, store).store == s;
    assert s[id][Status] == GetOr(data, "status", Null) by { assert WebhookColumn(Status); }
    assert Id in s[id] && s[id][Id] == Str(id) by { UpsertKeepsWellFormed(store, id, data); }
  }
}
