/** The single-resource wizard (`EnhancedResourceWizard`): its form values,
    the step plan per resource type, which form each step shows, the stepper
    navigation and the request payload built on submit. */
module Wizard {
  import opened Json
  import opened Strings

  /** A number input as the form holds it: a number, or blank after the user
      clears the field. */
  datatype NumberField = Number(n: int) | Blank

  /** JS truthiness of a number input: blank and zero are falsy. */
  predicate NumberTruthy(f: NumberField) {
    f.Number? && f.n != 0
  }

  /** The value a relational comparison sees: blank converts to 0. */
  function NumberOf(f: NumberField): int {
    if f.Number? then f.n else 0
  }

  /** `String(f)` / `f.toString()`. */
  function NumberText(f: NumberField): (s: string)
    ensures f.Number? ==> ParseInt(s) == Some(f.n)
    ensures f.Blank? <==> s == ""
  {
    match f
    case Number(n) => IntToStringRoundTrip(n); IntToString(n)
    case Blank => ""
  }

  function NumberValue(f: NumberField): Value {
    match f
    case Number(n) => Num(n)
    case Blank => Str("")
  }

  datatype IngressRule = IngressRule(
    protocol: string, fromPort: NumberField, toPort: NumberField, cidrBlock: string, description: string)

  datatype Ec2Values = Ec2Values(
    instanceType: string, volumeSize: NumberField, subnetId: string, assignEip: bool, ami: string, userData: string)

  datatype S3Values = S3Values(bucketName: string, versioning: bool, publicAccess: bool, encryption: bool)

  datatype RdsValues = RdsValues(
    engine: string, engineVersion: string, instanceClass: string, allocatedStorage: NumberField,
    multiAZ: bool, databaseName: string, masterUsername: string, masterPassword: string)

  datatype EcsValues = EcsValues(
    clusterName: string, serviceName: string, containerPort: NumberField, cpu: NumberField,
    memory: NumberField, desiredCount: NumberField, imageUrl: string, launchType: string)

  datatype SecurityGroupValues = SecurityGroupValues(name: string, description: string, ingressRules: seq<IngressRule>)

  datatype AlbValues = AlbValues(
    name: string, internal: bool, targetPort: NumberField, healthCheckPath: string,
    healthCheckPort: string, protocol: string)

  datatype DependencyValues = DependencyValues(
    connectToRds: bool, frontWithAlb: bool, rdsSecurityGroupId: string, albSecurityGroupId: string)

  datatype WizardValues = WizardValues(
    resourceType: string, name: string, environment: string, region: string,
    ec2: Ec2Values, s3: S3Values, rds: RdsValues, ecs: EcsValues,
    securityGroup: SecurityGroupValues, alb: AlbValues, dependencies: DependencyValues)

  /** The values the wizard starts from. */
  const InitialValues: WizardValues := WizardValues(
    "", "", "dev", "eu-west-2",
    Ec2Values("t2.micro", Number(20), "subnet-07759e500cfdfb6b2", true, "ami-0ad97c80f2dfe623b", ""),
    S3Values("", false, false, true),
    RdsValues("mysql", "8.0", "db.t3.micro", Number(20), false, "", "admin", ""),
    EcsValues("", "", Number(80), Number(256), Number(512), Number(1), "", "FARGATE"),
    SecurityGroupValues("", "Created via Infrastructure Platform",
      [IngressRule("tcp", Number(22), Number(22), "0.0.0.0/0", "SSH")]),
    AlbValues("", false, Number(80), "/", "80", "HTTP"),
    DependencyValues(false, false, "", ""))

  /** The four types the type-selection step offers. */
  const SelectableTypes: set<string> := {"ec2_instance", "s3_bucket", "rds_instance", "ecs_service"}

  // ---- step plan ----

  function GetSteps(t: string): (steps: seq<string>)
    ensures |steps| >= 3
    ensures steps[0] == "Resource Selection" && steps[|steps| - 1] == "Review"
    ensures |steps| == (if t == "ecs_service" then 5 else if t == "ec2_instance" || t == "rds_instance" then 4 else 3)
  {
    var base := ["Resource Selection"];
    match t
    case "ec2_instance" => base + ["EC2 Configuration", "Security Group", "Review"]
    case "s3_bucket" => base + ["S3 Configuration", "Review"]
    case "rds_instance" => base + ["RDS Configuration", "Security Group", "Review"]
    case "ecs_service" => base + ["ECS Configuration", "Load Balancer", "Security Group", "Review"]
    case _ => base + ["Configuration", "Review"]
  }

  /** What a step shows. `NoContent` is the fall-through for a step number past
      the end of a known type's plan. */
  datatype Content =
    | TypeSelection | Ec2Form | S3Form | RdsForm | EcsForm | AlbForm | SecurityGroupForm | Review
    | SelectTypeFirst | NoContent

  /** `getStepContent(step)` for the current type. */
  function StepContent(t: string, step: nat): (c: Content)
    ensures step == 0 ==> c == TypeSelection
    ensures step > 0 && t !in SelectableTypes ==> c == SelectTypeFirst
    ensures t in SelectableTypes && step == |GetSteps(t)| - 1 ==> c == Review
    ensures t in SelectableTypes && step >= |GetSteps(t)| ==> c == NoContent
  {
    if step == 0 then TypeSelection
    else match t
      case "ec2_instance" =>
        if step == 1 then Ec2Form else if step == 2 then SecurityGroupForm else if step == 3 then Review else NoContent
      case "s3_bucket" =>
        if step == 1 then S3Form else if step == 2 then Review else NoContent
      case "rds_instance" =>
        if step == 1 then RdsForm else if step == 2 then SecurityGroupForm else if step == 3 then Review else NoContent
      case "ecs_service" =>
        if step == 1 then EcsForm else if step == 2 then AlbForm else if step == 3 then SecurityGroupForm
        else if step == 4 then Review else NoContent
      case _ => SelectTypeFirst
  }

  /** The form a step label names. */
  function FormNamed(title: string): Content {
    match title
    case "Resource Selection" => TypeSelection
    case "EC2 Configuration" => Ec2Form
    case "S3 Configuration" => S3Form
    case "RDS Configuration" => RdsForm
    case "ECS Configuration" => EcsForm
    case "Load Balancer" => AlbForm
    case "Security Group" => SecurityGroupForm
    case "Review" => Review
    case _ => NoContent
  }

  /** For every selectable type the stepper label and the form shown agree at
      every step of the plan. */
  lemma ContentMatchesStepLabels(t: string, step: nat)
    requires t in SelectableTypes && step < |GetSteps(t)|
    ensures StepContent(t, step) == FormNamed(GetSteps(t)[step])
  {
  }

  // ---- navigation ----

  /** The schema requires a resource type; nothing else is validated. */
  predicate IsValid(v: WizardValues) {
    v.resourceType != ""
  }

  datatype NavEvent = SelectType(t: string) | Next | Back

  /** Back is disabled at step 0; Next is offered before the last step and
      disabled while no type is chosen; the type can be chosen on step 0 only. */
  function Navigate(v: WizardValues, step: nat, e: NavEvent): (r: (WizardValues, nat))
    ensures e.Back? ==> r.1 == (if step > 0 then step - 1 else step)
    ensures e.Next? && step < |GetSteps(v.resourceType)| - 1 && IsValid(v) ==> r.1 == step + 1
    ensures e.Next? && !(step < |GetSteps(v.resourceType)| - 1 && IsValid(v)) ==> r.1 == step
    ensures e.SelectType? ==> r.1 == step
    ensures e.SelectType? && step == 0 && e.t in SelectableTypes ==> r.0.resourceType == e.t
    ensures r.0.resourceType != v.resourceType ==> e.SelectType? && step == 0
    ensures r.0 == v.(resourceType := r.0.resourceType)
  {
    match e
    case SelectType(t) => if step == 0 && t in SelectableTypes then (v.(resourceType := t), step) else (v, step)
    case Next => if step < |GetSteps(v.resourceType)| - 1 && IsValid(v) then (v, step + 1) else (v, step)
    case Back => if step > 0 then (v, step - 1) else (v, step)
  }

  /** The submit button replaces Next exactly at the last step of the plan. */
  predicate ShowsSubmit(v: WizardValues, step: nat) {
    step == |GetSteps(v.resourceType)| - 1
  }

  /** The reachable states: inside the plan, and past step 0 only with a selected type. */
  predicate NavInv(v: WizardValues, step: nat) {
    && (v.resourceType == "" || v.resourceType in SelectableTypes)
    && step < |GetSteps(v.resourceType)|
    && (step > 0 ==> v.resourceType in SelectableTypes)
  }

  function NavigateAll(v: WizardValues, step: nat, es: seq<NavEvent>): (WizardValues, nat)
    decreases |es|
  {
    if es == [] then (v, step) else
      var r := Navigate(v, step, es[0]);
      NavigateAll(r.0, r.1, es[1..])
  }

  /** Whatever buttons are pressed, the wizard stays inside its plan and never
      shows an empty step or the "select a type" placeholder. */
  lemma {:induction false} NavigationStaysInPlan(v: WizardValues, step: nat, es: seq<NavEvent>)
    requires NavInv(v, step)
    ensures var r := NavigateAll(v, step, es);
      && NavInv(r.0, r.1)
      && StepContent(r.0.resourceType, r.1) != NoContent
      && StepContent(r.0.resourceType, r.1) != SelectTypeFirst
    decreases |es|
  {
    if es == [] {
      if step > 0 {
        ContentMatchesStepLabels(v.resourceType, step);
      }
    } else {
      var r := Navigate(v, step, es[0]);
      NavigationStaysInPlan(r.0, r.1, es[1..]);
    }
  }

  lemma InitialNavInv()
    ensures NavInv(InitialValues, 0)
  {
  }

  // ---- request payload ----

  function RuleValue(r: IngressRule): Value {
    Obj(map["protocol" := Str(r.protocol), "fromPort" := NumberValue(r.fromPort), "toPort" := NumberValue(r.toPort),
            "cidrBlock" := Str(r.cidrBlock), "description" := Str(r.description)])
  }

  function SecurityGroupValue(g: SecurityGroupValues): Value {
    Obj(map["name" := Str(g.name), "description" := Str(g.description),
            "ingressRules" := Arr(seq(|g.ingressRules|, i requires 0 <= i < |g.ingressRules| => RuleValue(g.ingressRules[i])))])
  }

  function AlbValue(a: AlbValues): Value {
    Obj(map["name" := Str(a.name), "internal" := Bool(a.internal), "targetPort" := NumberValue(a.targetPort),
            "healthCheckPath" := Str(a.healthCheckPath), "healthCheckPort" := Str(a.healthCheckPort),
            "protocol" := Str(a.protocol)])
  }

  datatype ResourceRequest = ResourceRequest(
    resource_type: string, name: string, environment: string, region: string, parameters: Object)

  /** The type-specific parameters, before the dependency step adds to them. */
  function TypeParameters(v: WizardValues): (p: Object)
    ensures v.resourceType !in SelectableTypes ==> p == map[]
    ensures "rds_security_group_id" !in p
    ensures v.resourceType == "ec2_instance" ==>
      && "volume_size" in p && p["volume_size"] == Str(NumberText(v.ec2.volumeSize))
      && "security_group" in p && p["security_group"] == SecurityGroupValue(v.securityGroup)
    ensures v.resourceType == "s3_bucket" ==> "block_public_access" in p && p["block_public_access"] == Bool(v.s3.publicAccess)
    ensures v.resourceType == "ecs_service" ==>
      && "alb_config" in p
      && p["alb_config"] == (if v.dependencies.frontWithAlb then AlbValue(v.alb) else Null)
  {
    match v.resourceType
    case "ec2_instance" =>
      map["instance_type" := Str(v.ec2.instanceType), "volume_size" := Str(NumberText(v.ec2.volumeSize)),
          "subnet_id" := Str(v.ec2.subnetId), "assign_eip" := Bool(v.ec2.assignEip), "ami_id" := Str(v.ec2.ami),
          "user_data" := Str(v.ec2.userData), "security_group" := SecurityGroupValue(v.securityGroup)]
    case "s3_bucket" =>
      map["bucket_name" := Str(v.s3.bucketName), "versioning_enabled" := Bool(v.s3.versioning),
          "block_public_access" := Bool(v.s3.publicAccess), "encryption_enabled" := Bool(v.s3.encryption)]
    case "rds_instance" =>
      map["engine" := Str(v.rds.engine), "engine_version" := Str(v.rds.engineVersion),
          "instance_class" := Str(v.rds.instanceClass), "allocated_storage" := NumberValue(v.rds.allocatedStorage),
          "multi_az" := Bool(v.rds.multiAZ), "database_name" := Str(v.rds.databaseName),
          "master_username" := Str(v.rds.masterUsername), "master_password" := Str(v.rds.masterPassword),
          "security_group" := SecurityGroupValue(v.securityGroup)]
    case "ecs_service" =>
      map["cluster_name" := Str(v.ecs.clusterName), "service_name" := Str(v.ecs.serviceName),
          "container_port" := NumberValue(v.ecs.containerPort), "cpu" := NumberValue(v.ecs.cpu),
          "memory" := NumberValue(v.ecs.memory), "desired_count" := NumberValue(v.ecs.desiredCount),
          "image_url" := Str(v.ecs.imageUrl), "launch_type" := Str(v.ecs.launchType),
          "security_group" := SecurityGroupValue(v.securityGroup),
          "alb_config" := if v.dependencies.frontWithAlb then AlbValue(v.alb) else Null]
    case _ => map[]
  }

  /** `formatRequestPayload`: the four basic fields, the type's parameters, and
      the RDS security-group id when the RDS connection is ticked (for any type). */
  function FormatRequestPayload(v: WizardValues): (r: ResourceRequest)
    ensures r.resource_type == v.resourceType && r.name == v.name
    ensures r.environment == v.environment && r.region == v.region
    ensures "rds_security_group_id" in r.parameters <==> v.dependencies.connectToRds
    ensures v.dependencies.connectToRds ==> r.parameters["rds_security_group_id"] == Str(v.dependencies.rdsSecurityGroupId)
    ensures forall k :: k in TypeParameters(v) ==> k in r.parameters && r.parameters[k] == TypeParameters(v)[k]
    ensures forall k :: k in r.parameters ==> k in TypeParameters(v) || k == "rds_security_group_id"
  {
    var p := TypeParameters(v);
    var params := if v.dependencies.connectToRds then p["rds_security_group_id" := Str(v.dependencies.rdsSecurityGroupId)] else p;
    ResourceRequest(v.resourceType, v.name, v.environment, v.region, params)
  }

  /** An EC2 request carries the volume size as a decimal string that reads
      back as the number entered. */
  lemma VolumeSizeRoundTrip(v: WizardValues)
    requires v.resourceType == "ec2_instance" && v.ec2.volumeSize.Number?
    ensures var p := FormatRequestPayload(v).parameters;
      "volume_size" in p && p["volume_size"].Str? && ParseInt(p["volume_size"].s) == Some(v.ec2.volumeSize.n)
  {
  }

  /** A type outside the four gets no parameters beyond the optional RDS link. */
  lemma UnknownTypeParameters(v: WizardValues)
    requires v.resourceType !in SelectableTypes
    ensures FormatRequestPayload(v).parameters ==
      (if v.dependencies.connectToRds then map["rds_security_group_id" := Str(v.dependencies.rdsSecurityGroupId)] else map[])
  {
  }
}
