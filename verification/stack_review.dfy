/** The review step of the stack request form (`components/ResourceReview`):
    per-resource headings, per-type configuration summaries and the two
    dependency lists. A summary is a list of label / value rows; a value is the
    configuration's own value where the page shows it unformatted. */
module StackReview {
  import opened Json
  import opened Strings
  import opened Seqs
  import opened Labels
  import opened StackForm
  import opened Dependencies

  datatype Row = Row(title: string, shown: Value)

  /** A security-group rule line: primary text and source text. */
  datatype RuleLine = RuleLine(primary: string, secondary: string)

  datatype Summary =
    | Rows(rows: seq<Row>)
    | SecurityGroupSummary(description: Value, rules: seq<RuleLine>)
    | NoSpecificConfiguration

  /** `c[k] ? yes : no` */
  function Flag(c: Object, k: string, yes: string, no: string): (v: Value)
    ensures v == Str(yes) || v == Str(no)
    ensures yes != no ==> (FieldTruthy(c, k) <==> v == Str(yes))
  {
    Str(if FieldTruthy(c, k) then yes else no)
  }

  /** `c[k]` shown as it is; a missing field shows nothing, like `null`. */
  function Shown(c: Object, k: string): Value {
    GetOr(c, k, Null)
  }

  /** A label helper applied to a field: a string is looked up, any other value
      is shown as it is (the lookup misses and returns its argument). */
  function Labelled(table: map<string, string>, c: Object, k: string): (v: Value)
    ensures k in c && c[k].Str? ==> v == Str(LabelOr(table, c[k].s))
    ensures !(k in c && c[k].Str?) ==> v == Shown(c, k)
  {
    if k in c && c[k].Str? then Str(LabelOr(table, c[k].s)) else Shown(c, k)
  }

  function Ec2Summary(c: Object): (rows: seq<Row>)
    ensures |rows| == (if FieldTruthy(c, "user_data") then 4 else 3)
    ensures rows[0] == Row("Size", Labelled(SizeLabels, c, "size"))
    ensures rows[2].shown == (if FieldTruthy(c, "assign_eip") then Str("Yes") else Str("No"))
  {
    [Row("Size", Labelled(SizeLabels, c, "size")),
     Row("Subnet", Labelled(SubnetLabels, c, "subnet_id")),
     Row("Elastic IP", Flag(c, "assign_eip", "Yes", "No"))]
    + (if FieldTruthy(c, "user_data") then [Row("User Data Script", Str("Configured"))] else [])
  }

  function S3Summary(c: Object): (rows: seq<Row>)
    ensures |rows| == 4
    ensures rows[1].shown == (if FieldTruthy(c, "public_access") then Str("Allowed") else Str("Blocked"))
  {
    [Row("Versioning", Flag(c, "versioning_enabled", "Enabled", "Disabled")),
     Row("Public Access", Flag(c, "public_access", "Allowed", "Blocked")),
     Row("Encryption", Flag(c, "encryption_enabled", "Enabled", "Disabled")),
     Row("Static Website", Flag(c, "static_website", "Configured", "Not configured"))]
  }

  function RdsSummary(c: Object): (rows: seq<Row>)
    ensures |rows| == 5
    ensures rows[0].shown == Shown(c, "engine")
  {
    [Row("Database Engine", Shown(c, "engine")),
     Row("Instance Size", Labelled(SizeLabels, c, "size")),
     Row("Database Name", Shown(c, "db_name")),
     Row("Multi-AZ Deployment", Flag(c, "multi_az", "Enabled", "Disabled")),
     Row("Publicly Accessible", Flag(c, "publicly_accessible", "Yes", "No"))]
  }

  /** The fields of a rule; a rule that is not an object has none. */
  function RuleFields(rule: Value): Object {
    if rule.Obj? then rule.fields else map[]
  }

  /** `rule.type === 'ingress' ? 'Inbound' : 'Outbound'` */
  function DirectionWord(o: Object): string {
    if "type" in o && o["type"] == Str("ingress") then "Inbound" else "Outbound"
  }

  /** One rule of a security group: direction, upper-cased protocol and port
      range, then the source. */
  function RuleLineOf(rule: Value): (l: RuleLine)
    ensures |l.primary| >= 10
    ensures rule.Obj? && "type" in rule.fields && rule.fields["type"] == Str("ingress") ==> l.primary[..7] == "Inbound"
    ensures !(rule.Obj? && "type" in rule.fields && rule.fields["type"] == Str("ingress")) ==> l.primary[..8] == "Outbound"
    ensures var o := RuleFields(rule); var d := |DirectionWord(o)|;
      d + 3 <= |l.primary| &&
      l.primary[d..d + 3] == " - " &&
      l.primary[d + 3..] == Upper(FieldText(o, "protocol")) + " " + FieldText(o, "port_range")
    ensures l.secondary == "Source: " + FieldText(RuleFields(rule), "source")
  {
    var o := RuleFields(rule);
    RuleLine(Concat3(DirectionWord(o), " - ", Upper(FieldText(o, "protocol")) + " " + FieldText(o, "port_range")),
             "Source: " + FieldText(o, "source"))
  }

  function RuleLines(rules: seq<Value>): (ls: seq<RuleLine>)
    ensures |ls| == |rules|
    ensures forall i :: 0 <= i < |rules| ==> ls[i] == RuleLineOf(rules[i])
  {
    seq(|rules|, i requires 0 <= i < |rules| => RuleLineOf(rules[i]))
  }

  /** The rule list is shown only when `rules` is truthy. */
  function SecurityGroupRules(c: Object): (ls: seq<RuleLine>)
    ensures !FieldTruthy(c, "rules") ==> ls == []
    ensures FieldTruthy(c, "rules") && c["rules"].Arr? ==> ls == RuleLines(c["rules"].items)
  {
    if FieldTruthy(c, "rules") && c["rules"].Arr? then RuleLines(c["rules"].items) else []
  }

  function ElasticIpSummary(c: Object): (rows: seq<Row>)
    ensures rows == [Row("Associate on Creation", if FieldTruthy(c, "associate_on_creation") then Str("Yes") else Str("No"))]
  {
    [Row("Associate on Creation", Flag(c, "associate_on_creation", "Yes", "No"))]
  }

  /** One subnet of a load balancer: a string is labelled, anything else shown as text. */
  function SubnetText(v: Value): (t: string)
    ensures v.Str? ==> t == SubnetLabel(v.s)
  {
    if v.Str? then SubnetLabel(v.s) else if v.Null? then "" else Text(v)
  }

  /** The subnet row: the labels joined with ", ", or "None selected" when the
      field is falsy. */
  function SubnetsText(c: Object): (t: string)
    ensures !FieldTruthy(c, "subnets") ==> t == "None selected"
    ensures FieldTruthy(c, "subnets") && c["subnets"].Arr? ==>
      var items := c["subnets"].items;
      t == Join(seq(|items|, i requires 0 <= i < |items| => SubnetText(items[i])), ", ")
  {
    if !FieldTruthy(c, "subnets") then "None selected"
    else if c["subnets"].Arr? then
      var items := c["subnets"].items;
      Join(seq(|items|, i requires 0 <= i < |items| => SubnetText(items[i])), ", ")
    else Text(c["subnets"])
  }

  function LoadBalancerSummary(c: Object): (rows: seq<Row>)
    ensures |rows| == 5
    ensures rows[0].shown == (if "scheme" in c && c["scheme"] == Str("internet-facing") then Str("Internet-facing") else Str("Internal"))
    ensures rows[1].shown == Str(SubnetsText(c))
    ensures FieldTruthy(c, "http_port") ==> rows[2].shown == c["http_port"]
    ensures !FieldTruthy(c, "http_port") ==> rows[2].shown == Num(80)
  {
    [Row("Scheme", Str(if "scheme" in c && c["scheme"] == Str("internet-facing") then "Internet-facing" else "Internal")),
     Row("Subnets", Str(SubnetsText(c))),
     Row("HTTP Port", if FieldTruthy(c, "http_port") then c["http_port"] else Num(80)),
     Row("HTTPS Enabled", Flag(c, "https_enabled", "Yes", "No")),
     Row("Deletion Protection", Flag(c, "enable_deletion_protection", "Enabled", "Disabled"))]
  }

  function EcsSummary(c: Object): (rows: seq<Row>)
    ensures |rows| == (if FieldTruthy(c, "requires_load_balancer") then 7 else 5)
    ensures rows[2].shown == Str("Rolling Update") <==> "deployment_strategy" in c && c["deployment_strategy"] == Str("rolling")
    ensures rows[2].shown == Str("Rolling Update") || rows[2].shown == Str("Blue/Green Deployment")
  {
    [Row("Task Definition", Shown(c, "task_definition")),
     Row("Desired Count", Shown(c, "desired_count")),
     Row("Deployment Strategy",
       Str(if "deployment_strategy" in c && c["deployment_strategy"] == Str("rolling") then "Rolling Update" else "Blue/Green Deployment")),
     Row("Auto Scaling", Flag(c, "enable_auto_scaling", "Enabled", "Disabled")),
     Row("Load Balancer Required", Flag(c, "requires_load_balancer", "Yes", "No"))]
    + (if FieldTruthy(c, "requires_load_balancer")
       then [Row("Container Port", Shown(c, "container_port")), Row("Health Check Path", Shown(c, "health_check_path"))]
       else [])
  }

  /** `getConfigurationSummary`: one summary per known type, a note otherwise. */
  function ConfigurationSummary(t: string, c: Object): (s: Summary)
    ensures t == "ec2_instance" ==> s == Rows(Ec2Summary(c))
    ensures t == "s3_bucket" ==> s == Rows(S3Summary(c))
    ensures t == "rds_instance" ==> s == Rows(RdsSummary(c))
    ensures t == "elastic_ip" ==> s == Rows(ElasticIpSummary(c))
    ensures t == "load_balancer" ==> s == Rows(LoadBalancerSummary(c))
    ensures t == "ecs_service" ==> s == Rows(EcsSummary(c))
    ensures s.SecurityGroupSummary? <==> t == "security_group"
    ensures s.SecurityGroupSummary? ==> s == SecurityGroupSummary(Shown(c, "description"), SecurityGroupRules(c))
    ensures s.NoSpecificConfiguration? <==> t !in KnownTypes
  {
    match t
    case "ec2_instance" => Rows(Ec2Summary(c))
    case "s3_bucket" => Rows(S3Summary(c))
    case "rds_instance" => Rows(RdsSummary(c))
    case "security_group" => SecurityGroupSummary(Shown(c, "description"), SecurityGroupRules(c))
    case "elastic_ip" => Rows(ElasticIpSummary(c))
    case "load_balancer" => Rows(LoadBalancerSummary(c))
    case "ecs_service" => Rows(EcsSummary(c))
    case _ => NoSpecificConfiguration
  }

  /** The two default subnets are listed by their zone labels, in order. */
  lemma DefaultSubnetsText(c: Object)
    requires "subnets" in c && c["subnets"] == Arr([Str(DefaultSubnet), Str(SecondSubnet)])
    ensures SubnetsText(c) == SubnetLabel(DefaultSubnet) + ", " + SubnetLabel(SecondSubnet)
    ensures SubnetLabel(DefaultSubnet) == "eu-west-2a (Public)"
    ensures SubnetLabel(SecondSubnet) == "eu-west-2b (Public)"
  {
    var items := c["subnets"].items;
    var texts := seq(|items|, i requires 0 <= i < |items| => SubnetText(items[i]));
    assert texts == [SubnetLabel(DefaultSubnet), SubnetLabel(SecondSubnet)];
    assert texts[1..] == [SubnetLabel(SecondSubnet)];
    assert Join(texts[1..], ", ") == SubnetLabel(SecondSubnet);
    assert Join(texts, ", ") == texts[0] + ", " + Join(texts[1..], ", ");
  }

  /** A freshly defaulted load balancer reviews as internet-facing on the two
      public subnets, listening on port 80. */
  lemma DefaultLoadBalancerReview()
    ensures var rows := LoadBalancerSummary(DefaultConfiguration("load_balancer"));
      && rows[0].shown == Str("Internet-facing")
      && rows[1].shown == Str(SubnetLabel(DefaultSubnet) + ", " + SubnetLabel(SecondSubnet))
      && rows[2].shown == Num(80)
  {
    var c := DefaultConfiguration("load_balancer");
    DefaultSubnetsText(c);
  }

  /** A freshly defaulted security group reviews its one rule as inbound TCP on
      port 22 from anywhere. */
  lemma DefaultSecurityGroupReview()
    ensures SecurityGroupRules(DefaultConfiguration("security_group"))
      == [RuleLine("Inbound" + " - " + "TCP" + " " + "22", "Source: " + "0.0.0.0/0")]
  {
    var o := DefaultSshRule;
    assert FieldText(o, "protocol") == "tcp";
    assert FieldText(o, "port_range") == "22";
    assert FieldText(o, "source") == "0.0.0.0/0";
    assert Upper("tcp") == "TCP" by {
      var up := Upper("tcp");
      assert up[0] == 'T' && up[1] == 'C' && up[2] == 'P';
    }
    assert DirectionWord(o) == "Inbound";
    var l := RuleLineOf(Obj(o));
    assert l.primary == "Inbound" + " - " + ("TCP" + " " + "22");
    AppendAssoc("Inbound" + " - ", "TCP" + " ", "22");
    AppendAssoc("Inbound" + " - ", "TCP", " ");
    assert SecurityGroupRules(DefaultConfiguration("security_group")) == RuleLines([Obj(o)]);
    assert RuleLines([Obj(o)]) == [l];
  }

  /** The card heading: the resource's name, else "Resource n" by position. */
  function Heading(r: FormResource, index: nat): (h: string)
    ensures r.name != "" ==> h == r.name
    ensures r.name == "" ==> h == "Resource " + NatToString(index + 1)
  {
    if r.name != "" then r.name else "Resource " + NatToString(index + 1)
  }

  /** Unnamed resources at different positions get different headings. */
  lemma UnnamedHeadingsDiffer(a: FormResource, b: FormResource, i: nat, j: nat)
    requires a.name == "" && b.name == "" && i != j
    ensures Heading(a, i) != Heading(b, j)
  {
    var pre := "Resource ";
    if Heading(a, i) == Heading(b, j) {
      assert (pre + NatToString(i + 1))[|pre|..] == NatToString(i + 1);
      assert (pre + NatToString(j + 1))[|pre|..] == NatToString(j + 1);
      NatToStringInjective(i + 1, j + 1);
    }
  }

  /** The name shown for a resource in a dependency list: its name, else its
      type label and its position in the stack. */
  function EntryName(rs: seq<FormResource>, dep: FormResource): (n: string)
    requires dep in rs
    ensures dep.name != "" ==> n == dep.name
    ensures dep.name == "" ==> n == TypeLabel(dep.resourceType) + " " + NatToString(IndexOf(rs, dep) + 1)
  {
    if dep.name != "" then dep.name else TypeLabel(dep.resourceType) + " " + NatToString(IndexOf(rs, dep) + 1)
  }

  datatype Entry = Entry(name: string, description: string)

  /** "This resource depends on": each dependency, described from `x`'s side. */
  function DependsOnEntries(rs: seq<FormResource>, x: FormResource): (es: seq<Entry>)
    ensures |es| == |DependenciesOf(rs, x)|
    ensures forall k :: 0 <= k < |es| ==>
      es[k].description == ReviewDescription(x.resourceType, DependenciesOf(rs, x)[k].resourceType)
  {
    var ds := DependenciesOf(rs, x);
    seq(|ds|, k requires 0 <= k < |ds| =>
      Entry(EntryName(rs, ds[k]), ReviewDescription(x.resourceType, ds[k].resourceType)))
  }

  /** "Resources that depend on this": each dependent, described from its own side. */
  function DependedOnByEntries(rs: seq<FormResource>, x: FormResource): (es: seq<Entry>)
    ensures |es| == |DependentsOf(rs, x)|
    ensures forall k :: 0 <= k < |es| ==>
      es[k].description == ReviewDescription(DependentsOf(rs, x)[k].resourceType, x.resourceType)
  {
    var ds := DependentsOf(rs, x);
    seq(|ds|, k requires 0 <= k < |ds| =>
      Entry(EntryName(rs, ds[k]), ReviewDescription(ds[k].resourceType, x.resourceType)))
  }

  /** A link chosen in the dependency step shows the same pair's description
      on both sides of the review: under the dependent's "depends on" and under
      the target's "depended on by". */
  lemma LinkDescribedAlikeOnBothSides(rs: seq<FormResource>, x: FormResource, y: FormResource)
    requires x in rs && y in rs && Lists(x, y.id)
    ensures y in DependenciesOf(rs, x) && x in DependentsOf(rs, y)
    ensures exists k ::
      && 0 <= k < |DependsOnEntries(rs, x)|
      && DependsOnEntries(rs, x)[k].description == ReviewDescription(x.resourceType, y.resourceType)
    ensures exists k ::
      && 0 <= k < |DependedOnByEntries(rs, y)|
      && DependedOnByEntries(rs, y)[k].description == ReviewDescription(x.resourceType, y.resourceType)
  {
    var ds := DependenciesOf(rs, x);
    var k := IndexOf(ds, y);
    assert DependsOnEntries(rs, x)[k].description == ReviewDescription(x.resourceType, y.resourceType);
    var ts := DependentsOf(rs, y);
    var l := IndexOf(ts, x);
    assert DependedOnByEntries(rs, y)[l].description == ReviewDescription(x.resourceType, y.resourceType);
  }
}
