/** The per-type configuration panel of the stack form
    (`ResourceConfiguration`): which panel a type gets, and the security-group
    rule editor with its add and delete buttons and its port selector. */
module ResourceConfiguration {
  import opened Json
  import opened StackForm
  import opened Seqs

  /** The panel rendered for a resource type. */
  datatype Panel = Ec2Panel | S3Panel | RdsPanel | SecurityGroupPanel | ElasticIpPanel
    | LoadBalancerPanel | EcsPanel | NotAvailable

  function PanelFor(t: string): (p: Panel)
    ensures p == Ec2Panel <==> t == "ec2_instance"
    ensures p == S3Panel <==> t == "s3_bucket"
    ensures p == RdsPanel <==> t == "rds_instance"
    ensures p == SecurityGroupPanel <==> t == "security_group"
    ensures p == ElasticIpPanel <==> t == "elastic_ip"
    ensures p == LoadBalancerPanel <==> t == "load_balancer"
    ensures p == EcsPanel <==> t == "ecs_service"
    ensures p == NotAvailable <==> t !in KnownTypes
  {
    match t
    case "ec2_instance" => Ec2Panel
    case "s3_bucket" => S3Panel
    case "rds_instance" => RdsPanel
    case "security_group" => SecurityGroupPanel
    case "elastic_ip" => ElasticIpPanel
    case "load_balancer" => LoadBalancerPanel
    case "ecs_service" => EcsPanel
    case _ => NotAvailable
  }

  /** The types with a panel are exactly the types with a default configuration. */
  lemma PanelIffDefaults(t: string)
    ensures PanelFor(t) != NotAvailable <==> DefaultConfiguration(t) != map[]
  {
    DefaultEmptyIffUnknown(t);
  }

  // ---- rule list ----

  /** `configuration.rules || []`. */
  function RulesOf(config: Object): (rs: seq<Value>)
    ensures !FieldTruthy(config, "rules") ==> rs == []
    ensures "rules" in config && config["rules"].Arr? ==> rs == config["rules"].items
  {
    if FieldTruthy(config, "rules") && config["rules"].Arr? then config["rules"].items else []
  }

  function Encode(rules: seq<Object>): (vs: seq<Value>)
    ensures |vs| == |rules| && forall i :: 0 <= i < |rules| ==> vs[i] == Obj(rules[i])
  {
    seq(|rules|, i requires 0 <= i < |rules| => Obj(rules[i]))
  }

  /** `setFieldValue(basePath + '.rules', rules)`: only the rules change. */
  function SetRules(config: Object, rules: seq<Object>): (c: Object)
    ensures RulesOf(c) == Encode(rules)
    ensures c.Keys == config.Keys + {"rules"}
    ensures forall k :: k in config && k != "rules" ==> c[k] == config[k]
  {
    config["rules" := Arr(Encode(rules))]
  }

  /** The rule the add button appends. */
  const NewRule: Object := map[
    "type" := Str("ingress"), "protocol" := Str("tcp"), "port_range" := Str("80"), "source" := Str("0.0.0.0/0")]

  /** The add button: the new rule goes after the existing ones. */
  function AddRule(rules: seq<Object>): (r: seq<Object>)
    ensures |r| == |rules| + 1 && r[..|rules|] == rules && r[|rules|] == NewRule
  {
    rules + [NewRule]
  }

  /** The rule added by the button passes the rule check of the form. */
  lemma NewRuleValid()
    ensures RuleValid(NewRule)
  {
  }

  /** A rule's delete button (`splice(k, 1)`). */
  function DeleteRule(rules: seq<Object>, k: nat): (r: seq<Object>)
    requires k < |rules|
    ensures |r| == |rules| - 1
    ensures forall j :: 0 <= j < k ==> r[j] == rules[j]
    ensures forall j :: k <= j < |r| ==> r[j] == rules[j + 1]
  {
    RemoveAt(rules, k)
  }

  /** Deleting the rule just added restores the list. */
  lemma DeleteUndoesAdd(rules: seq<Object>)
    ensures DeleteRule(AddRule(rules), |rules|) == rules
  {
  }

  // ---- port selector ----

  const PortChoices: seq<string> := ["22", "80", "443", "3306", "5432", "1433", "custom"]

  /** The port selector as written: the chosen value is stored, and for
      "custom" a zero-delay timer then stores the empty string. The result is
      the rule after both writes. */
  function ChoosePort(rule: Object, value: string): (r: Object)
    ensures r.Keys == rule.Keys + {"port_range"}
    ensures r["port_range"] == Str(if value == "custom" then "" else value)
    ensures forall k :: k in rule && k != "port_range" ==> r[k] == rule[k]
  {
    var chosen := rule["port_range" := Str(value)];
    if value == "custom" then chosen["port_range" := Str("")] else chosen
  }

  /** The custom port field is rendered only while the stored value is "custom". */
  predicate CustomFieldShown(rule: Object) {
    "port_range" in rule && rule["port_range"] == Str("custom")
  }

  /** Choosing "Custom Port" ends with the custom field hidden and an empty
      port, so no custom port can be typed in; a TCP rule in that state fails
      the form's rule check. */
  lemma CustomChoiceHidesCustomField(rule: Object)
    ensures !CustomFieldShown(ChoosePort(rule, "custom"))
    ensures "protocol" in rule && rule["protocol"] == Str("tcp") ==> !RuleValid(ChoosePort(rule, "custom"))
  {
  }

  /** A rule in the editor with the choice of custom mode kept apart from the
      stored port. */
  datatype EditedRule = EditedRule(fields: Object, custom: bool)

  /** The selector with custom mode kept: choosing "custom" clears the port and
      turns the custom field on, any other choice stores the port and turns it off. */
  function ChoosePortKeepingMode(rule: EditedRule, value: string): (r: EditedRule)
    ensures r.custom <==> value == "custom"
    ensures r.fields == ChoosePort(rule.fields, value)
  {
    EditedRule(ChoosePort(rule.fields, value), value == "custom")
  }

  /** Typing into the custom field stores the text and keeps the field shown. */
  function TypeCustomPort(rule: EditedRule, text: string): (r: EditedRule)
    requires rule.custom
    ensures r.custom && r.fields == rule.fields["port_range" := Str(text)]
  {
    EditedRule(rule.fields["port_range" := Str(text)], true)
  }

  /** With the mode kept, choosing "Custom Port" shows the custom field, and the
      port typed there is what the rule ends up with. */
  lemma CustomChoiceAcceptsTypedPort(rule: EditedRule, text: string)
    ensures ChoosePortKeepingMode(rule, "custom").custom
    ensures var r := TypeCustomPort(ChoosePortKeepingMode(rule, "custom"), text);
      r.custom && r.fields["port_range"] == Str(text)
  {
  }
}
