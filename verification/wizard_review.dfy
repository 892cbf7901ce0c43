/** The wizard's review step: the type heading, the environment chip, the
    security-group section with its rule list, and the three configuration
    notes shown under the summary. */
module WizardReview {
  import opened Json
  import opened Strings
  import opened Wizard

  /** The type-specific block of the review. */
  datatype Details = Ec2Details | S3Details | RdsDetails | EcsDetails | NoTypeSelected

  function DetailsFor(t: string): (d: Details)
    ensures d == Ec2Details <==> t == "ec2_instance"
    ensures d == S3Details <==> t == "s3_bucket"
    ensures d == RdsDetails <==> t == "rds_instance"
    ensures d == EcsDetails <==> t == "ecs_service"
    ensures d == NoTypeSelected <==> t !in SelectableTypes
  {
    match t
    case "ec2_instance" => Ec2Details
    case "s3_bucket" => S3Details
    case "rds_instance" => RdsDetails
    case "ecs_service" => EcsDetails
    case _ => NoTypeSelected
  }

  /** The type heading: the first underscore becomes a space. */
  function TypeDisplay(t: string): string {
    SpaceFirstUnderscore(t)
  }

  /** A name with a single underscore shows no underscore at all. */
  lemma SingleUnderscoreGone(t: string, p: nat)
    requires p < |t| && t[p] == '_'
    requires forall j :: 0 <= j < |t| && j != p ==> t[j] != '_'
    ensures forall i :: 0 <= i < |TypeDisplay(t)| ==> TypeDisplay(t)[i] != '_'
  {
    assert FirstIndex(t, '_') == Some(p);
  }

  /** Each of the four selectable types has a single underscore, so its heading
      shows none. */
  lemma SelectableTypesDisplayWithoutUnderscore(t: string)
    requires t in SelectableTypes
    ensures forall i :: 0 <= i < |TypeDisplay(t)| ==> TypeDisplay(t)[i] != '_'
  {
    if t == "s3_bucket" {
      SingleUnderscoreGone(t, 2);
    } else {
      SingleUnderscoreGone(t, 3);
    }
  }

  datatype ChipColour = Error | Warning | Info | Success

  /** The environment chip: production red, staging amber, test blue, anything else green. */
  function EnvironmentColour(env: string): (c: ChipColour)
    ensures c == Error <==> env == "prod"
    ensures c == Warning <==> env == "staging"
    ensures c == Info <==> env == "test"
    ensures c == Success <==> env !in {"prod", "staging", "test"}
  {
    if env == "prod" then Error else if env == "staging" then Warning else if env == "test" then Info else Success
  }

  /** The security-group section is hidden for S3 buckets only; the wizard
      always carries a security-group record. */
  predicate ShowsSecurityGroup(v: WizardValues) {
    v.resourceType != "s3_bucket"
  }

  datatype RuleLine = RuleLine(primary: string, secondary: string)

  /** A rule's description, or "No description" standing in for an empty one. */
  function DescriptionShown(d: string): (r: string)
    ensures d != "" ==> r == d
    ensures d == "" ==> r == "No description"
  {
    if d == "" then "No description" else d
  }

  /** One listed rule: `PROTOCOL: from - to` over `cidr (description)`, with
      "No description" standing in for an empty description. */
  function RuleText(r: IngressRule): (l: RuleLine)
    ensures |l.primary| >= |r.protocol| + 2
    ensures l.primary[..|r.protocol|] == Upper(r.protocol)
    ensures l.primary[|r.protocol|..|r.protocol| + 2] == ": "
    ensures l.primary[|r.protocol| + 2..] == NumberText(r.fromPort) + " - " + NumberText(r.toPort)
    ensures |l.secondary| >= |r.cidrBlock| + 3
    ensures l.secondary[..|r.cidrBlock|] == r.cidrBlock && l.secondary[|l.secondary| - 1] == ')'
    ensures l.secondary == r.cidrBlock + " (" + DescriptionShown(r.description) + ")"
  {
    var primary := Concat3(Upper(r.protocol), ": ", NumberText(r.fromPort) + " - " + NumberText(r.toPort));
    var secondary := Concat3(r.cidrBlock, " (", DescriptionShown(r.description) + ")");
    RuleLine(primary, secondary)
  }

  /** A port field that is blank or holds a non-negative number: its text is
      all digits. */
  predicate Unsigned(f: NumberField) {
    f.Blank? || f.n >= 0
  }

  /** On unsigned fields the text determines the field: blank is the only
      empty text, and decimal text reads back as its number. */
  lemma UnsignedTextInjective(f: NumberField, g: NumberField)
    requires Unsigned(f) && Unsigned(g)
    ensures AllDigits(NumberText(f))
    ensures NumberText(f) == NumberText(g) ==> f == g
  {
    if f.Number? && g.Number? && NumberText(f) == NumberText(g) {
      NatToStringInjective(f.n, g.n);
    }
  }

  /** " - " splits two digit strings uniquely. */
  lemma SplitAtSpacedDash(a: string, b: string, c: string, d: string)
    requires AllDigits(a) && AllDigits(c)
    requires a + " - " + b == c + " - " + d
    ensures a == c && b == d
  {
    assert a + [' '] + ("- " + b) == c + [' '] + ("- " + d) by {
      assert a + [' '] + ("- " + b) == a + " - " + b;
      assert c + [' '] + ("- " + d) == c + " - " + d;
    }
    SplitAtSeparator(a, "- " + b, c, "- " + d, ' ');
    assert b == ("- " + b)[2..] == ("- " + d)[2..] == d;
  }

  /** Read back: for two rules of one protocol whose ports are unsigned, equal
      rule lines mean equal port ranges, so the line shows the range itself. */
  lemma RuleTextDeterminesPorts(r: IngressRule, q: IngressRule)
    requires r.protocol == q.protocol
    requires Unsigned(r.fromPort) && Unsigned(r.toPort) && Unsigned(q.fromPort) && Unsigned(q.toPort)
    requires RuleText(r).primary == RuleText(q).primary
    ensures r.fromPort == q.fromPort && r.toPort == q.toPort
  {
    var n := |r.protocol| + 2;
    var a, b := NumberText(r.fromPort), NumberText(r.toPort);
    var c, d := NumberText(q.fromPort), NumberText(q.toPort);
    assert a + " - " + b == c + " - " + d by {
      assert RuleText(r).primary[n..] == RuleText(q).primary[n..];
    }
    UnsignedTextInjective(r.fromPort, q.fromPort);
    UnsignedTextInjective(q.fromPort, r.fromPort);
    UnsignedTextInjective(r.toPort, q.toPort);
    SplitAtSpacedDash(a, b, c, d);
  }

  /** The rule list, or the "No inbound rules defined" line when it is empty. */
  datatype RulesView = NoRulesDefined | Rules(lines: seq<RuleLine>)

  function RulesShown(rules: seq<IngressRule>): (v: RulesView)
    ensures v.NoRulesDefined? <==> rules == []
    ensures v.Rules? ==> |v.lines| == |rules| && forall i :: 0 <= i < |rules| ==> v.lines[i] == RuleText(rules[i])
  {
    if rules == [] then NoRulesDefined
    else Rules(seq(|rules|, i requires 0 <= i < |rules| => RuleText(rules[i])))
  }

  /** A rule that lets SSH in: TCP with a range around port 22, compared the way
      the page compares (a blank port reads as 0). */
  predicate CoversSsh(r: IngressRule) {
    r.protocol == "tcp" && NumberOf(r.fromPort) <= 22 && NumberOf(r.toPort) >= 22
  }

  /** `rules.some(CoversSsh)`, written as a scan. */
  function AnyCoversSsh(rules: seq<IngressRule>): (b: bool)
    ensures b <==> exists i :: 0 <= i < |rules| && CoversSsh(rules[i])
    decreases |rules|
  {
    if rules == [] then false
    else if CoversSsh(rules[0]) then true
    else
      var rest := AnyCoversSsh(rules[1..]);
      assert forall i :: 1 <= i < |rules| ==> rules[i] == rules[1..][i - 1];
      rest
  }

  /** The notes under the summary. */
  predicate WarnsNoSsh(v: WizardValues) {
    v.resourceType == "ec2_instance" && !AnyCoversSsh(v.securityGroup.ingressRules)
  }

  predicate WarnsPublicBucket(v: WizardValues) {
    v.resourceType == "s3_bucket" && !v.s3.publicAccess
  }

  predicate SuggestsMultiAz(v: WizardValues) {
    v.resourceType == "rds_instance" && v.environment == "prod" && !v.rds.multiAZ
  }

  /** The SSH note appears for an instance exactly when no listed rule is a TCP
      rule whose range takes in port 22. */
  lemma SshWarningIffNoCoveringRule(v: WizardValues)
    requires v.resourceType == "ec2_instance"
    ensures WarnsNoSsh(v) <==> forall i :: 0 <= i < |v.securityGroup.ingressRules| ==>
      !(v.securityGroup.ingressRules[i].protocol == "tcp"
        && NumberOf(v.securityGroup.ingressRules[i].fromPort) <= 22
        && NumberOf(v.securityGroup.ingressRules[i].toPort) >= 22)
  {
  }

  /** The wizard's starting SSH rule keeps the note away; deleting every rule brings it back. */
  lemma InitialRuleSilencesSshWarning(v: WizardValues)
    requires v.resourceType == "ec2_instance"
    ensures v.securityGroup.ingressRules == InitialValues.securityGroup.ingressRules ==> !WarnsNoSsh(v)
    ensures v.securityGroup.ingressRules == [] ==> WarnsNoSsh(v)
  {
    if v.securityGroup.ingressRules == InitialValues.securityGroup.ingressRules {
      assert CoversSsh(v.securityGroup.ingressRules[0]);
    }
  }

  /** A TCP rule whose "from" port was cleared still counts as covering port 22
      when its "to" port reaches 22, since the blank reads as 0. */
  lemma BlankFromPortCountsAsOpen(v: WizardValues, to: int)
    requires v.resourceType == "ec2_instance" && to >= 22
    requires v.securityGroup.ingressRules == [IngressRule("tcp", Blank, Number(to), "0.0.0.0/0", "")]
    ensures !WarnsNoSsh(v)
  {
    assert CoversSsh(v.securityGroup.ingressRules[0]);
  }

  /** The three notes concern different types, so at most one shows. */
  lemma AtMostOneNote(v: WizardValues)
    ensures !(WarnsNoSsh(v) && WarnsPublicBucket(v))
    ensures !(WarnsNoSsh(v) && SuggestsMultiAz(v))
    ensures !(WarnsPublicBucket(v) && SuggestsMultiAz(v))
  {
  }
}
