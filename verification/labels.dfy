/** Display labels used by the stack forms and the stack review: each is a
    lookup table consulted as `table[key] || key`, so a key the table does not
    know is shown as it is. */
module Labels {

  /** `table[key] || key`: an absent key and an empty label both fall back to the key. */
  function LabelOr(table: map<string, string>, key: string): (r: string)
    ensures key in table && table[key] != "" ==> r == table[key]
    ensures key !in table ==> r == key
    ensures r == key || (key in table && r == table[key])
  {
    if key in table && table[key] != "" then table[key] else key
  }

  /** A table whose labels are non-empty and pairwise distinct, so the label
      alone tells the user which key was chosen. */
  predicate Faithful(table: map<string, string>) {
    && (forall k :: k in table ==> table[k] != "")
    && (forall a, b :: a in table && b in table && a != b ==> table[a] != table[b])
  }

  const ResourceTypeLabels: map<string, string> := map[
    "ec2_instance" := "EC2 Instance",
    "s3_bucket" := "S3 Bucket",
    "rds_instance" := "RDS Database",
    "security_group" := "Security Group",
    "elastic_ip" := "Elastic IP",
    "load_balancer" := "Load Balancer",
    "ecs_service" := "ECS Service"]

  const RegionLabels: map<string, string> := map[
    "eu-west-2" := "EU West (London)",
    "us-east-1" := "US East (N. Virginia)",
    "us-west-2" := "US West (Oregon)",
    "eu-west-1" := "EU (Ireland)"]

  const EnvironmentLabels: map<string, string> := map[
    "dev" := "Development",
    "test" := "Testing",
    "staging" := "Staging",
    "prod" := "Production"]

  const SizeLabels: map<string, string> := map[
    "small" := "Small (t2.micro / 1vCPU, 1GB RAM)",
    "medium" := "Medium (t2.small / 1vCPU, 2GB RAM)",
    "large" := "Large (t2.medium / 2vCPU, 4GB RAM)"]

  const SubnetLabels: map<string, string> := map[
    "subnet-07759e500cfdfb6b2" := "eu-west-2a (Public)",
    "subnet-0d95a35be6e1fb603" := "eu-west-2b (Public)",
    "subnet-00e88d7e1a6b7c689" := "eu-west-2c (Private)"]

  /** Every table has non-empty, pairwise distinct labels. */
  lemma ResourceTypeLabelsFaithful() ensures Faithful(ResourceTypeLabels) {}
  lemma RegionLabelsFaithful() ensures Faithful(RegionLabels) {}
  lemma EnvironmentLabelsFaithful() ensures Faithful(EnvironmentLabels) {}
  lemma SizeLabelsFaithful() ensures Faithful(SizeLabels) {}
  lemma SubnetLabelsFaithful() ensures Faithful(SubnetLabels) {}

  /** On a faithful table the lookup is the table's label for a known key and the
      key for an unknown one. */
  lemma FaithfulLookup(table: map<string, string>, key: string)
    requires Faithful(table)
    ensures LabelOr(table, key) == (if key in table then table[key] else key)
  {
  }

  /** Two known keys of a faithful table never display alike. */
  lemma FaithfulLabelsSeparateKeys(table: map<string, string>, a: string, b: string)
    requires Faithful(table) && a in table && b in table
    ensures LabelOr(table, a) == LabelOr(table, b) <==> a == b
  {
  }

  function TypeLabel(t: string): (r: string)
    ensures t in ResourceTypeLabels ==> r == ResourceTypeLabels[t]
    ensures t !in ResourceTypeLabels ==> r == t
  {
    LabelOr(ResourceTypeLabels, t)
  }

  function RegionLabel(region: string): (r: string)
    ensures region in RegionLabels ==> r == RegionLabels[region]
    ensures region !in RegionLabels ==> r == region
  {
    LabelOr(RegionLabels, region)
  }

  function EnvironmentLabel(env: string): (r: string)
    ensures env in EnvironmentLabels ==> r == EnvironmentLabels[env]
    ensures env !in EnvironmentLabels ==> r == env
  {
    LabelOr(EnvironmentLabels, env)
  }

  function SizeLabel(size: string): (r: string)
    ensures size in SizeLabels ==> r == SizeLabels[size]
    ensures size !in SizeLabels ==> r == size
  {
    LabelOr(SizeLabels, size)
  }

  function SubnetLabel(subnet: string): (r: string)
    ensures subnet in SubnetLabels ==> r == SubnetLabels[subnet]
    ensures subnet !in SubnetLabels ==> r == subnet
  {
    LabelOr(SubnetLabels, subnet)
  }
}
