/** The wizard's security-group step: the preset menu and its "add" button,
    the automatic group name, custom rules and rule deletion. */
module SecurityGroupForm {
  import opened Json
  import opened Strings
  import opened Seqs
  import opened Wizard

  const Protocols: seq<string> := ["tcp", "udp", "icmp"]

  datatype Preset = Preset(
    name: string, protocol: string, fromPort: int, toPort: int, cidrBlock: string, description: string)

  const PortPresets: seq<Preset> := [
    Preset("SSH", "tcp", 22, 22, "0.0.0.0/0", "SSH access"),
    Preset("HTTP", "tcp", 80, 80, "0.0.0.0/0", "HTTP access"),
    Preset("HTTPS", "tcp", 443, 443, "0.0.0.0/0", "HTTPS access"),
    Preset("MySQL", "tcp", 3306, 3306, "10.0.0.0/16", "MySQL access"),
    Preset("PostgreSQL", "tcp", 5432, 5432, "10.0.0.0/16", "PostgreSQL access"),
    Preset("RDP", "tcp", 3389, 3389, "0.0.0.0/0", "RDP access")]

  /** `portPresets.find(p => p.name === name)`. */
  function FindPreset(presets: seq<Preset>, name: string): (r: Option<Preset>)
    ensures r.Some? ==> r.value in presets && r.value.name == name
    ensures r.None? <==> forall i :: 0 <= i < |presets| ==> presets[i].name != name
    decreases |presets|
  {
    if presets == [] then None
    else if presets[0].name == name then Some(presets[0])
    else
      var r := FindPreset(presets[1..], name);
      assert forall i :: 1 <= i < |presets| ==> presets[i] == presets[1..][i - 1];
      r
  }

  predicate NamesDistinct(presets: seq<Preset>) {
    forall i, j :: 0 <= i < j < |presets| ==> presets[i].name != presets[j].name
  }

  /** With distinct names, looking up an entry's name finds that entry. */
  lemma {:induction false} FindByOwnName(presets: seq<Preset>, k: nat)
    requires NamesDistinct(presets) && k < |presets|
    ensures FindPreset(presets, presets[k].name) == Some(presets[k])
    decreases k
  {
    if k > 0 {
      assert presets[0].name != presets[k].name;
      assert presets[1..][k - 1] == presets[k];
      FindByOwnName(presets[1..], k - 1);
    }
  }

  lemma PortPresetNamesDistinct()
    ensures NamesDistinct(PortPresets)
  {
  }

  /** The rule a preset adds: the preset without its menu name. */
  function RuleOf(p: Preset): (r: IngressRule)
    ensures r.protocol == p.protocol && r.fromPort == Number(p.fromPort) && r.toPort == Number(p.toPort)
    ensures r.cidrBlock == p.cidrBlock && r.description == p.description
  {
    IngressRule(p.protocol, Number(p.fromPort), Number(p.toPort), p.cidrBlock, p.description)
  }

  /** The rule list and the menu selection. */
  datatype Editor = Editor(rules: seq<IngressRule>, selected: string)

  /** The "add" button: nothing happens without a selection or when the
      selection names no preset; otherwise the preset's rule is appended and
      the selection is cleared. */
  function AddPreset(e: Editor): (r: Editor)
    ensures e.selected == "" ==> r == e
    ensures FindPreset(PortPresets, e.selected).None? ==> r == e
    ensures e.selected != "" && FindPreset(PortPresets, e.selected).Some? ==>
      && r.selected == ""
      && |r.rules| == |e.rules| + 1
      && r.rules[..|e.rules|] == e.rules
      && r.rules[|e.rules|] == RuleOf(FindPreset(PortPresets, e.selected).value)
  {
    if e.selected == "" then e
    else match FindPreset(PortPresets, e.selected)
      case None => e
      case Some(p) => Editor(e.rules + [RuleOf(p)], "")
  }

  /** A preset the menu offers adds exactly its own rule. */
  lemma OfferedPresetAddsItsRule(e: Editor, k: nat)
    requires k < |PortPresets| && e.selected == PortPresets[k].name
    ensures AddPreset(e) == Editor(e.rules + [RuleOf(PortPresets[k])], "")
  {
    PortPresetNamesDistinct();
    FindByOwnName(PortPresets, k);
  }

  /** Pressing "add" twice adds once: the first press clears the selection. */
  lemma AddPresetTwiceAddsOnce(e: Editor)
    ensures AddPreset(AddPreset(e)) == AddPreset(e)
  {
  }

  /** The "add custom rule" button: a blank TCP rule open to everywhere. */
  function AddCustomRule(rules: seq<IngressRule>): (r: seq<IngressRule>)
    ensures |r| == |rules| + 1 && r[..|rules|] == rules
    ensures r[|rules|].protocol == "tcp" && r[|rules|].fromPort.Blank? && r[|rules|].toPort.Blank?
    ensures r[|rules|].cidrBlock == "0.0.0.0/0" && r[|rules|].description == ""
  {
    rules + [IngressRule("tcp", Blank, Blank, "0.0.0.0/0", "")]
  }

  /** A rule's delete button. */
  function RemoveRule(rules: seq<IngressRule>, k: nat): (r: seq<IngressRule>)
    requires k < |rules|
    ensures |r| == |rules| - 1
    ensures r == rules[..k] + rules[k + 1..]
  {
    var r := RemoveAt(rules, k);
    assert r == rules[..k] + rules[k + 1..];
    r
  }

  /** Adding a custom rule and deleting it again restores the list. */
  lemma RemoveUndoesAddCustom(rules: seq<IngressRule>)
    ensures RemoveRule(AddCustomRule(rules), |rules|) == rules
  {
  }

  /** The naming effect: an empty group name becomes `{name}-sg`. */
  function AutoName(g: SecurityGroupValues, name: string): (r: SecurityGroupValues)
    ensures g.name != "" ==> r == g
    ensures g.name == "" ==> r == g.(name := name + "-sg")
    ensures r.name != ""
    ensures r.description == g.description && r.ingressRules == g.ingressRules
  {
    if g.name == "" then g.(name := name + "-sg") else g
  }

  /** The effect settles after one run, and a name set by the user survives any
      later change of the resource name. */
  lemma AutoNameSettles(g: SecurityGroupValues, name: string, later: string)
    ensures AutoName(AutoName(g, name), later) == AutoName(g, name)
  {
  }

  /** The port part of a menu label: one number, or `from-to`. */
  function PortText(from: int, to: int): (s: string)
    ensures from == to ==> ParseInt(s) == Some(from)
  {
    if from == to then IntToStringRoundTrip(from); IntToString(from)
    else IntToString(from) + "-" + IntToString(to)
  }

  /** For non-negative ports the text determines the range. */
  lemma PortTextDeterminesRange(a: nat, b: nat, c: nat, d: nat)
    requires PortText(a, b) == PortText(c, d)
    ensures a == c && b == d
  {
    if a == b && c == d {
      NatToStringInjective(a, c);
    } else if a != b && c != d {
      assert NatToString(a) + ['-'] + NatToString(b) == NatToString(c) + ['-'] + NatToString(d);
      SplitAtSeparator(NatToString(a), NatToString(b), NatToString(c), NatToString(d), '-');
      NatToStringInjective(a, c);
      NatToStringInjective(b, d);
    } else if a == b {
      assert AllDigits(PortText(a, b));
      var s := PortText(c, d);
      assert s[|NatToString(c)|] == '-';
    } else {
      assert AllDigits(PortText(c, d));
      var s := PortText(a, b);
      assert s[|NatToString(a)|] == '-';
    }
  }

  /** The menu entry of a preset: `Name (PROTO: ports)`. */
  function PresetLabel(p: Preset): (s: string)
    ensures |s| > |p.name| + 2 && s[..|p.name| + 2] == p.name + " (" && s[|s| - 1] == ')'
  {
    var s := p.name + " (" + Upper(p.protocol) + ": " + PortText(p.fromPort, p.toPort) + ")";
    assert s[..|p.name| + 2] == p.name + " (";
    s
  }

  /** A single-port TCP preset is labelled with that one port. */
  lemma SinglePortTcpLabel(p: Preset)
    requires p.protocol == "tcp" && p.fromPort == p.toPort
    ensures PresetLabel(p) == p.name + " (TCP: " + IntToString(p.fromPort) + ")"
  {
    var u := Upper(p.protocol);
    assert u[0] == 'T' && u[1] == 'C' && u[2] == 'P';
    assert u == "TCP";
  }

  /** Every offered preset is a single-port TCP rule, labelled with that port. */
  lemma PresetLabelsShowOnePort(k: nat)
    requires k < |PortPresets|
    ensures PresetLabel(PortPresets[k]) ==
      PortPresets[k].name + " (TCP: " + IntToString(PortPresets[k].fromPort) + ")"
  {
    var p := PortPresets[k];
    assert p.protocol == "tcp" && p.fromPort == p.toPort;
    SinglePortTcpLabel(p);
  }
}
