/** The dashboard (`Dashboard`): the deployment list with its type filter, the
    per-type counts, status chips, display names, and the fetch that fills it. */
module Dashboard {
  import opened Json
  import opened Strings

  datatype Deployment = Deployment(
    id: string, name: string, resourceType: string, status: string, parameters: Object)

  /** The deployments of one type, in list order. */
  function OfType(ds: seq<Deployment>, t: string): (r: seq<Deployment>)
    ensures |r| <= |ds|
    ensures forall d :: d in r <==> d in ds && d.resourceType == t
    decreases |ds|
  {
    if ds == [] then []
    else if ds[0].resourceType == t then [ds[0]] + OfType(ds[1..], t)
    else OfType(ds[1..], t)
  }

  /** Filtering a joined list filters each part and keeps them in order. */
  lemma {:induction false} OfTypeAppend(a: seq<Deployment>, b: seq<Deployment>, t: string)
    ensures OfType(a + b, t) == OfType(a, t) + OfType(b, t)
    decreases |a|
  {
    if a == [] {
      assert a + b == b;
    } else {
      assert (a + b)[0] == a[0];
      assert (a + b)[1..] == a[1..] + b;
      OfTypeAppend(a[1..], b, t);
    }
  }

  /** A list of one type passes the filter for that type unchanged. */
  lemma {:induction false} OfTypeKeepsMatching(ds: seq<Deployment>, t: string)
    requires forall i :: 0 <= i < |ds| ==> ds[i].resourceType == t
    ensures OfType(ds, t) == ds
    decreases |ds|
  {
    if ds != [] {
      OfTypeKeepsMatching(ds[1..], t);
    }
  }

  /** The list shown for the selected filter: everything for "all". */
  function Filtered(ds: seq<Deployment>, filter: string): (r: seq<Deployment>)
    ensures filter == "all" ==> r == ds
    ensures filter != "all" ==> r == OfType(ds, filter)
  {
    if filter == "all" then ds else OfType(ds, filter)
  }

  /** Entries of two different types are counted apart, so two counts never
      exceed the list. */
  lemma {:induction false} TwoCountsBounded(ds: seq<Deployment>, a: string, b: string)
    requires a != b
    ensures |OfType(ds, a)| + |OfType(ds, b)| <= |ds|
    decreases |ds|
  {
    if ds != [] {
      TwoCountsBounded(ds[1..], a, b);
    }
  }

  /** The EC2 and S3 tiles never add up to more than the list. */
  lemma TileCountsBounded(ds: seq<Deployment>)
    ensures |OfType(ds, "ec2_instance")| + |OfType(ds, "s3_bucket")| <= |ds|
  {
    TwoCountsBounded(ds, "ec2_instance", "s3_bucket");
  }

  const StatusColours: map<string, string> :=
    map["completed" := "success", "failed" := "error", "pending" := "warning", "in_progress" := "info"]

  /** `statusColors[status] || 'default'`. */
  function StatusColour(status: string): (c: string)
    ensures status in StatusColours ==> c == StatusColours[status]
    ensures status !in StatusColours ==> c == "default"
    ensures c in {"success", "error", "warning", "info", "default"}
  {
    if status in StatusColours then StatusColours[status] else "default"
  }

  /** Concatenates rendered children; one child that throws makes the whole render throw. */
  function ConcatChildren(parts: seq<Option<string>>): (r: Option<string>)
    ensures r.None? <==> exists i :: 0 <= i < |parts| && parts[i].None?
    decreases |parts|
  {
    if parts == [] then Some("")
    else match (parts[0], ConcatChildren(parts[1..]))
      case (Some(a), Some(b)) => Some(a + b)
      case _ => None
  }

  /** What React renders for a value placed as a child: strings as they are,
      numbers in decimal, `null` and booleans as nothing, an array as its
      rendered items side by side without separators; a plain object makes
      the render throw (`None`). */
  function ChildText(v: Value): (r: Option<string>)
    ensures v.Str? ==> r == Some(v.s)
    ensures v.Num? ==> r.Some? && ParseInt(r.value) == Some(v.n)
    ensures v.Null? || v.Bool? ==> r == Some("")
    ensures v.Obj? ==> r.None?
    decreases v
  {
    match v
    case Null => Some("")
    case Bool(_) => Some("")
    case Num(n) => IntToStringRoundTrip(n); Some(IntToString(n))
    case Str(s) => Some(s)
    case Arr(items) => ConcatChildren(seq(|items|, i requires 0 <= i < |items| => ChildText(items[i])))
    case Obj(_) => None
  }

  /** `{name || parameters?.name || id}` as rendered: the name, else a truthy
      parameters name as React renders it, else the id. `None` is a render that throws. */
  function DisplayName(d: Deployment): (n: Option<string>)
    ensures d.name != "" ==> n == Some(d.name)
    ensures d.name == "" && FieldTruthy(d.parameters, "name") ==> n == ChildText(d.parameters["name"])
    ensures d.name == "" && !FieldTruthy(d.parameters, "name") ==> n == Some(d.id)
  {
    if d.name != "" then Some(d.name)
    else if FieldTruthy(d.parameters, "name") then ChildText(d.parameters["name"])
    else Some(d.id)
  }

  /** A deployment with an id shows a non-blank name unless its parameters
      carry a `true` or an array as the name, and the render throws only for an
      object or an array name. */
  lemma DisplayNameNonEmpty(d: Deployment)
    requires d.id != ""
    ensures DisplayName(d) == Some("") ==>
      d.name == "" && "name" in d.parameters && (d.parameters["name"].Bool? || d.parameters["name"].Arr?)
    ensures DisplayName(d).None? ==>
      d.name == "" && "name" in d.parameters && (d.parameters["name"].Obj? || d.parameters["name"].Arr?)
  {
    if d.name == "" && FieldTruthy(d.parameters, "name") {
      var v := d.parameters["name"];
      if v.Num? {
        assert ParseInt(ChildText(v).value) == Some(v.n);
      }
    }
  }

  /** A plain string or number name always shows, and `true` shows a blank. */
  lemma ScalarNamesShow(d: Deployment)
    requires d.name == "" && "name" in d.parameters
    ensures d.parameters["name"].Str? && d.parameters["name"].s != "" ==> DisplayName(d) == Some(d.parameters["name"].s)
    ensures d.parameters["name"] == Bool(true) ==> DisplayName(d) == Some("")
  {
  }

  datatype Page = Page(deployments: seq<Deployment>, loading: bool, error: Option<string>, filter: string)

  const InitialPage: Page := Page([], true, None, "all")

  datatype FetchResult = Loaded(deployments: seq<Deployment>) | FetchFailed(detail: Option<string>)

  /** One fetch, from the click to the `finally`: a success replaces the list,
      a failure keeps it and records the server's detail or a fixed message. */
  function Fetch(p: Page, r: FetchResult): (q: Page)
    ensures !q.loading && q.filter == p.filter
    ensures r.Loaded? ==> q.deployments == r.deployments && q.error.None?
    ensures r.FetchFailed? ==> q.deployments == p.deployments && q.error.Some?
    ensures r.FetchFailed? && r.detail.Some? && r.detail.value != "" ==> q.error == Some(r.detail.value)
    ensures r.FetchFailed? && (r.detail.None? || r.detail.value == "") ==> q.error == Some("Failed to load deployments")
  {
    var started := p.(loading := true, error := None);
    var done := match r
      case Loaded(ds) => started.(deployments := ds)
      case FetchFailed(detail) =>
        started.(error := Some(if detail.Some? && detail.value != "" then detail.value else "Failed to load deployments"));
    done.(loading := false)
  }

  /** A successful refresh clears an earlier error. */
  lemma RefreshClearsError(p: Page, detail: Option<string>, ds: seq<Deployment>)
    ensures Fetch(Fetch(p, FetchFailed(detail)), Loaded(ds)).error.None?
    ensures Fetch(Fetch(p, FetchFailed(detail)), Loaded(ds)).deployments == ds
  {
  }
}
