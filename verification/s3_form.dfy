/** The wizard's S3 step: the bucket-name suggestion derived from the
    resource name and the environment. */
module S3Form {
  import opened Strings
  import opened Wizard

  /** One character of the sanitised name: lower-cased, then anything outside
      `[a-z0-9]` becomes '-'. */
  function SanitiseChar(c: char): (r: char)
    ensures IsLowerAlnum(r) || r == '-'
    ensures IsLowerAlnum(c) ==> r == c
    ensures 'A' <= c <= 'Z' ==> r == LowerChar(c) && 'a' <= r <= 'z'
    ensures !IsLowerAlnum(c) && !('A' <= c <= 'Z') ==> r == '-'
  {
    var l := LowerChar(c);
    if IsLowerAlnum(l) then l else '-'
  }

  /** `name.toLowerCase().replace(/[^a-z0-9]/g, '-')`. */
  function Sanitise(s: string): (r: string)
    ensures |r| == |s|
    ensures forall i :: 0 <= i < |s| ==> r[i] == SanitiseChar(s[i])
  {
    if s == [] then [] else [SanitiseChar(s[0])] + Sanitise(s[1..])
  }

  /** Every character of a sanitised name is a lower-case letter, a digit or '-'. */
  lemma SanitisedAlphabet(s: string)
    ensures forall i :: 0 <= i < |Sanitise(s)| ==> IsLowerAlnum(Sanitise(s)[i]) || Sanitise(s)[i] == '-'
  {
  }

  /** Sanitising twice is sanitising once. */
  lemma SanitiseIdempotent(s: string)
    ensures Sanitise(Sanitise(s)) == Sanitise(s)
  {
  }

  function Suggestion(name: string, environment: string): (r: string)
    ensures |r| == |name| + |environment| + 8
    ensures r[..|name|] == Sanitise(name)
    ensures r[|name|..] == "-" + environment + "-bucket"
  {
    var r := Sanitise(name) + "-" + environment + "-bucket";
    assert r[..|name|] == Sanitise(name);
    assert r[|name|..] == "-" + environment + "-bucket";
    r
  }

  /** The effect: with a name and no bucket name, the suggestion is filled in. */
  function SuggestBucketName(v: WizardValues): (r: WizardValues)
    ensures v.name != "" && v.s3.bucketName == "" ==> r == v.(s3 := v.s3.(bucketName := Suggestion(v.name, v.environment)))
    ensures !(v.name != "" && v.s3.bucketName == "") ==> r == v
  {
    if v.name != "" && v.s3.bucketName == "" then v.(s3 := v.s3.(bucketName := Suggestion(v.name, v.environment))) else v
  }

  /** A second run changes nothing, and once a bucket name exists later
      changes of name or environment leave it alone. */
  lemma SuggestionSettles(v: WizardValues, name: string, environment: string)
    ensures SuggestBucketName(SuggestBucketName(v)) == SuggestBucketName(v)
    ensures var w := SuggestBucketName(v);
      w.s3.bucketName != "" ==>
        SuggestBucketName(w.(name := name, environment := environment)).s3 == w.s3
  {
  }
}
