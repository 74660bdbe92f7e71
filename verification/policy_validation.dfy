/**
 * Two helpers of the IAM policy validation run: pulling the `PolicyDocument` object
 * out of a policy file by counting braces, and recognising an access-denied error.
 */
module PolicyValidation {
  import opened Values
  import opened JavaText

  /** The two RuntimeExceptions `extractPolicyDocument` throws. */
  datatype PolicyError =
    | MarkerMissing  // "策略文件中未找到 PolicyDocument"
    | FormatError    // "策略文件格式错误"

  const MARKER: string := "\"PolicyDocument\":"

  // ---------------------------------------------------------------------------
  // Brace depth
  // ---------------------------------------------------------------------------

  /** The number of '{' minus the number of '}' in a text; every other character counts 0. */
  function Depth(s: string): int {
    if s == [] then 0
    else
      var c := s[|s| - 1];
      Depth(s[..|s| - 1]) + (if c == '{' then 1 else if c == '}' then -1 else 0)
  }

  /** The depth is the difference of the two brace counts. */
  lemma {:induction false} DepthCounts(s: string)
    ensures Depth(s) == multiset(s)['{'] as int - multiset(s)['}'] as int
  {
    if s != [] {
      DepthCounts(s[..|s| - 1]);
      assert s == s[..|s| - 1] + [s[|s| - 1]];
    }
  }

  /**
   * Where the scan that starts just after the '{' at `braceStart` stops, from `pos`
   * with `depth` open braces: at the first point where the braces balance, or at the
   * end of the content when they never do.
   */
  function ScanEnd(content: string, braceStart: nat, pos: nat, depth: int): (end: nat)
    requires braceStart < pos <= |content|
    requires depth == Depth(content[braceStart..pos]) && depth >= 0
    requires forall q :: braceStart < q < pos ==> Depth(content[braceStart..q]) > 0
    ensures pos <= end <= |content|
    ensures forall q :: braceStart < q < end ==> Depth(content[braceStart..q]) > 0
    ensures end == |content| || Depth(content[braceStart..end]) == 0
    decreases |content| - pos
  {
    if pos < |content| && depth > 0 then
      var c := content[pos];
      assert content[braceStart..pos + 1][..pos - braceStart] == content[braceStart..pos];
      ScanEnd(content, braceStart, pos + 1, depth + (if c == '{' then 1 else if c == '}' then -1 else 0))
    else pos
  }

  /** The index of the first '{' after the marker, or None when the marker or the brace is missing. */
  function BraceStart(content: string): (r: Result<nat, PolicyError>)
    ensures IndexOfFrom(content, MARKER, 0) == -1 ==> r == Err(MarkerMissing)
    ensures var start := IndexOfFrom(content, MARKER, 0);
            start != -1 ==>
              start + |MARKER| <= |content|
              && (IndexOfFrom(content, "{", start + |MARKER|) == -1 ==> r == Err(FormatError))
              && (r.Ok? ==> r.value == IndexOfFrom(content, "{", start + |MARKER|))
    ensures r.Ok? ==> r.value < |content| && content[r.value] == '{'
  {
    var start := IndexOfFrom(content, MARKER, 0);
    if start == -1 then Err(MarkerMissing)
    else
      var braceStart := IndexOfFrom(content, "{", start + |MARKER|);
      if braceStart == -1 then Err(FormatError)
      else
        assert content[braceStart..braceStart + 1] == "{";
        Ok(braceStart)
  }

  /** What `extractPolicyDocument(content)` returns or throws. */
  function PolicyDocumentOf(content: string): (r: Result<string, PolicyError>)
    ensures BraceStart(content).Err? ==> r == Err(BraceStart(content).error)
    ensures r.Ok? ==> BraceStart(content).Ok? && r.value != [] && r.value[0] == '{'
  {
    match BraceStart(content)
    case Err(e) => Err(e)
    case Ok(b) =>
      assert content[b..b + 1] == "{";
      Ok(content[b..ScanEnd(content, b, b + 1, 1)])
  }

  /**
   * The result is the slice of the content that starts at the first '{' after the
   * marker. Either it balances (as many '{' as '}', and every proper prefix has more
   * '{' than '}'), or the braces never balance and it runs to the end of the content.
   * Braces inside string literals are counted like any other.
   */
  lemma PolicyDocumentShape(content: string)
    requires PolicyDocumentOf(content).Ok?
    ensures var b := BraceStart(content).value;
            var doc := PolicyDocumentOf(content).value;
            && b + |doc| <= |content| && doc == content[b..b + |doc|]
            && (forall k :: 0 < k < |doc| ==> Depth(doc[..k]) > 0)
            && (multiset(doc)['{'] == multiset(doc)['}'] || b + |doc| == |content|)
  {
    var b := BraceStart(content).value;
    assert content[b..b + 1] == "{";
    var end := ScanEnd(content, b, b + 1, 1);
    var doc := content[b..end];
    forall k | 0 < k < |doc| ensures Depth(doc[..k]) > 0 {
      assert doc[..k] == content[b..b + k];
    }
    DepthCounts(doc);
  }

  /** The first '{' after the marker is the start: "\"PolicyDocument\": {}" gives "{}". */
  lemma EmptyPolicyDocument()
    ensures PolicyDocumentOf(MARKER + " {}") == Ok("{}")
  {
    var content := MARKER + " {}";
    var b := |MARKER| + 1;
    assert OccursAt(content, MARKER, 0);
    assert IndexOfFrom(content, MARKER, 0) == 0;
    assert content[|MARKER|] == ' ' && content[b] == '{' && content[b + 1] == '}';
    assert content[|MARKER|..|MARKER| + 1] == " ";
    assert OccursAt(content, "{", b);
    assert IndexOfFrom(content, "{", b) == b;
    assert IndexOfFrom(content, "{", |MARKER|) == b;
    assert content[b..b + 1] == "{" && content[b..b + 2] == "{}";
    assert Depth("{}"[..1]) == 1;
    assert Depth(content[b..b + 2]) == 0;
    assert ScanEnd(content, b, b + 2, 0) == b + 2;
    assert content[b..b + 2] == "{}";
  }

  /**
   * The loop of `extractPolicyDocument`: depth starts at 1 just after the opening
   * brace, and the scan stops at the end of the content or when the depth reaches 0.
   */
  method MatchBraces(content: string, braceStart: nat) returns (pos: nat)
    requires braceStart < |content| && content[braceStart] == '{'
    ensures braceStart < pos <= |content|
    ensures pos == ScanEnd(content, braceStart, braceStart + 1, 1)
  {
    assert content[braceStart..braceStart + 1] == "{";
    ghost var end := ScanEnd(content, braceStart, braceStart + 1, 1);
    var depth := 1;
    pos := braceStart + 1;
    while pos < |content| && depth > 0
      invariant braceStart < pos <= |content|
      invariant depth == Depth(content[braceStart..pos]) && depth >= 0
      invariant forall q :: braceStart < q < pos ==> Depth(content[braceStart..q]) > 0
      invariant ScanEnd(content, braceStart, pos, depth) == end
      decreases |content| - pos
    {
      var c := content[pos];
      assert content[braceStart..pos + 1][..pos - braceStart] == content[braceStart..pos];
      if c == '{' {
        depth := depth + 1;
      } else if c == '}' {
        depth := depth - 1;
      }
      pos := pos + 1;
    }
  }

  /** `extractPolicyDocument(content)`: find the marker and the brace after it, then match braces. */
  method ExtractPolicyDocument(content: string) returns (r: Result<string, PolicyError>)
    ensures r == PolicyDocumentOf(content)
  {
    var braceStart := BraceStart(content);
    if braceStart.Err? {
      return Err(braceStart.error);
    }
    var pos := MatchBraces(content, braceStart.value);
    return Ok(content[braceStart.value..pos]);
  }

  // ---------------------------------------------------------------------------
  // Access denied
  // ---------------------------------------------------------------------------

  /** `isAccessDenied(e)` on the error code and message of an EC2 error. */
  predicate IsAccessDenied(code: string, message: string) {
    Contains(code, "UnauthorizedOperation") || Contains(code, "AccessDenied") || Contains(message, "not authorized")
  }

  /**
   * The error is an access denial exactly when the code holds one of the two names
   * somewhere, or the message holds "not authorized" somewhere.
   */
  lemma IsAccessDeniedOccurs(code: string, message: string)
    ensures IsAccessDenied(code, message) <==>
            (exists i :: OccursAt(code, "UnauthorizedOperation", i))
            || (exists i :: OccursAt(code, "AccessDenied", i))
            || (exists i :: OccursAt(message, "not authorized", i))
  {
    ContainsMeansOccurs(code, "UnauthorizedOperation");
    ContainsMeansOccurs(code, "AccessDenied");
    ContainsMeansOccurs(message, "not authorized");
  }

  /** A prefixed code such as "Client.UnauthorizedOperation" is recognised. */
  lemma PrefixedCodeIsDenied(prefix: string, message: string)
    ensures IsAccessDenied(prefix + "UnauthorizedOperation", message)
  {
    var code := prefix + "UnauthorizedOperation";
    assert OccursAt(code, "UnauthorizedOperation", |prefix|);
    ContainsMeansOccurs(code, "UnauthorizedOperation");
  }
}
