/** What both handlers, todos/route.ts and auth/route.ts, pull out of a request
    before branching: the path segments after `api`, the bearer token and the
    claims its verification yields. */
module Requests {
  import opened Values
  import opened Seqs
  import opened Strings

  /** `path.split('/').filter(segment => segment !== '')`. */
  function Segments(path: string): (r: seq<string>)
    ensures forall k :: 0 <= k < |r| ==> r[k] != "" && r[k] in Split(path, '/')
  {
    Filter(Split(path, '/'), (piece: string) => piece != "")
  }

  /** `segments.slice(segments.indexOf('api') + 1)`: everything after the first
      `api` segment, or every segment when there is none (indexOf gives -1). */
  function RemainingSegments(path: string): (r: seq<string>)
    ensures "api" !in Segments(path) ==> r == Segments(path)
  {
    var segs := Segments(path);
    var i := FindIndex(segs, (piece: string) => piece == "api");
    segs[i + 1..]
  }

  /** The segments are the non-empty `/`-pieces of the path. */
  lemma SegmentsNonEmpty(path: string)
    ensures forall k :: 0 <= k < |Segments(path)| ==> Segments(path)[k] != "" && '/' !in Segments(path)[k]
  {
    var pieces := Split(path, '/');
    forall k | 0 <= k < |Segments(path)|
      ensures Segments(path)[k] != "" && '/' !in Segments(path)[k]
    {
      var x := Segments(path)[k];
      assert x in pieces;
      var j :| 0 <= j < |pieces| && pieces[j] == x;
    }
  }

  /** The remaining segments are what follows the first `api` segment. */
  lemma {:induction false} RemainingAfterApi(path: string, before: seq<string>, after: seq<string>)
    requires Segments(path) == before + ["api"] + after
    requires "api" !in before
    ensures RemainingSegments(path) == after
  {
    var segs := Segments(path);
    var p := (piece: string) => piece == "api";
    assert segs[|before|] == "api";
    forall j | 0 <= j < |segs| && j < |before|
      ensures !p(segs[j])
    {
      assert segs[j] == before[j];
    }
    FindIndexUnique(segs, p, |before|);
    assert segs[|before| + 1..] == after;
  }

  /** No remaining segment is empty, so `remainingSegments[k]` is truthy exactly when it exists. */
  lemma RemainingNonEmpty(path: string)
    ensures forall k :: 0 <= k < |RemainingSegments(path)| ==> RemainingSegments(path)[k] != ""
  {
    SegmentsNonEmpty(path);
    var segs := Segments(path);
    var i := FindIndex(segs, (piece: string) => piece == "api");
    var rest := segs[i + 1..];
    forall k | 0 <= k < |rest|
      ensures rest[k] != ""
    {
      assert rest[k] == segs[i + 1 + k];
    }
  }

  /** `remainingSegments[k] === lit`. */
  predicate SegIs(segs: seq<string>, k: nat, lit: string): (b: bool)
    ensures b ==> k < |segs|
    ensures b && lit != "" ==> Given(segs, k)
  {
    k < |segs| && segs[k] == lit
  }

  /** `remainingSegments[k]` used as a condition: present and not the empty string. */
  predicate Given(segs: seq<string>, k: nat): (b: bool)
    ensures b ==> k < |segs|
    ensures (forall j :: 0 <= j < |segs| ==> segs[j] != "") ==> (b <==> k < |segs|)
  {
    k < |segs| && segs[k] != ""
  }

  /** `authHeader?.split(' ')[1]`, kept only when truthy: a missing header, a
      header without a space and an empty second piece all give `None`. The
      first piece (the scheme) is not inspected. */
  function BearerToken(header: Option<string>): (r: Option<string>)
    ensures r.Some? ==> r.value != "" && ' ' !in r.value
  {
    match header
    case None => None
    case Some(h) =>
      var pieces := Split(h, ' ');
      if |pieces| >= 2 && pieces[1] != "" then Some(pieces[1]) else None
  }

  /** The token is read back from `<scheme> <token>`, whatever follows after a further space. */
  lemma BearerTokenOf(scheme: string, token: string, rest: string)
    requires ' ' !in scheme && ' ' !in token && token != ""
    requires rest == [] || rest[0] == ' '
    ensures BearerToken(Some(scheme + " " + token + rest)) == Some(token)
  {
    var h := scheme + " " + token + rest;
    assert h == scheme + (" " + (token + rest));
    SplitPrefix(scheme, " " + (token + rest), ' ');
    assert (" " + (token + rest))[1..] == token + rest;
    SplitPrefix(token, rest, ' ');
    if rest == [] {
      assert Split(rest, ' ')[0] == "";
    } else {
      assert rest == [rest[0]] + rest[1..];
      assert Split(rest, ' ')[0] == "";
    }
    assert token + "" == token;
  }

  /** A header with no space in it carries no token. */
  lemma BearerTokenNeedsSpace(h: string)
    requires ' ' !in h
    ensures BearerToken(Some(h)) == None
  {
    SplitNoSeparator(h, ' ');
  }

  /** The payload `jwt.sign` is given (signup, login) and `jwt.verify` hands back. */
  datatype Claims = Claims(sub: Value, userId: Value)

  /** The three outcomes of the token check that opens every protected branch. */
  datatype Credential = Missing | Invalid | Verified(claims: Claims)

  /** Lines 84-94 of auth/route.ts and 24-34 of todos/route.ts: no truthy token,
      a token `verify` rejects, or the claims it accepts. `verify` stands for
      `jwt.verify` under the server's secret. */
  function Authenticate(header: Option<string>, verify: string -> Option<Claims>): (c: Credential)
    ensures c.Missing? <==> BearerToken(header).None?
    ensures c.Invalid? <==> BearerToken(header).Some? && verify(BearerToken(header).value).None?
    ensures c.Verified? ==> verify(BearerToken(header).value) == Some(c.claims)
  {
    match BearerToken(header)
    case None => Missing
    case Some(t) =>
      match verify(t)
      case None => Invalid
      case Some(claims) => Verified(claims)
  }
}
