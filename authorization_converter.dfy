/**
 * The resource service's conversion of a verified JWT's claims into the
 * authorities that Spring Security grants to the request.
 *
 * The converter reads two claims as string lists, "scope" and "roles", and
 * appends every scope string and then every role string, verbatim and in claim
 * order, to a fresh ArrayList. Each element of the list is a
 * SimpleGrantedAuthority whose authority string is the claim string; the model
 * represents it by that string. Building a SimpleGrantedAuthority from a string
 * that has no text (empty, or whitespace only) throws, so such a claim string
 * fails the conversion. Neither claim is null-checked: a claim that is absent
 * makes the enhanced for loop over it throw, so the conversion fails too.
 */
module AuthorizationConverter {
  import opened Wrappers

  /**
   * Why a conversion fails: the named claim was absent (null) and iterating it
   * threw, or one of its strings had no text and wrapping it threw.
   */
  datatype ConversionError = NullClaim(claim: string) | BlankAuthority(claim: string)

  const ScopeClaim: string := "scope"
  const RolesClaim: string := "roles"

  /** Java's Character.isWhitespace on a character of the Basic Multilingual Plane. */
  predicate IsWhitespace(c: char) {
    // the ASCII controls Java counts as whitespace
    ('\t' <= c <= '\r') || ('\U{1C}' <= c <= '\U{1F}') ||
    // the Unicode space, line and paragraph separators, except the non-breaking ones
    c == ' ' || c == '\U{1680}' || ('\U{2000}' <= c <= '\U{200A}' && c != '\U{2007}') ||
    c == '\U{2028}' || c == '\U{2029}' || c == '\U{205F}' || c == '\U{3000}'
  }

  /** A string has text when some character of it is not whitespace; only such a string makes an authority. */
  predicate HasText(a: string) {
    exists i :: 0 <= i < |a| && !IsWhitespace(a[i])
  }

  /** Every string of a claim list can be wrapped as an authority. */
  predicate AllHaveText(s: seq<string>) {
    forall i :: 0 <= i < |s| ==> HasText(s[i])
  }

  /**
   * What the conversion yields for the claims already read from the token:
   * the scope strings followed by the role strings, or the failure the
   * converter meets first. It checks, in this order: the scope claim is
   * present, each scope string has text, the roles claim is present, each role
   * string has text.
   */
  function Authorities(scope: Option<seq<string>>, roles: Option<seq<string>>): (r: Result<seq<string>, ConversionError>)
    // fails exactly when a claim is absent or carries a string without text
    ensures r.Success? <==> scope.Some? && roles.Some? && AllHaveText(scope.value) && AllHaveText(roles.value)
    // the failure names what the converter meets first
    ensures scope.None? ==> r == Failure(NullClaim(ScopeClaim))
    ensures scope.Some? && !AllHaveText(scope.value) ==> r == Failure(BlankAuthority(ScopeClaim))
    ensures scope.Some? && AllHaveText(scope.value) && roles.None? ==> r == Failure(NullClaim(RolesClaim))
    ensures scope.Some? && AllHaveText(scope.value) && roles.Some? && !AllHaveText(roles.value) ==> r == Failure(BlankAuthority(RolesClaim))
    // nothing dropped, nothing merged
    ensures r.Success? ==> |r.value| == |scope.value| + |roles.value|
    // scope strings first, in claim order
    ensures r.Success? ==> forall i :: 0 <= i < |scope.value| ==> r.value[i] == scope.value[i]
    // role strings next, in claim order
    ensures r.Success? ==> forall j :: 0 <= j < |roles.value| ==> r.value[|scope.value| + j] == roles.value[j]
    // copied verbatim: an authority is granted iff it is a scope or a role string
    ensures r.Success? ==> forall a :: a in r.value <==> a in scope.value || a in roles.value
    // a list, not a set: each string occurs as often as in both claims together
    ensures r.Success? ==> multiset(r.value) == multiset(scope.value) + multiset(roles.value)
  {
    if scope.None? then Failure(NullClaim(ScopeClaim))
    else if !AllHaveText(scope.value) then Failure(BlankAuthority(ScopeClaim))
    else if roles.None? then Failure(NullClaim(RolesClaim))
    else if !AllHaveText(roles.value) then Failure(BlankAuthority(RolesClaim))
    else Success(scope.value + roles.value)
  }

  /**
   * The converter itself: a list that starts empty and is filled by one loop
   * over the scope strings and then one loop over the role strings, each
   * string wrapped as an authority on the way.
   */
  method Convert(scope: Option<seq<string>>, roles: Option<seq<string>>) returns (r: Result<seq<string>, ConversionError>)
    ensures r == Authorities(scope, roles)
  {
    var authorities: seq<string> := [];
    if scope.None? {
      return Failure(NullClaim(ScopeClaim));
    }
    var s := scope.value;
    for i := 0 to |s|
      invariant authorities == s[..i]
      invariant AllHaveText(authorities)
    {
      if !HasText(s[i]) {
        return Failure(BlankAuthority(ScopeClaim));
      }
      authorities := authorities + [s[i]];
    }
    // after the first loop the list holds exactly the scope strings
    assert authorities == s;
    if roles.None? {
      return Failure(NullClaim(RolesClaim));
    }
    var rs := roles.value;
    for j := 0 to |rs|
      invariant authorities == s + rs[..j]
      invariant AllHaveText(rs[..j])
    {
      if !HasText(rs[j]) {
        return Failure(BlankAuthority(RolesClaim));
      }
      authorities := authorities + [rs[j]];
    }
    assert rs[..|rs|] == rs;
    r := Success(authorities);
  }

  /** A string carried by both claims is granted twice whenever the conversion succeeds. */
  lemma GrantedTwiceWhenInBothClaims(scope: seq<string>, roles: seq<string>, a: string)
    requires a in scope && a in roles
    ensures Authorities(Some(scope), Some(roles)).Success? ==> multiset(Authorities(Some(scope), Some(roles)).value)[a] >= 2
  {
  }

  /** An empty or whitespace-only claim string fails the conversion rather than granting a blank authority. */
  lemma BlankStringFailsConversion()
    ensures Authorities(Some([""]), Some(["get-access"])) == Failure(BlankAuthority(ScopeClaim))
    ensures Authorities(Some(["read"]), Some([" \t"])) == Failure(BlankAuthority(RolesClaim))
  {
    assert !HasText([""][0]);
    assert !HasText([" \t"][0]) by { assert forall i :: 0 <= i < 2 ==> IsWhitespace(" \t"[i]); }
    assert HasText("read") by { assert !IsWhitespace("read"[0]); }
    assert AllHaveText(["read"]);
  }
}
