/**
 * `requireUserUidFromAuthHeader` of lib/secure.ts: the bearer-header check
 * done locally, then the identity provider's token verification, which stays
 * abstract (a function from token to decoded uid, absent when it rejects).
 */
module Secure {

  import opened Wrappers
  import opened Text

  const BearerPrefix: string := "Bearer "

  datatype AuthFailure = MissingOrInvalidHeader | TokenRejected

  datatype Auth = Authenticated(uid: string) | Unauthorized(failure: AuthFailure)

  /**
   * The token the verifier receives, or absent when the header is rejected
   * locally: `header.replace('Bearer ', '').trim()`.
   */
  function BearerToken(header: Option<string>): (r: Option<string>)
    ensures r.None? <==> header.None? || !StartsWith(header.value, BearerPrefix)
    ensures r.Some? ==> r.value == Trim(header.value[|BearerPrefix|..])
  {
    if header.None? || header.value == "" || !StartsWith(header.value, BearerPrefix) then None
    else
      var rest := ReplaceFirst(header.value, BearerPrefix, "");
      assert rest == "" + header.value[|BearerPrefix|..] == header.value[|BearerPrefix|..];
      Some(Trim(rest))
  }

  /** The header check first, then the verifier; the uid is exactly what the verifier decoded. */
  function RequireUid(header: Option<string>, verify: string -> Option<string>): (r: Auth)
    ensures BearerToken(header).None? ==> r == Unauthorized(MissingOrInvalidHeader)
    ensures r.Authenticated? <==> BearerToken(header).Some? && verify(BearerToken(header).value).Some?
    ensures r.Authenticated? ==> Some(r.uid) == verify(BearerToken(header).value)
    ensures r == Unauthorized(TokenRejected) <==> BearerToken(header).Some? && verify(BearerToken(header).value).None?
  {
    match BearerToken(header)
    case None => Unauthorized(MissingOrInvalidHeader)
    case Some(token) =>
      match verify(token)
      case None => Unauthorized(TokenRejected)
      case Some(uid) => Authenticated(uid)
  }

  /** A lower-case scheme, or no space after it, is rejected before any verification. */
  lemma SchemeIsCaseSensitive()
    ensures BearerToken(Some("bearer abc")) == None
    ensures BearerToken(Some("Bearerabc")) == None
    ensures BearerToken(Some("")) == None
  {
    assert "bearer abc"[..7] != BearerPrefix by { assert "bearer abc"[0] == 'b'; }
    assert "Bearerabc"[..7] != BearerPrefix by { assert "Bearerabc"[6] == 'a'; }
  }

  /** A token of only whitespace is not rejected locally: the verifier receives the empty token. */
  lemma BlankTokenReachesVerifier(blank: string)
    requires AllWhitespace(blank)
    ensures BearerToken(Some(BearerPrefix + blank)) == Some("")
  {
    var h := BearerPrefix + blank;
    assert h[..|BearerPrefix|] == BearerPrefix;
    assert h[|BearerPrefix|..] == blank;
    TrimEmptyIffAllWhitespace(blank);
  }

  lemma TrimStartDropsOneSpace(t: string)
    requires t == [] || !IsJsWhitespace(t[0])
    ensures TrimStart([' '] + t) == t
  {
    assert ([' '] + t)[1..] == t;
  }

  lemma TrimEndDropsOneSpace(t: string)
    requires t == [] || !IsJsWhitespace(t[|t| - 1])
    ensures TrimEnd(t + [' ']) == t
  {
    assert (t + [' '])[..|t|] == t;
  }

  /**
   * Spaces around the token are dropped, and only the first "Bearer " is
   * removed: a token that itself contains "Bearer " reaches the verifier whole.
   */
  lemma SurroundingSpacesDropped(t: string)
    requires t != [] && !IsJsWhitespace(t[0]) && !IsJsWhitespace(t[|t| - 1])
    ensures BearerToken(Some(BearerPrefix + [' '] + t + [' '])) == Some(t)
  {
    var h := BearerPrefix + [' '] + t + [' '];
    assert h[..|BearerPrefix|] == BearerPrefix;
    assert h[|BearerPrefix|..] == [' '] + (t + [' ']);
    TrimStartDropsOneSpace(t + [' ']);
    TrimEndDropsOneSpace(t);
  }

  /** "Bearer  Bearer x " passes "Bearer x" to the verifier. */
  lemma NestedSchemeKept()
    ensures BearerToken(Some(BearerPrefix + " Bearer x ")) == Some("Bearer x")
  {
    assert !IsJsWhitespace("Bearer x"[0]) && !IsJsWhitespace("Bearer x"[7]);
    assert BearerPrefix + " Bearer x " == BearerPrefix + [' '] + "Bearer x" + [' '];
    SurroundingSpacesDropped("Bearer x");
  }
}
