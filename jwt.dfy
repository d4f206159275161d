/**
 * Token helpers: the claims a token carries, the parser of the
 * `Authorization: Bearer <token>` header (a strict, case-sensitive subset of
 * the form of section 2.1 of RFC 6750) and the expiry test. Signing,
 * verification and decoding are the JSON Web Token library's and stay
 * outside the model.
 */
module Jwt {
  import opened Common
  import opened Store

  /** The payload of every issued token. */
  datatype Claims = Claims(userId: Id, email: string, role: Role)

  /** The claims of a stored user's token. */
  function ClaimsOf(id: Id, u: User): (c: Claims)
    ensures c.userId == id && c.email == u.email && c.role == u.role
  {
    Claims(id, u.email, u.role)
  }

  /** extractTokenFromHeader; None is a missing header and the null result. */
  function ExtractToken(header: Option<string>): (token: Option<string>)
    ensures header.None? || header.value == "" ==> token.None?
    ensures token.Some? ==> ' ' !in token.value
  {
    if header.None? || header.value == "" then None
    else
      var parts := Split(header.value, ' ');
      if |parts| != 2 || parts[0] != "Bearer" then None else Some(parts[1])
  }

  /** Every token without a space is recovered from its header. */
  lemma ExtractRoundTrip(token: string)
    requires ' ' !in token
    ensures ExtractToken(Some("Bearer " + token)) == Some(token)
  {
    assert "Bearer " + token == "Bearer" + [' '] + token;
    SplitAtFirst("Bearer", ' ', token);
    SplitWithoutSeparator(token, ' ');
  }

  /** The parser accepts exactly the headers `Bearer <token>` with a token without spaces. */
  lemma ExtractOnlyBearer(header: string, token: string)
    requires ExtractToken(Some(header)) == Some(token)
    ensures header == "Bearer " + token
  {
    var parts := Split(header, ' ');
    JoinSplit(header, ' ');
    assert Join(parts, ' ') == parts[0] + [' '] + Join(parts[1..], ' ');
    assert parts[1..] == [token];
  }

  /** The scheme is case-sensitive, and a doubled or further space is refused. */
  lemma ExtractRejectsVariants()
    ensures ExtractToken(Some("bearer x")) == None
    ensures ExtractToken(Some("Bearer  x")) == None
    ensures ExtractToken(Some("Bearer x y")) == None
  {
    SplitAtFirst("bearer", ' ', "x");
    SplitWithoutSeparator("x", ' ');
    assert "bearer x" == "bearer" + [' '] + "x";
    SplitAtFirst("Bearer", ' ', " x");
    SplitAtFirst("", ' ', "x");
    assert "Bearer  x" == "Bearer" + [' '] + " x";
    assert " x" == "" + [' '] + "x";
    SplitAtFirst("Bearer", ' ', "x y");
    SplitAtFirst("x", ' ', "y");
    SplitWithoutSeparator("y", ' ');
    assert "Bearer x y" == "Bearer" + [' '] + "x y";
    assert "x y" == "x" + [' '] + "y";
  }

  /**
   * isTokenExpired: `decoded` is the decoded payload's `exp` if the token
   * decodes; a missing or zero `exp` counts as expired; `nowMs` is the clock in
   * milliseconds.
   */
  function IsTokenExpired(decoded: Option<Option<int>>, nowMs: int): (expired: bool)
    ensures decoded.None? || decoded.value.None? || decoded.value.value == 0 ==> expired
    ensures decoded.Some? && decoded.value.Some? && decoded.value.value != 0 ==>
      (expired <==> decoded.value.value * 1000 + 1000 <= nowMs)
  {
    if decoded.None? || decoded.value.None? || decoded.value.value == 0 then true
    else decoded.value.value < nowMs / 1000
  }

  /** A token stays valid through the whole second it expires in, and once expired stays expired. */
  lemma ExpiryIsMonotone(decoded: Option<Option<int>>, nowMs: int, laterMs: int)
    requires nowMs <= laterMs
    ensures IsTokenExpired(decoded, nowMs) ==> IsTokenExpired(decoded, laterMs)
    ensures decoded.Some? && decoded.value.Some? && decoded.value.value != 0 && nowMs / 1000 == decoded.value.value ==>
      !IsTokenExpired(decoded, nowMs)
  {
  }
}
