/** The `Authorization` header convention of the token service: a bearer
    token travels as `"Bearer " + token`. */
module Jwt {
  import opened Common

  const BEARER_PREFIX := "Bearer "

  predicate StartsWith(s: string, prefix: string)
  {
    |prefix| <= |s| && s[..|prefix|] == prefix
  }

  /** The token carried by an `Authorization` header, or `None` when the header
      is empty or does not use the bearer scheme. */
  function ExtractTokenFromHeader(authHeader: string): (r: Option<string>)
    ensures authHeader == "" ==> r.None?
    ensures r.None? <==> !StartsWith(authHeader, BEARER_PREFIX)
    ensures r.Some? ==> |r.value| == |authHeader| - |BEARER_PREFIX|
                        && authHeader == BEARER_PREFIX + r.value
  {
    if authHeader == "" || !StartsWith(authHeader, BEARER_PREFIX) then
      None
    else
      Some(authHeader[|BEARER_PREFIX|..])
  }

  /** Extraction undoes the prefixing, for every token. */
  lemma ExtractAfterPrefix(token: string)
    ensures ExtractTokenFromHeader(BEARER_PREFIX + token) == Some(token)
  {
  }

  /** And prefixing undoes extraction: the headers that carry a token are
      exactly the prefixed ones, one per token. */
  lemma PrefixAfterExtract(authHeader: string, token: string)
    ensures ExtractTokenFromHeader(authHeader) == Some(token) <==> authHeader == BEARER_PREFIX + token
  {
  }
}
