/**
 The token-page route shape `/tokens/{chainName}/{address}` that the page
 builds when it navigates, and the reading of such a route back into its two
 parts, splitting the rest at the first '/' after the prefix.
 */
module Routes {
  import opened Js

  const TokensPrefix: string := "/tokens/"

  datatype RouteParts = RouteParts(chainName: string, address: string)

  /** The template `/tokens/${chainName}/${address}`. */
  function TokenRoute(chainName: string, address: string): string
  {
    TokensPrefix + chainName + "/" + address
  }

  /** The first position of `c` in `s`, if any. */
  function IndexOf(s: string, c: char): (r: Option<nat>)
    ensures r.Some? ==> r.value < |s| && s[r.value] == c && c !in s[..r.value]
    ensures r.None? ==> c !in s
  {
    if |s| == 0 then None
    else if s[0] == c then Some(0)
    else
      match IndexOf(s[1..], c)
      case None => None
      case Some(k) =>
        assert s[..k + 1] == [s[0]] + s[1..][..k];
        Some(k + 1)
  }

  /** Splits a token route at the first '/' after the prefix. */
  function ParseTokenRoute(route: string): (r: Option<RouteParts>)
    ensures r.Some? ==> '/' !in r.value.chainName
    ensures r.Some? ==> route == TokenRoute(r.value.chainName, r.value.address)
  {
    if |route| < |TokensPrefix| || route[..|TokensPrefix|] != TokensPrefix then None
    else
      var rest := route[|TokensPrefix|..];
      match IndexOf(rest, '/')
      case None => None
      case Some(k) =>
        assert rest == rest[..k] + "/" + rest[k + 1..];
        assert route == route[..|TokensPrefix|] + rest;
        Some(RouteParts(rest[..k], rest[k + 1..]))
  }

  /** A route built from a chain name without '/' reads back as the same two parts. */
  lemma ParseTokenRouteRoundTrip(chainName: string, address: string)
    requires '/' !in chainName
    ensures ParseTokenRoute(TokenRoute(chainName, address)) == Some(RouteParts(chainName, address))
  {
    var route := TokenRoute(chainName, address);
    assert route[..|TokensPrefix|] == TokensPrefix;
    var rest := route[|TokensPrefix|..];
    assert rest == chainName + "/" + address;
    assert rest[|chainName|] == '/';
    assert rest[..|chainName|] == chainName;
    assert rest[|chainName| + 1..] == address;
  }
}
