/**
 Where the Token Details page navigates when the chain changes (from the
 page's own selector or a global chain switch) and when a token is chosen in
 the swap widget. A navigation is the route string handed to the router;
 `None` means the page stays where it is.
 */
module ChainNavigation {
  import opened Js
  import opened Routes
  import opened TokenResolution

  /** The `find` predicate: a sibling on the target chain with a non-empty address. */
  predicate SiblingMatches(t: SiblingToken, newChain: string)
  {
    t.chain == newChain && StrTruthy(t.address)
  }

  /** `tokens.find(...)`, as the index of the first matching sibling. */
  function FindSibling(tokens: seq<SiblingToken>, newChain: string): (r: Option<nat>)
    ensures r.Some? ==> r.value < |tokens| && SiblingMatches(tokens[r.value], newChain)
    ensures r.Some? ==> forall j :: 0 <= j < r.value ==> !SiblingMatches(tokens[j], newChain)
    ensures r.None? ==> forall j :: 0 <= j < |tokens| ==> !SiblingMatches(tokens[j], newChain)
  {
    if |tokens| == 0 then None
    else if SiblingMatches(tokens[0], newChain) then Some(0)
    else
      match FindSibling(tokens[1..], newChain)
      case None => None
      case Some(k) => Some(k + 1)
  }

  /** `tokenQueryData?.project?.tokens`; searching a missing list finds nothing, as searching an empty one does. */
  function Siblings(queryData: Option<QueryData>): seq<SiblingToken>
  {
    if queryData.Some? && queryData.value.project.Some? then queryData.value.project.value.tokens else []
  }

  /** Some sibling in the list can serve the target chain. */
  ghost predicate HasSiblingOn(tokens: seq<SiblingToken>, newChain: string)
  {
    exists i :: 0 <= i < |tokens| && SiblingMatches(tokens[i], newChain)
  }

  /** The `i`-th sibling is the first one that can serve the target chain. */
  ghost predicate FirstSiblingOn(tokens: seq<SiblingToken>, newChain: string, i: int)
  {
    0 <= i < |tokens| && SiblingMatches(tokens[i], newChain) &&
    forall j :: 0 <= j < i ==> !SiblingMatches(tokens[j], newChain)
  }

  /**
   `navigateToTokenForChain`: no move to the current chain; the same address
   on the target chain for the native currency or a token without a local
   record; otherwise the first sibling on the target chain, and no move when
   there is none.
   */
  function NavigateToTokenForChain(
    chain: string, newChain: string, localToken: Nullable<Currency>,
    address: Option<string>, native: string, queryData: Option<QueryData>): (r: Option<string>)
    ensures chain == newChain ==> r.None?
    ensures chain != newChain && (!Present(localToken) || IsNative(address, native)) ==>
      r == Some(TokenRoute(Lower(newChain), Interpolate(address)))
    ensures chain != newChain && Present(localToken) && !IsNative(address, native) ==>
      (r.Some? <==> HasSiblingOn(Siblings(queryData), newChain))
    ensures chain != newChain && Present(localToken) && !IsNative(address, native) && r.Some? ==>
      exists i :: FirstSiblingOn(Siblings(queryData), newChain, i) &&
        r == Some(TokenRoute(Lower(newChain), Siblings(queryData)[i].address.value))
  {
    if chain == newChain then None
    else if !Present(localToken) || IsNative(address, native) then
      Some(TokenRoute(Lower(newChain), Interpolate(address)))
    else
      var tokens := Siblings(queryData);
      match FindSibling(tokens, newChain)
      case None => None
      case Some(i) =>
        assert FirstSiblingOn(tokens, newChain, i);
        Some(TokenRoute(Lower(newChain), tokens[i].address.value))
  }

  /** What the swap widget reports as the selected currency. */
  datatype SelectedCurrency = SelectedNative | SelectedToken(address: string)

  /**
   `navigateToWidgetSelectedToken`: the selected currency's page on the
   current chain, which reads back as the lower-cased chain name and the
   native sentinel or the token's own address.
   */
  function NavigateToWidgetSelectedToken(chain: string, token: SelectedCurrency, native: string): (r: string)
    ensures '/' !in chain ==>
      ParseTokenRoute(r) == Some(RouteParts(Lower(chain), if token.SelectedNative? then native else token.address))
  {
    var address := if token.SelectedNative? then native else token.address;
    var route := TokenRoute(Lower(chain), address);
    assert '/' !in chain ==> ParseTokenRoute(route) == Some(RouteParts(Lower(chain), address)) by {
      if '/' !in chain {
        LowerKeepsSlashFree(chain);
        ParseTokenRouteRoundTrip(Lower(chain), address);
      }
    }
    route
  }

  /**
   Switching chains on the native currency's page lands on the native page of
   the target chain, and that page shows the target chain's native currency
   whatever its query and lookup report.
   */
  lemma NativeChainSwitch(
    chain: string, newChain: string, localToken: Nullable<Currency>, native: string,
    unknownSymbol: string, queryData: Option<QueryData>,
    isAddress: string -> Option<string>, newPageChainId: ChainId, globalChainId: Option<ChainId>,
    newQueryData: Option<QueryData>, lookup: string -> Nullable<OnChainToken>)
    requires chain != newChain && '/' !in newChain && native != ""
    ensures
      var r := NavigateToTokenForChain(chain, newChain, localToken, Some(native), native, queryData);
      r.Some? && ParseTokenRoute(r.value) == Some(RouteParts(Lower(newChain), native)) &&
      var next := NormalizeAddress(Some(ParseTokenRoute(r.value).value.address), isAddress, native);
      next == Normalized(Some(native)) &&
      ResolveToken(next.address, Sentinels(native, unknownSymbol), newPageChainId, globalChainId, newQueryData, lookup)
        == Val(NativeCurrency(newPageChainId))
  {
    LowerKeepsSlashFree(newChain);
    ParseTokenRouteRoundTrip(Lower(newChain), native);
  }

  /**
   Switching chains on a token's page lands on the target chain's page for the
   address the page moved to: the same address without a local record or for
   the native currency, the first sibling's address otherwise.
   */
  lemma ChainSwitchRoute(
    chain: string, newChain: string, localToken: Nullable<Currency>,
    address: Option<string>, native: string, queryData: Option<QueryData>)
    requires '/' !in newChain
    ensures
      var r := NavigateToTokenForChain(chain, newChain, localToken, address, native, queryData);
      r.Some? ==>
        ParseTokenRoute(r.value).Some? && ParseTokenRoute(r.value).value.chainName == Lower(newChain) &&
        var a := ParseTokenRoute(r.value).value.address;
        ((!Present(localToken) || IsNative(address, native)) ==> a == Interpolate(address)) &&
        (Present(localToken) && !IsNative(address, native) ==>
          exists i :: FirstSiblingOn(Siblings(queryData), newChain, i) && a == Siblings(queryData)[i].address.value)
  {
    var r := NavigateToTokenForChain(chain, newChain, localToken, address, native, queryData);
    LowerKeepsSlashFree(newChain);
    if r.Some? {
      if !Present(localToken) || IsNative(address, native) {
        ParseTokenRouteRoundTrip(Lower(newChain), Interpolate(address));
      } else {
        var i :| FirstSiblingOn(Siblings(queryData), newChain, i) &&
          r == Some(TokenRoute(Lower(newChain), Siblings(queryData)[i].address.value));
        ParseTokenRouteRoundTrip(Lower(newChain), Siblings(queryData)[i].address.value);
      }
    }
  }
}
