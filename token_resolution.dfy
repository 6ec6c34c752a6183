/**
 How the Token Details page decides which token to show: the route address
 is normalised, a local token is derived from the native-currency sentinel or
 the backend query, an on-chain lookup on the connected network fills in when
 neither applies, and the result picks the view.

 The collaborators whose code is not part of this model are parameters:
 `isAddress` (checksums a hex address or returns false, here `None`), the
 active-network token hook `useTokenFromActiveNetwork` (`lookup`), and the two
 sentinel strings `NATIVE_CHAIN_ID` and `UNKNOWN_TOKEN_SYMBOL`.
 */
module TokenResolution {
  import opened Js

  type ChainId = int

  /** The two reserved strings the page compares against. */
  datatype Sentinels = Sentinels(nativeChainId: string, unknownTokenSymbol: string)

  /** One entry of the backend's `project.tokens`: the same asset on some chain. */
  datatype SiblingToken = SiblingToken(chain: string, address: Option<string>)

  datatype Project = Project(tokens: seq<SiblingToken>)

  /** The first token record of the backend query (`tokens?.[0]`). */
  datatype QueryData = QueryData(
    chain: string,
    address: Option<string>,
    name: Option<string>,
    symbol: Option<string>,
    project: Option<Project>)

  /** A token read from the connected network's chain. */
  datatype OnChainToken = OnChainToken(chainId: ChainId, address: string, name: Option<string>, symbol: Option<string>)

  /** The currencies the page can display. */
  datatype Currency =
    | NativeCurrency(chainId: ChainId)      // nativeOnChain(pageChainId)
    | QueryToken(data: QueryData)           // new QueryToken(tokenQueryData)
    | ActiveNetworkToken(token: OnChainToken)

  /** Either the route is unusable (the page throws) or it yields a normalised address. */
  datatype RouteAddress = InvalidRoute | Normalized(address: Option<string>)

  /**
   Normalising the `tokenAddress` route parameter: a missing or empty one is a
   routing error; the native sentinel is kept as it is; anything else becomes
   its checksummed form, or no address at all when `isAddress` rejects it.
   */
  function NormalizeAddress(urlAddress: Option<string>, isAddress: string -> Option<string>, native: string): (r: RouteAddress)
    ensures r.InvalidRoute? <==> !StrTruthy(urlAddress)
    ensures r.Normalized? && urlAddress.value == native ==> r.address == Some(native)
    ensures r.Normalized? && urlAddress.value != native ==>
      (r.address.Some? <==> StrTruthy(isAddress(urlAddress.value))) &&
      (r.address.Some? ==> r.address == isAddress(urlAddress.value))
    ensures r.Normalized? ==> r.address.None? || StrTruthy(r.address)
  {
    if !StrTruthy(urlAddress) then InvalidRoute
    else if urlAddress.value == native then Normalized(urlAddress)
    else
      var checked := isAddress(urlAddress.value);
      Normalized(if StrTruthy(checked) then checked else None)
  }

  /** `address === NATIVE_CHAIN_ID`. */
  predicate IsNative(address: Option<string>, native: string)
  {
    address == Some(native)
  }

  /**
   The token the page can name without asking the chain: nothing without an
   address, the page chain's native currency for the sentinel, the backend's
   token when the query returned one, and `null` otherwise.
   */
  function LocalToken(address: Option<string>, native: string, pageChainId: ChainId, queryData: Option<QueryData>): (r: Nullable<Currency>)
    ensures r.Undefined? <==> !StrTruthy(address)
    ensures r.Null? <==> StrTruthy(address) && !IsNative(address, native) && queryData.None?
    ensures r.Val? && r.value.NativeCurrency? <==> StrTruthy(address) && IsNative(address, native)
    ensures r.Val? ==> r.value.NativeCurrency? || r.value == QueryToken(queryData.value)
    ensures r.Val? && r.value.NativeCurrency? ==> r.value.chainId == pageChainId
  {
    if !StrTruthy(address) then Undefined
    else if IsNative(address, native) then Val(NativeCurrency(pageChainId))
    else if queryData.Some? then Val(QueryToken(queryData.value))
    else Null
  }

  /**
   The `useOnChainToken` hook: nothing when skipped or without an address, and
   a token whose symbol is the unknown-symbol sentinel counts as none. Any
   other answer of the lookup, including `null`, is passed on unchanged.
   */
  function UseOnChainToken(address: Option<string>, skip: bool, lookup: string -> Nullable<OnChainToken>, unknownSymbol: string): (r: Nullable<OnChainToken>)
    ensures !r.Undefined? ==> !skip && StrTruthy(address) && r == lookup(address.value)
    ensures r.Val? ==> r.value.symbol != Some(unknownSymbol)
    ensures !skip && StrTruthy(address) && lookup(address.value).Null? ==> r.Null?
    ensures !skip && StrTruthy(address) && lookup(address.value).Val? && lookup(address.value).value.symbol != Some(unknownSymbol)
            ==> r == lookup(address.value)
  {
    if skip || !StrTruthy(address) then Undefined
    else
      var token := lookup(address.value);
      if token.Val? && token.value.symbol == Some(unknownSymbol) then Undefined else token
  }

  function AsCurrency(t: Nullable<OnChainToken>): Nullable<Currency>
  {
    match t
    case Undefined => Undefined
    case Null => Null
    case Val(v) => Val(ActiveNetworkToken(v))
  }

  /** The on-chain lookup is attempted: a real non-native address, no backend data, and the page chain is the connected one. */
  predicate LookupRuns(address: Option<string>, native: string, pageChainId: ChainId, globalChainId: Option<ChainId>, queryData: Option<QueryData>)
  {
    StrTruthy(address) && !IsNative(address, native) && queryData.None? && globalChainId == Some(pageChainId)
  }

  /**
   No source yields a token: there is no address, or a non-native address has
   no backend data and the lookup cannot run, finds nothing, or finds a token
   with the unknown symbol.
   */
  predicate NoSource(
    address: Option<string>, s: Sentinels, pageChainId: ChainId, globalChainId: Option<ChainId>,
    queryData: Option<QueryData>, lookup: string -> Nullable<OnChainToken>)
  {
    !StrTruthy(address) ||
    (!IsNative(address, s.nativeChainId) && queryData.None? &&
     (globalChainId != Some(pageChainId) || lookup(address.value).Undefined? ||
      (lookup(address.value).Val? && lookup(address.value).value.symbol == Some(s.unknownTokenSymbol))))
  }

  /**
   The displayed token, `localToken ?? onChainToken`, where the on-chain
   lookup is skipped when a local token exists or the page chain differs from
   the connected chain. Together the clauses below fix the result for every
   input.
   */
  function ResolveToken(
    address: Option<string>, s: Sentinels, pageChainId: ChainId, globalChainId: Option<ChainId>,
    queryData: Option<QueryData>, lookup: string -> Nullable<OnChainToken>): (r: Nullable<Currency>)
    // no address: nothing to show
    ensures !StrTruthy(address) ==> r == Undefined
    // the native sentinel short-circuits the query and the lookup
    ensures StrTruthy(address) && IsNative(address, s.nativeChainId) ==> r == Val(NativeCurrency(pageChainId))
    // backend data wins over anything on chain
    ensures StrTruthy(address) && !IsNative(address, s.nativeChainId) && queryData.Some? ==> r == Val(QueryToken(queryData.value))
    // without backend data and on another chain than the connected one, nothing is looked up
    ensures StrTruthy(address) && !IsNative(address, s.nativeChainId) && queryData.None? && globalChainId != Some(pageChainId)
            ==> r == Undefined
    // an on-chain token is shown exactly when the lookup runs and finds a token with a known symbol
    ensures r.Val? && r.value.ActiveNetworkToken? <==>
            LookupRuns(address, s.nativeChainId, pageChainId, globalChainId, queryData) &&
            lookup(address.value).Val? && lookup(address.value).value.symbol != Some(s.unknownTokenSymbol)
    ensures r.Val? && r.value.ActiveNetworkToken? ==> lookup(address.value) == Val(r.value.token)
    // a token with the unknown symbol is a miss
    ensures LookupRuns(address, s.nativeChainId, pageChainId, globalChainId, queryData) &&
            lookup(address.value).Val? && lookup(address.value).value.symbol == Some(s.unknownTokenSymbol)
            ==> r == Undefined
    // `null ?? x` is `x`: the local `null` never survives; only a `null` from the lookup does
    ensures r.Null? <==> LookupRuns(address, s.nativeChainId, pageChainId, globalChainId, queryData) && lookup(address.value).Null?
    // `null ?? undefined` is `undefined`: a lookup that finds nothing leaves nothing to show
    ensures LookupRuns(address, s.nativeChainId, pageChainId, globalChainId, queryData) && lookup(address.value).Undefined?
            ==> r == Undefined
    // so nothing is shown exactly when no source yields a token
    ensures r.Undefined? <==> NoSource(address, s, pageChainId, globalChainId, queryData, lookup)
  {
    var local := LocalToken(address, s.nativeChainId, pageChainId, queryData);
    var skip := Present(local) || Some(pageChainId) != globalChainId;
    var onChain := UseOnChainToken(address, skip, lookup, s.unknownTokenSymbol);
    Coalesce(local, AsCurrency(onChain))
  }

  /** If the lookup never answers `null`, neither does the page's token. */
  lemma ResolveNeverNull(
    address: Option<string>, s: Sentinels, pageChainId: ChainId, globalChainId: Option<ChainId>,
    queryData: Option<QueryData>, lookup: string -> Nullable<OnChainToken>)
    requires forall a :: !lookup(a).Null?
    ensures !ResolveToken(address, s, pageChainId, globalChainId, queryData, lookup).Null?
  {
  }

  /** The sentinel in the route shows the page chain's native currency whatever the query and the lookup say. */
  lemma NativeRouteShortCircuit(
    urlAddress: Option<string>, isAddress: string -> Option<string>, s: Sentinels,
    pageChainId: ChainId, globalChainId: Option<ChainId>,
    queryData: Option<QueryData>, lookup: string -> Nullable<OnChainToken>)
    requires urlAddress == Some(s.nativeChainId) && s.nativeChainId != ""
    ensures NormalizeAddress(urlAddress, isAddress, s.nativeChainId) == Normalized(urlAddress)
    ensures ResolveToken(urlAddress, s, pageChainId, globalChainId, queryData, lookup) == Val(NativeCurrency(pageChainId))
  {
  }

  /** The three views: the not-found page, the loading skeleton and the details. */
  datatype View = InvalidTokenDetails(showChainName: bool) | Skeleton | Details(token: Currency)

  /**
   The page's choice between views: an undefined token yields the not-found
   page (naming the chain when there is an address); a `null` token or a
   pending transition shows the skeleton; otherwise the details are shown.
   */
  function SelectView(token: Nullable<Currency>, address: Option<string>, isPending: bool): (v: View)
    ensures v.InvalidTokenDetails? <==> token.Undefined?
    ensures v.InvalidTokenDetails? ==> (v.showChainName <==> StrTruthy(address))
    ensures v.Details? <==> token.Val? && !isPending
    ensures v.Details? ==> token == Val(v.token)
    ensures v.Skeleton? <==> token.Null? || (token.Val? && isPending)
  {
    if token.Undefined? then InvalidTokenDetails(StrTruthy(address))
    else if token.Val? && !isPending then Details(token.value)
    else Skeleton
  }

  /** The not-found page is chosen exactly when no source yields a token: no address, or no backend data and no usable lookup. */
  lemma InvalidViewIffNoSource(
    address: Option<string>, s: Sentinels, pageChainId: ChainId, globalChainId: Option<ChainId>,
    queryData: Option<QueryData>, lookup: string -> Nullable<OnChainToken>, isPending: bool)
    ensures SelectView(ResolveToken(address, s, pageChainId, globalChainId, queryData, lookup), address, isPending).InvalidTokenDetails?
      <==> NoSource(address, s, pageChainId, globalChainId, queryData, lookup)
  {
  }
}
