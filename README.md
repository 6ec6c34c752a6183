# Token Details page: token resolution, chain navigation and swap gate

This project models the decision logic of the `TokenDetails` page of a
decentralized-exchange web front-end, and proves properties of that model in
Dafny. The page shows one token, chosen from three sources in a fixed order:

- the chain's native currency, when the route holds the native sentinel;
- the backend query's token;
- a lookup on the connected network, as a fallback.

It also computes where to navigate when the chain changes or when a token is
picked in the swap widget. Finally it gates a swap behind a safety
confirmation. That gate holds at most one pending request.

The model has five modules:

- `Js` holds the JavaScript value rules the page relies on: `undefined`/`null`/value, string truthiness, `??`, template interpolation and ASCII `toLowerCase`.
- `Routes` builds the `/tokens/{chainName}/{address}` route and reads it back.
- `TokenResolution` covers address normalisation, the local token, the `useOnChainToken` hook, the resolved token and the choice of view.
- `ChainNavigation` covers `navigateToTokenForChain` and `navigateToWidgetSelectedToken`.
- `SwapGate` covers the warning and speedbump predicates, and the `SwapConfirmation` class that holds the `continueSwap` slot and a log of answers.

Some collaborators are not part of this model: `isAddress`, `useTokenFromActiveNetwork`, and `checkWarning`. They are function parameters. The answer of `useIsUserAddedTokenOnChain` is a boolean parameter. The sentinels `NATIVE_CHAIN_ID` and `UNKNOWN_TOKEN_SYMBOL` are parameters too (`Sentinels`), because their values are defined outside the modelled file. `CHAIN_NAME_TO_CHAIN_ID` and `useWeb3React` enter as the values they produce: `pageChainId` and an optional `globalChainId`.

Behaviour of the code worth noting:

- A missing or empty route address makes the page throw (lines 93-95). The model returns `InvalidRoute`.
- The resolved token is `undefined` when nothing is found. `localToken ?? onChainToken` replaces the local `null` with the on-chain value, and that value is `undefined` when the lookup finds nothing or finds an unknown-symbol token (line 116). `ResolveToken` states exactly when its result is `undefined`.
- The token is `null` only when the lookup hook itself answers `null`: line 72 passes a falsy lookup result through unchanged. The page then shows the loading skeleton, not the not-found view (lines 169 and 175). `ResolveNeverNull` states that the token is never `null` once the hook never answers `null`.
- When the route address is rejected by `isAddress`, `address` is `undefined`. A chain switch then navigates to `/tokens/{chain}/undefined`, because the template prints the missing value (line 130). The model keeps this (`Js.Interpolate`).

## Model

| member | source | states |
|---|---|---|
| `Js.Lower` | src/components/Tokens/TokenDetails/index.tsx:127 | lower-casing keeps the length, leaves no upper-case ASCII letter, and changes only upper-case letters, each by the fixed offset |
| `Js.Coalesce` | src/components/Tokens/TokenDetails/index.tsx:116 | `a ?? b` is `a` when `a` is present and `b` otherwise, so it is `null` only when `a` is absent and `b` is `null` |
| `Js.Interpolate` | src/components/Tokens/TokenDetails/index.tsx:130 | a present string prints as itself and a missing one as "undefined" |
| `Js.LowerKeepsSlashFree` | src/components/Tokens/TokenDetails/index.tsx:127 | a lower-cased chain name holds no '/' when the name did not, so it stays one route segment |
| `Routes.ParseTokenRoute` | src/components/Tokens/TokenDetails/index.tsx:130 | a route that parses consists of the prefix, a chain segment without '/', and the address, so parsing inverts building |
| `Routes.ParseTokenRouteRoundTrip` | src/components/Tokens/TokenDetails/index.tsx:130 | building a route from a '/'-free chain name and any address and parsing it gives back both parts |
| `TokenResolution.NormalizeAddress` | src/components/Tokens/TokenDetails/index.tsx:93-99 | a missing or empty URL address is a route error; the native sentinel passes through; any other address becomes the `isAddress` result, or no address when that is falsy; a normalised address is never empty |
| `TokenResolution.LocalToken` | src/components/Tokens/TokenDetails/index.tsx:108-113 | undefined exactly without an address; the page chain's native currency exactly for the sentinel; otherwise the query's token when there is one, and `null` exactly when there is not |
| `TokenResolution.UseOnChainToken` | src/components/Tokens/TokenDetails/index.tsx:69-77 | a skipped or address-less lookup yields nothing; a non-undefined result is the lookup's own answer for the address; a token with the unknown symbol is never returned; a `null` answer or a known token is passed on |
| `TokenResolution.ResolveToken` | src/components/Tokens/TokenDetails/index.tsx:101-116 | native short-circuit, backend precedence, no lookup on a chain other than the connected one, on-chain token exactly when the lookup runs and finds a known symbol, unknown symbol counts as a miss, `null` exactly when the running lookup answers `null`, and `undefined` exactly when there is no address or a non-native address has no query data and the lookup cannot run, finds nothing, or finds an unknown-symbol token |
| `TokenResolution.ResolveNeverNull` | src/components/Tokens/TokenDetails/index.tsx:116 | when the lookup never answers `null`, the resolved token is never `null` |
| `TokenResolution.NativeRouteShortCircuit` | src/components/Tokens/TokenDetails/index.tsx:96-116 | a route holding the native sentinel normalises to it and resolves to the page chain's native currency for any `isAddress`, query data and lookup |
| `TokenResolution.SelectView` | src/components/Tokens/TokenDetails/index.tsx:169-175 | the not-found view exactly for an undefined token, naming the chain exactly when there is an address; the details exactly for a present token outside a transition; the skeleton otherwise |
| `TokenResolution.InvalidViewIffNoSource` | src/components/Tokens/TokenDetails/index.tsx:108-116 | the not-found view is chosen exactly when there is no address, or when a non-native address has no query data and the lookup cannot run, finds nothing, or finds an unknown-symbol token |
| `ChainNavigation.FindSibling` | src/components/Tokens/TokenDetails/index.tsx:133 | the first index of a sibling on the target chain with a non-empty address, or none exactly when no sibling qualifies |
| `ChainNavigation.NavigateToTokenForChain` | src/components/Tokens/TokenDetails/index.tsx:124-138 | no navigation to the current chain; the same address on the target chain without a local token or for the native currency; otherwise navigation exactly when some sibling qualifies, to the first one's address |
| `ChainNavigation.NavigateToWidgetSelectedToken` | src/components/Tokens/TokenDetails/index.tsx:140-147 | a widget selection routes to the current chain's lower-cased name, with the native sentinel for the native currency and the token's address otherwise |
| `ChainNavigation.NativeChainSwitch` | src/components/Tokens/TokenDetails/index.tsx:124-131 | switching chains on the native page routes to the native sentinel on the target chain, and that page resolves to the target chain's native currency whatever its data |
| `ChainNavigation.ChainSwitchRoute` | src/components/Tokens/TokenDetails/index.tsx:124-138 | every chain-switch route reads back as the target chain's lower-cased name and the kept address or the first qualifying sibling's address |
| `SwapGate.TokenWarning` | src/components/Tokens/TokenDetails/index.tsx:118 | there is a warning only for an address, and then it is exactly `checkWarning`'s answer for it |
| `SwapGate.IsBlockedToken` | src/components/Tokens/TokenDetails/index.tsx:119 | a token is blocked only when it has a warning, and then exactly when that warning does not let the user proceed |
| `SwapGate.ShouldShowSpeedbump` | src/components/Tokens/TokenDetails/index.tsx:152 | confirmation is needed exactly for a token with a warning, blocked or not, that the user has not added; never for a user-added token |
| `SwapGate.SpeedbumpCases` | src/components/Tokens/TokenDetails/index.tsx:118-152 | over the page's own warning (line 118) and speedbump (line 152): any warned token the user has not added, blocked ones included, needs confirmation; without an address, or without a warning, none is needed |
| `SwapGate.SwapConfirmation.ModalOpen` | src/components/Tokens/TokenDetails/index.tsx:237 | the modal is open whenever the token is blocked, and otherwise exactly while a request is pending |
| `SwapGate.SwapConfirmation.constructor` | src/components/Tokens/TokenDetails/index.tsx:149 | the slot starts empty and no answer has been given |
| `SwapGate.SwapConfirmation.OnReviewSwapClick` | src/components/Tokens/TokenDetails/index.tsx:152-156 | without a speedbump the request is answered `true` and the slot is unchanged; with one the request takes the slot, the modal is open, and an overwritten request is dropped unanswered; the at-most-once invariant holds |
| `SwapGate.SwapConfirmation.OnResolveSwap` | src/components/Tokens/TokenDetails/index.tsx:158-164 | the pending request, if any, is answered with the value, exactly once, and the slot is emptied; the modal then stays open only for a blocked token |
| `SwapGate.OverwrittenReview` | src/components/Tokens/TokenDetails/index.tsx:149-164 | two speedbumped reviews followed by two answers deliver only the first answer, to the second request, and never answer the first |

## Left out

- Rendering, styled-components and layout (lines 50-58, 172-247): only the choice between the not-found view, the skeleton and the details is modelled (`SelectView`), with the transition's pending flag as an input.
- `useMemo`, `useCallback`, `usePreloadedQuery` with Suspense, and `useTransition` scheduling: the model computes each value from its inputs directly. Interruptible transitions are concurrency and have no sequential contract.
- The render-time capture of `continueSwap` by `onResolveSwap`: the model assumes the callback sees the latest state, as it does after a re-render.
- `useTokenLogoURI` (lines 60-67): a thin wrapper over a logo hook that is not part of this model.
- Promises: a request is an opaque id and an answer is a log entry. The modal's `onBlocked` history step back (line 240), `console.log` (line 142) and the analytics `Trace` are not modelled.
- `useOnGlobalChainSwitch` (line 139) only registers `navigateToTokenForChain`. Its event source is not part of this model.
- Js.Lower: models `toLowerCase` on the ASCII letters only, because chain names are ASCII identifiers and Unicode case mapping is out of scope.
- The fields of warnings other than `canProceed`, and the market and project fields of the query other than `project.tokens`, do not influence the modelled decisions.
