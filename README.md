# Link destination and rendering model

A Dafny model of the `Link` component of a Next.js / Material UI marketing
site (`src/components/shared/link.tsx`). The component does two things, and
the model covers both:

1. **It builds the destination.** `href` starts as `props.href`, or `""` when
   that is absent or empty. Unless `dropUrlParams` is set or there is no
   router, it appends the current route's query string, `asPath.split('?')[1]`.
   The separator is `&` when `href` already holds a `?` and `?` otherwise.
   When the caller passes a non-empty `urlParams`, those parameters are merged
   over the query of `href`, and the caller's keys win. The same merge is
   applied to `as`, but only when `as` is non-empty.
2. **It picks one of six renderings.** An empty `href` gives the bare
   children. `withoutMaterial` gives a plain Next.js anchor. Otherwise a
   destination starting with `http://` or `https://` is external: a Material UI
   button or link that opens a new tab (`target="_blank"`) with
   `rel="noopener noreferrer"`. Every other destination is internal: a
   Material UI button or link routed through Next.js. `isButton` picks button
   over link, and links carry the underline style (`'always'` or `'none'`).

Files:

- `wrappers.dfy`: `Option`, the model of an `undefined` value.
- `strings.dfy`: `startsWith` and a `split` that behaves like JavaScript's
  with a one-character separator, with its round trip (`Join`) and its
  characterisation by the first occurrence of the separator.
- `query_string.dfy`: the `query-string` library, kept abstract. A query is a
  `map<string, string>`. The library's `parse`, `parseUrl` and `stringifyUrl`
  are values of a `Codec`. The one law assumed of them (`Lawful`): take the
  address part that `parseUrl` found, attach any query and stringify. The
  string starts with that address part, and parsing it gives back exactly that
  address part and that query. `Merge` is the spread `{ ...base, ...overrides }`.
- `link.dfy`: the component. The step functions (`InitialHref`,
  `AppendRouteQuery`, `MergeUrlParams`, `RewriteAs`, `Choose`) are the
  specification. The method `Link` reassigns `href` and `as` step by step, as
  the component does, then applies the pure render cascade `Choose`; it is
  proved equal to the composition of the specification functions.

The router is an input, `Option<Router>`, holding `asPath`. Flags the caller
leaves out are `false`, and a missing `urlParams` is `""`, as the component's
defaults make them.

Two consequences of the code are worth stating on their own:

- The route's query string is appended only when `dropUrlParams` is unset,
  a router exists, and `asPath.split('?')[1]` is non-empty
  (`AppendRouteQuery`, `AppendRouteQuerySegment`).
- When `props.href` is missing or empty, a router exists, `dropUrlParams`
  is unset, `urlParams` is empty and the route's query string `qs` is
  non-empty, the destination is `"?" + qs`, which renders an anchor rather
  than the bare children (`MissingHrefTakesRouteQuery`).

Two facts from the code that the model makes explicit: `as` reaches only the
plain anchor, since none of the Material UI renderings receive it. The
declared `target` property is never read, because external renderings always
get `"_blank"` and internal ones get none.

## Model

| member | source | states |
|---|---|---|
| `Strings.Split` | src/components/shared/link.tsx:63 | `split('?')` yields at least one piece and no piece contains the separator |
| `Strings.JoinSplit` | src/components/shared/link.tsx:63 | splitting loses nothing: joining the pieces with the separator gives the original string back |
| `Strings.SplitAtFirst` | src/components/shared/link.tsx:63 | the first piece is the text before the first separator; the remaining pieces are those of the text after it; there is a single piece exactly when the separator does not occur |
| `Link.RouteQuery` | src/components/shared/link.tsx:63 | the route's query string, when present, contains no `?` |
| `Link.RouteQueryBetweenMarks` | src/components/shared/link.tsx:63 | the route's query string is missing exactly when `asPath` has no `?`; otherwise it is the text between the first `?` and the next `?` or the end |
| `Link.InitialHref` | src/components/shared/link.tsx:58 | `href` starts as `props.href`, or `""` when absent |
| `Link.AppendRouteQuery` | src/components/shared/link.tsx:62-67 | the original `href` is always a prefix of the result; with `dropUrlParams` or without a router, `href` is unchanged |
| `Link.AppendRouteQuerySegment` | src/components/shared/link.tsx:62-66 | with a router and no `dropUrlParams`: an absent or empty route query leaves `href` unchanged; otherwise `href` becomes `href + "&" + qs` when it holds a `?`, and `href + "?" + qs` when it does not |
| `Link.AppendedQueryIsNotEmpty` | src/components/shared/link.tsx:58-66 | once a query string is appended, `href` is non-empty and contains a `?`, even when `props.href` was absent |
| `Link.AppendKeepsExternal` | src/components/shared/link.tsx:65-87 | appending the route's query never turns an external destination into an internal one |
| `QueryString.Merge` | src/components/shared/link.tsx:74 | right-biased merge: keys are the union; every override key takes the override value; every other key keeps its value |
| `QueryString.MergeIdempotent` | src/components/shared/link.tsx:74 | merging the same overrides twice equals merging them once |
| `QueryString.OverrideQuery` | src/components/shared/link.tsx:70-75 | the re-stringified address keeps its address part as a prefix and parses back to that part with the merged query |
| `QueryString.OverrideQueryIdempotent` | src/components/shared/link.tsx:69-75 | applying the same caller parameters twice yields the same string as applying them once |
| `Link.MergeUrlParams` | src/components/shared/link.tsx:69-75 | empty `urlParams` leaves `href` untouched and unparsed; otherwise the result keeps the address part, every `urlParams` key maps to its `urlParams` value, every other key keeps its prior value, and no other key appears |
| `Link.RewriteAs` | src/components/shared/link.tsx:59-83 | `as` is rewritten only when both `urlParams` and `as` are non-empty, with the same address-preserving override merge; otherwise it equals `props.as` |
| `Link.MergeKeepsExternal` | src/components/shared/link.tsx:72-87 | when the address part of `href` carries a network scheme, the merged `href` is still external |
| `Link.CallerParamsWinOverRouteQuery` | src/components/shared/link.tsx:62-75 | the caller's keys win even over keys just copied from the current route; every other key of the appended `href` keeps its value |
| `Link.MissingHrefTakesRouteQuery` | src/components/shared/link.tsx:58-91 | when `props.href` is missing or empty, a router exists, `dropUrlParams` is unset, `urlParams` is empty and the route query `qs` is non-empty, the destination is `"?" + qs` and the rendering is not bare children |
| `Link.DestinationHref` | src/components/shared/link.tsx:58-75 | the final `href`: without `urlParams` it is the initial `href` after the route-query append (so it starts with the initial `href`); with them it parses to the appended `href`'s address part and its query with the caller's parameters merged over it |
| `Link.IsExternal` | src/components/shared/link.tsx:87 | a destination is external when it starts with `http://` or `https://`; an external destination is never empty, and one that starts with `?` (a missing `href` plus the route's query) is internal |
| `Link.UnderlineStyle` | src/components/shared/link.tsx:88 | the underline style is `'always'` exactly when the `underline` flag is set |
| `Link.Choose` | src/components/shared/link.tsx:87-168 | bare children exactly when `href` is empty; the plain anchor exactly when `href` is non-empty and `withoutMaterial` is set, and only it receives `as`; external renderings exactly when `href` is non-empty, `withoutMaterial` is unset and `href` starts with `http://` or `https://`; a button exactly when `isButton` is set outside those first two cases; `target="_blank"` and `rel="noopener noreferrer"` exactly on the external renderings; the underline style exactly on the links |
| `Link.Link` | src/components/shared/link.tsx:39-168 | the component, reassigning `href` and `as` step by step, renders `Choose` of the final destination; a new-tab target or `rel` appears only on a destination with a network scheme |

## Left out

- `src/components/templates/header/header.tsx` is not part of this model. It is layout only: app bar, breakpoints, translated strings and ARIA attributes.
- `src/pages/[slug].tsx` is not part of this model. It is asynchronous CMS prefetching over generated GraphQL fetchers and a query cache.
- React rendering, `makeStyles` and `clsx` class names, and the Material UI and Next.js components. A rendering is an `Outcome` record, not a component tree.
- The props `children`, `className`, `onClick`, `color`, `size`, `variant`, `startIcon`, `endIcon` and `title` drive no decision. Which rendering receives each of them is not modelled: the plain anchor gets only `className` (combined with its base style) and `title`, the buttons alone get `variant`, `size`, `startIcon` and `endIcon`, and the Material UI renderings get `onClick` and `color`.
- The other Next.js link properties (`replace`, `scroll`, `shallow`, `prefetch`, `locale` and the like) are accepted by the component but forwarded to no rendering; the model has no field for them.
- `useRouter()` as framework state. The router is an input holding `asPath`.
- The internals of the `query-string` library: percent-encoding, key order, array and null values, and fragment (`#`) handling. Only the `Lawful` law is assumed, and no concrete codec is given.
- Link.MergeKeepsExternal: requires the network scheme to lie in the address part that `parseUrl` returns. The abstract codec does not say that this part is a prefix of the input, so the lemma cannot start from `href` alone.
