# react-router v3: RouterContext and withRouter in Dafny

This project models the two pieces of react-router v3 that carry routing
state down a React tree.

- `RouterContext` renders a matched route chain. Its input is a `routes` array and an index-aligned
  `components` array. Each entry of `components` is absent, a single component, or an object of named
  slot components. A right-to-left fold (`reduceRight`) nests each level's output inside its parent's.
  Each single-component level gets its own `Context.Provider` that publishes that level's routing props.
  The result must be null or one element. It is wrapped in an outer provider that publishes all of the
  carrier's props.
- The same component keeps a listener list and an event index. Listeners register through the
  instance's own subscribe method. Neither context value the render publishes carries that method.
  Every props update bumps the index, and every committed update calls each listener with that index.
- `withRouter` wraps a component. The wrapped component receives `router`, `params`, `location` and
  `routes` as props. They come from an explicit `router` prop or from the nearest provider.

Files:

- `elements.dfy` (module `Elements`) holds the value universe. It has JavaScript values (`Value`, with
  truthiness and property access), React elements as a datatype
  (`Elem = Null | Provider | Created | Mapping`), the `components` entries (`Entry`), and
  `Option`/`Result`.
- `router_context.dfy` (module `RouterContext`) holds the render fold as pure functions over sequences.
  It also holds the subscription state as the class `RouterContext`, with `seq`/`nat` fields and
  lifecycle methods that the caller invokes in React's order.
- `with_router.dfy` (module `WithRouter`) holds the display name, the render-time prop merge, and a small
  class for the `wrappedInstance` field.

## Model

| member | source | states |
|---|---|---|
| `RouterContext.CreateElement` | modules/RouterContext.js:25-27 | a null component gives null; otherwise the result is exactly what the `createElement` prop returns for that component and props |
| `RouterContext.Attach` | modules/RouterContext.js:76-82 | an element accumulator becomes `children` and nothing else changes; a named-slot mapping has each of its keys copied in over the base keys, so it overrides same-named base keys, while base keys it does not name keep their values; a null accumulator leaves the props as they were |
| `RouterContext.SlotProps` | modules/RouterContext.js:94-96 | `{ key, ...props }` holds every prop unchanged plus `key`, and `key` is the slot name unless the props already hold one |
| `RouterContext.Step` | modules/RouterContext.js:61-108 | an absent entry returns the accumulator unchanged; a single entry gives one `Provider` whose value carries `location`, `params`, `route = routes[i]`, `router`, `routeParams = getRouteParams(routes[i], params)` and `routes` (unless a spread mapping overrode them), with the created element as its child; a named entry gives a `Mapping` with exactly the entry's slot names, each created with `{ key, ...props }`, null slots giving null |
| `RouterContext.CarrierProps.Published` | modules/RouterContext.js:117 | the outer provider's value `{ ...this.props }` holds the six declared props from their fields and every other prop the carrier was given, unchanged, and no other key |
| `RouterContext.Render` | modules/RouterContext.js:56-121 | render fails with "The root route must render a single element" exactly when the outermost non-null entry is named; otherwise it returns one outer `Provider` publishing all carrier props around the fold's result, and that result is null exactly when there are no components or all are null |
| `RouterContext.FoldShape` | modules/RouterContext.js:61-114 | the fold yields null, a provider or a mapping exactly when the outermost non-null entry is absent, single or named |
| `RouterContext.AbsentIsTransparent` | modules/RouterContext.js:61-63 | a null entry at any index is transparent: folding with that level removed gives the same tree |
| `RouterContext.FoldIgnoresAbsent` | modules/RouterContext.js:61-63 | folding all levels equals folding only the non-null ones |
| `RouterContext.ProvidersNestInRouteOrder` | modules/RouterContext.js:65-107 | with React's `createElement` and no named entries, the providers nest along `children` in route order (index 0 outermost); each publishes its own route, and their depth equals the number of non-null entries |
| `RouterContext.ProvidersChainInRouteOrder` | modules/RouterContext.js:65-107 | for any `createElement`, with no named entries the provider values chain through their `children` keys in route order (index 0 outermost), one per non-null entry, each publishing its own route |
| `RouterContext.MappingIsSpreadIntoParent` | modules/RouterContext.js:76-101 | a single entry directly outside a named one receives every named element as a prop of the same name, and no `children` unless a slot is called `children` |
| `RouterContext.OutermostNamedSlots` | modules/RouterContext.js:84-101 | when the outermost non-null entry is named, the fold is a mapping with exactly that entry's slot names |
| `RouterContext.EmptyComponentsRenderNull` | modules/RouterContext.js:58-120 | an empty `components` array renders the outer provider around null |
| `RouterContext.Without` | modules/RouterContext.js:50-52 | the filtered list no longer holds the removed listener and is no longer than before |
| `RouterContext.WithoutKeepsOthersInOrder` | modules/RouterContext.js:49-53 | unsubscribing removes exactly the occurrences of that listener (multiset) and keeps the others in their relative order (subsequence) |
| `RouterContext.WithoutAppend` | modules/RouterContext.js:50-52 | filtering a concatenation filters each part |
| `RouterContext.WithoutAbsent` | modules/RouterContext.js:50-52 | removing a listener that is not registered leaves the list unchanged |
| `RouterContext.SubscribeThenUnsubscribe` | modules/RouterContext.js:45-53 | subscribing a listener that is not yet registered and then calling its unsubscriber restores the list exactly |
| `RouterContext.UnsubscribeTwice` | modules/RouterContext.js:49-53 | calling the unsubscribe closure a second time changes nothing |
| `RouterContext.RouterContext.Mount` | modules/RouterContext.js:29-32 | after mount the listener list is empty and the event index is 0 |
| `RouterContext.RouterContext.ReceiveProps` | modules/RouterContext.js:35-37 | each incoming props update raises the event index by exactly 1 and leaves the listeners unchanged |
| `RouterContext.RouterContext.DidUpdate` | modules/RouterContext.js:39-43 | every registered listener is called exactly once per registration, in insertion order, with the current event index; neither the list nor the index changes |
| `RouterContext.RouterContext.Subscribe` | modules/RouterContext.js:45-54 | the listener is appended at the end without being called and the index is untouched; the returned unsubscriber is for that listener |
| `RouterContext.RouterContext.Unsubscribe` | modules/RouterContext.js:49-53 | the list becomes the old list with every occurrence of the listener filtered out; the index is untouched |
| `WithRouter.GetDisplayName` | modules/withRouter.js:8-10 | the first non-empty of `displayName`, `name` and `"Component"`, never empty |
| `WithRouter.WithRouter` | modules/withRouter.js:12-54 | the wrapper's display name is `withRouter(` + the wrapped component's display name + `)`; it records the wrapped component; `withRef` holds exactly when `options && options.withRef` is truthy |
| `WithRouter.DisplayNameWrapsName` | modules/withRouter.js:53 | the wrapper's display name starts with `withRouter(`, ends with `)`, and the wrapped name can be read back from between them |
| `WithRouter.EffectiveRouter` | modules/withRouter.js:34 | the explicit `router` prop when truthy, otherwise the context's `router` |
| `WithRouter.Render` | modules/withRouter.js:30-50 | the wrapped component is always the one created; with no effective router it receives exactly the caller's props; with one it receives `router` and the router's `params`, `location` and `routes`, which override caller values; a ref is added only when `withRef` is set; every other caller prop passes through unchanged in both branches |
| `WithRouter.OutsideRouterPassesPropsThrough` | modules/withRouter.js:34-37 | with no provider above (the context's default value is the context-name string) and no `router` prop, the wrapped component gets exactly the caller's props |
| `WithRouter.ConsumerSeesCarrierRouter` | modules/withRouter.js:34-40 | below a single-component level of a `RouterContext` render, when the inner result is not a named-slot mapping, a wrapper without its own `router` prop injects the carrier's router and that router's params |
| `WithRouter.WithRouterInstance.constructor` | modules/withRouter.js:20-28 | a new wrapper has no wrapped instance yet (undefined) |
| `WithRouter.WithRouterInstance.GetWrappedInstance` | modules/withRouter.js:20-28 | fails with the `withRef` message exactly when `withRef` was not requested; otherwise returns the stored instance, which is undefined before any ref callback |
| `WithRouter.WithRouterInstance.SetWrappedInstance` | modules/withRouter.js:42-44 | the ref callback stores the instance it is handed |

## Left out

- React itself is not modelled: context propagation, element creation and lifecycle scheduling. A
  `Provider` and a created element are datatype constructors. The lifecycle hooks are methods that
  the caller invokes in React's order (`Mount`, then `ReceiveProps` and `DidUpdate` for each update).
  Unmounting discards the instance, and nothing in the source runs on it.
- `getRouteParams` is not part of this model. It is the `Host.getRouteParams` parameter, so route
  params are stated only as "what `getRouteParams` returns for `routes[i]` and `params`".
- `isReactChildren`, `isValidElementType` and `React.isValidElement` are not part of this model. The
  `Elem` and `Entry` tags stand in for them. A provider or created element counts as children, a
  mapping is spread, and null adds nothing.
- `RouterContext.Attach`: react-router's `isReactChildren` also accepts null. The program then sets
  `children: null` at the innermost present level: in that level's props, in every slot's
  `{ key, ...props }` there, and in that level's published value. The model adds no `children` key
  there. A route component with `defaultProps.children`, or one that tests `'children' in props`,
  sees the difference.
- `RouterContext.ProvidersNestInRouteOrder` reads the nesting through the created elements, so it is
  stated only for React's default `createElement`. A custom `createElement` prop (`Host.create`) may
  return any element. `RouterContext.ProvidersChainInRouteOrder` states the route order for any
  `createElement`, through the provider values' `children` keys.
- Listeners are identified by number. What a listener does when called is not modelled, so
  `DidUpdate` returns the calls it makes.
- Subscribing or unsubscribing while a notification is running is not modelled. `forEach` keeps
  walking the old array after the unsubscribe closure replaces it.
- Mismatched `routes`/`components` lengths are modelled as the code behaves, not rejected. A missing
  `routes[index]` reads as undefined (`RouteAt`), and extra routes are never visited.
- The `element === false` case of the root invariant is not modelled, because the fold never
  produces `false`.
- React does not pass `ref` or `key` on to the component as props: `createElement` moves them onto
  the element. The model keeps both in the created element's props: `ref` holds the callback that
  `SetWrappedInstance` models, and `key` is the slot name that `SlotProps` adds.
- prop-types validation (modules/RouterContext.js:124-131, modules/withRouter.js:18) is not modelled,
  and neither are `createReactClass` or `hoist-non-react-statics` (modules/withRouter.js:56). The
  wrapped component's other statics are not copied in the model.
- The string-built field names (modules/RouterContext.js:13-20) become plain fields. The context
  name is kept only because it is the context's default value.
- `RouterContext.CarrierProps.Published`: a missing or null `components` prop is published as a
  `components` key holding undefined. In the program, `{ ...this.props }` has no such key when the
  prop is missing and holds null when it is null.
- A component's `displayName` and `name` are strings, and "" stands for absent or falsy. Other falsy
  JavaScript values are not distinguished.
