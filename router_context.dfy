/**
 * `RouterContext` (modules/RouterContext.js): renders a matched route chain
 * into one nested element tree, publishing routing context at every level,
 * and calls the listeners registered with an instance after each update.
 */
module RouterContext {
  import opened Elements

  /** The name the context is created under. */
  const ContextName: string := "@@contextSubscriber/router"

  /**
   * What `Context` yields below no provider: `React.createContext` was given
   * the context name as its default value.
   */
  const DefaultContext: Value := Str(ContextName)

  /** The message of the invariant that checks the fold's result. */
  const RootError: string := "The root route must render a single element"

  /**
   * The props of a `RouterContext`. `components` is `None` when the prop is
   * missing or null; `createElement` is the prop as a value, and the function
   * it denotes is `Host.create`; `others` holds every other prop it was given.
   */
  datatype CarrierProps = CarrierProps(
    location: Value,
    routes: seq<Value>,
    params: Value,
    components: Option<seq<Entry>>,
    router: Value,
    createElement: Value,
    others: Props)
  {
    /**
     * `{ ...this.props }`: the value the outermost provider publishes, every
     * prop the carrier was given.
     */
    function Published(): (p: Props)
      ensures p.Keys == others.Keys + DeclaredProps
      ensures forall k :: k in others && k !in DeclaredProps ==> p[k] == others[k]
      ensures p["location"] == location && p["routes"] == Arr(routes) && p["params"] == params
      ensures p["router"] == router && p["createElement"] == createElement
      ensures components.Some? ==> p["components"] == Entries(components.value)
    {
      others + map[
        "location" := location,
        "routes" := Arr(routes),
        "params" := params,
        "components" := (if components.Some? then Entries(components.value) else Undefined),
        "router" := router,
        "createElement" := createElement]
    }
  }

  /** The props a `RouterContext` declares. */
  const DeclaredProps: set<string> := {"location", "routes", "params", "components", "router", "createElement"}

  /**
   * The collaborators the render calls: `getRouteParams` (not part of this
   * model) and the function held by the `createElement` prop.
   */
  datatype Host = Host(getRouteParams: (Value, Value) -> Value, create: (Component, Props) -> Elem)

  /** React's own `createElement`, the default of the `createElement` prop. */
  function DefaultCreate(component: Component, props: Props): Elem
  {
    Created(component, props)
  }

  /** One step of the fold: `components[index]` and `routes[index]`. */
  datatype Level = Level(entry: Entry, route: Value)

  /** `routes[index]`, which JavaScript reads as undefined past the end. */
  function RouteAt(routes: seq<Value>, i: nat): Value
  {
    if i < |routes| then routes[i] else Undefined
  }

  /** The levels `reduceRight` visits, index-aligned with `routes`. */
  function Levels(components: seq<Entry>, routes: seq<Value>): seq<Level>
  {
    seq(|components|, i requires 0 <= i < |components| => Level(components[i], RouteAt(routes, i)))
  }

  /** The per-level props every non-absent entry starts from. */
  function BaseProps(c: CarrierProps, host: Host, route: Value): Props
  {
    map[
      "location" := c.location,
      "params" := c.params,
      "route" := route,
      "router" := c.router,
      "routeParams" := host.getRouteParams(route, c.params),
      "routes" := Arr(c.routes)]
  }

  /** A props object that holds the per-level keys for `route`. */
  ghost predicate PublishesLevel(p: Props, c: CarrierProps, host: Host, route: Value)
  {
    && "location" in p && p["location"] == c.location
    && "params" in p && p["params"] == c.params
    && "route" in p && p["route"] == route
    && "router" in p && p["router"] == c.router
    && "routeParams" in p && p["routeParams"] == host.getRouteParams(route, c.params)
    && "routes" in p && p["routes"] == Arr(c.routes)
  }

  /** The named elements of a mapping as own properties of an object. */
  function SlotValues(slots: map<string, Elem>): (p: Props)
    ensures p.Keys == slots.Keys
    ensures forall k :: k in slots ==> p[k] == El(slots[k])
  {
    map k | k in slots :: El(slots[k])
  }

  /**
   * Where the inner result goes: an element becomes `children`; a mapping of
   * named elements has its own keys copied over the base keys; null adds
   * nothing.
   */
  function Attach(base: Props, inner: Elem): (props: Props)
    ensures IsValidElement(inner) ==> props == base["children" := El(inner)]
    ensures inner.Null? ==> props == base
    ensures inner.Mapping? ==> props.Keys == base.Keys + inner.slots.Keys
    ensures inner.Mapping? ==> forall k :: k in inner.slots ==> props[k] == El(inner.slots[k])
    ensures inner.Mapping? ==> forall k :: k in base && k !in inner.slots ==> props[k] == base[k]
  {
    if IsValidElement(inner) then base["children" := El(inner)]
    else if Truthy(El(inner)) then base + SlotValues(inner.slots)
    else base
  }

  /** The `createElement` method: null for a null component. */
  function CreateElement(host: Host, component: Option<Component>, props: Props): (e: Elem)
    ensures component.None? ==> e.Null?
    ensures component.Some? ==> e == host.create(component.value, props)
  {
    if component.None? then Null else host.create(component.value, props)
  }

  /** The props a named slot `key` is created with: `{ key, ...props }`. */
  function SlotProps(key: string, props: Props): (p: Props)
    ensures p.Keys == props.Keys + {"key"}
    ensures forall k :: k in props ==> p[k] == props[k]
    ensures "key" !in props ==> p["key"] == Str(key)
  {
    map["key" := Str(key)] + props
  }

  /** The reducer: folds one level around the result of the inner levels. */
  function Step(c: CarrierProps, host: Host, level: Level, inner: Elem): (r: Elem)
    ensures level.entry.Absent? ==> r == inner
    ensures level.entry.Single? ==>
              && r.Provider?
              && r.value == Attach(BaseProps(c, host, level.route), inner)
              && (!inner.Mapping? ==> PublishesLevel(r.value, c, host, level.route))
              && r.child == host.create(level.entry.component, r.value)
    ensures level.entry.Named? ==>
              && r.Mapping?
              && r.slots.Keys == level.entry.slots.Keys
              && forall k :: k in r.slots ==>
                   r.slots[k] == CreateElement(host, level.entry.slots[k],
                                               SlotProps(k, Attach(BaseProps(c, host, level.route), inner)))
  {
    match level.entry
    case Absent => inner
    case Named(slots) =>
      var props := Attach(BaseProps(c, host, level.route), inner);
      Mapping(map key | key in slots :: CreateElement(host, slots[key], SlotProps(key, props)))
    case Single(component) =>
      var props := Attach(BaseProps(c, host, level.route), inner);
      Provider(props, CreateElement(host, Some(component), props))
  }

  /** `reduceRight` with initial value null: the last level is folded first. */
  function Fold(c: CarrierProps, host: Host, levels: seq<Level>): Elem
  {
    if levels == [] then Null else Step(c, host, levels[0], Fold(c, host, levels[1..]))
  }

  /** The fold's result; a missing `components` prop leaves it null. */
  function Tree(c: CarrierProps, host: Host): Elem
  {
    if c.components.Some? then Fold(c, host, Levels(c.components.value, c.routes)) else Null
  }

  /** The first entry that is not absent, outermost first; `Absent` if there is none. */
  function Outermost(levels: seq<Level>): Entry
  {
    if levels == [] then Absent
    else if levels[0].entry.Absent? then Outermost(levels[1..])
    else levels[0].entry
  }

  /** The levels whose entry is not absent, in order. */
  function Present(levels: seq<Level>): seq<Level>
  {
    if levels == [] then []
    else if levels[0].entry.Absent? then Present(levels[1..])
    else [levels[0]] + Present(levels[1..])
  }

  /**
   * `render`: folds the levels, rejects a result that is not null or a single
   * element, and wraps it in the outermost provider.
   */
  function Render(c: CarrierProps, host: Host): (r: Result<Elem, string>)
    ensures r.Err? <==> c.components.Some? && Outermost(Levels(c.components.value, c.routes)).Named?
    ensures r.Err? ==> r.error == RootError
    ensures r.Ok? ==> r.value.Provider? && r.value.value == c.Published() && r.value.child == Tree(c, host)
    ensures r.Ok? ==> (r.value.child.Null? <==> c.components.None? || Outermost(Levels(c.components.value, c.routes)).Absent?)
  {
    if c.components.Some? then FoldShape(c, host, Levels(c.components.value, c.routes)); RenderTree(c, host)
    else RenderTree(c, host)
  }

  /** The check and the outer provider, applied to the fold's result. */
  function RenderTree(c: CarrierProps, host: Host): Result<Elem, string>
  {
    var element := Tree(c, host);
    if element.Null? || IsValidElement(element) then Ok(Provider(c.Published(), element))
    else Err(RootError)
  }

  /** The fold's result is null, a provider or a mapping as the outermost present entry is absent, single or named. */
  lemma {:induction false} FoldShape(c: CarrierProps, host: Host, levels: seq<Level>)
    ensures Fold(c, host, levels).Null? <==> Outermost(levels).Absent?
    ensures Fold(c, host, levels).Provider? <==> Outermost(levels).Single?
    ensures Fold(c, host, levels).Mapping? <==> Outermost(levels).Named?
  {
    if levels != [] {
      FoldShape(c, host, levels[1..]);
    }
  }

  /** An absent entry is transparent: folding without that level gives the same tree. */
  lemma {:induction false} AbsentIsTransparent(c: CarrierProps, host: Host, levels: seq<Level>, k: nat)
    requires k < |levels| && levels[k].entry.Absent?
    ensures Fold(c, host, levels) == Fold(c, host, levels[..k] + levels[k + 1..])
  {
    var skipped := levels[..k] + levels[k + 1..];
    if k == 0 {
      assert skipped == levels[1..];
    } else {
      AbsentIsTransparent(c, host, levels[1..], k - 1);
      assert skipped[0] == levels[0];
      assert skipped[1..] == levels[1..][..k - 1] + levels[1..][k..];
    }
  }

  /** Folding every level gives the same tree as folding only the present ones. */
  lemma {:induction false} FoldIgnoresAbsent(c: CarrierProps, host: Host, levels: seq<Level>)
    ensures Fold(c, host, levels) == Fold(c, host, Present(levels))
  {
    if levels != [] {
      FoldIgnoresAbsent(c, host, levels[1..]);
      if !levels[0].entry.Absent? {
        assert ([levels[0]] + Present(levels[1..]))[1..] == Present(levels[1..]);
      }
    }
  }

  /**
   * The providers on the `children` path of a tree built with React's
   * `createElement`, outermost first: the component each one wraps and the
   * route it publishes.
   */
  function Nesting(e: Elem): seq<(Component, Value)>
  {
    match e
    case Provider(value, Created(component, props)) =>
      [(component, Prop(value, "route"))]
      + (if "children" in props && props["children"].El? then Nesting(props["children"].elem) else [])
    case _ => []
  }

  /** The component and route of every single-component level, in route order. */
  function Producers(levels: seq<Level>): (ps: seq<(Component, Value)>)
    ensures |ps| <= |levels|
  {
    if levels == [] then []
    else if levels[0].entry.Single? then [(levels[0].entry.component, levels[0].route)] + Producers(levels[1..])
    else Producers(levels[1..])
  }

  /** True when no level holds a mapping of named components. */
  predicate NoNamedEntries(levels: seq<Level>)
  {
    forall i :: 0 <= i < |levels| ==> !levels[i].entry.Named?
  }

  /**
   * With only single or absent entries, the providers nest in route order,
   * index 0 outermost, one per present entry, each publishing its own route.
   */
  lemma {:induction false} ProvidersNestInRouteOrder(c: CarrierProps, getRouteParams: (Value, Value) -> Value, levels: seq<Level>)
    requires NoNamedEntries(levels)
    ensures Nesting(Fold(c, Host(getRouteParams, DefaultCreate), levels)) == Producers(levels)
    ensures |Nesting(Fold(c, Host(getRouteParams, DefaultCreate), levels))| == |Present(levels)|
  {
    var host := Host(getRouteParams, DefaultCreate);
    if levels != [] {
      assert NoNamedEntries(levels[1..]) by {
        forall i | 0 <= i < |levels[1..]| ensures !levels[1..][i].entry.Named? {
          assert levels[1..][i] == levels[i + 1];
        }
      }
      ProvidersNestInRouteOrder(c, getRouteParams, levels[1..]);
      if levels[0].entry.Single? {
        var inner := Fold(c, host, levels[1..]);
        FoldShape(c, host, levels[1..]);
        NoNamedMeansOutermostNotNamed(levels[1..]);
        if inner.Null? {
          AllAbsentHasNoLevels(levels[1..]);
        }
      }
    }
  }

  /**
   * The routes published along the `children` keys of the provider values,
   * outermost first. It does not look into created elements, so it reads the
   * same chain whatever `createElement` returns.
   */
  function PublishedRoutes(e: Elem): seq<Value>
  {
    match e
    case Provider(value, _) =>
      [Prop(value, "route")]
      + (if "children" in value && value["children"].El? then PublishedRoutes(value["children"].elem) else [])
    case _ => []
  }

  /** The route of every present level, in route order. */
  function PresentRoutes(levels: seq<Level>): (rs: seq<Value>)
    ensures |rs| == |Present(levels)|
  {
    if levels == [] then []
    else if levels[0].entry.Absent? then PresentRoutes(levels[1..])
    else [levels[0].route] + PresentRoutes(levels[1..])
  }

  /**
   * For any `createElement`, with no named entries the provider values chain
   * through `children` in route order, index 0 outermost, one per present entry.
   */
  lemma {:induction false} ProvidersChainInRouteOrder(c: CarrierProps, host: Host, levels: seq<Level>)
    requires NoNamedEntries(levels)
    ensures PublishedRoutes(Fold(c, host, levels)) == PresentRoutes(levels)
  {
    if levels != [] {
      assert NoNamedEntries(levels[1..]) by {
        forall i | 0 <= i < |levels[1..]| ensures !levels[1..][i].entry.Named? {
          assert levels[1..][i] == levels[i + 1];
        }
      }
      ProvidersChainInRouteOrder(c, host, levels[1..]);
      if levels[0].entry.Single? {
        FoldShape(c, host, levels[1..]);
        NoNamedMeansOutermostNotNamed(levels[1..]);
        if Fold(c, host, levels[1..]).Null? {
          AllAbsentHasNoLevels(levels[1..]);
        }
      }
    }
  }

  /** Without named entries the outermost present entry is not named. */
  lemma {:induction false} NoNamedMeansOutermostNotNamed(levels: seq<Level>)
    requires NoNamedEntries(levels)
    ensures !Outermost(levels).Named?
  {
    if levels != [] && levels[0].entry.Absent? {
      assert NoNamedEntries(levels[1..]) by {
        forall i | 0 <= i < |levels[1..]| ensures !levels[1..][i].entry.Named? {
          assert levels[1..][i] == levels[i + 1];
        }
      }
      NoNamedMeansOutermostNotNamed(levels[1..]);
    }
  }

  /** When every entry is absent there are no producers and nothing is present. */
  lemma {:induction false} AllAbsentHasNoLevels(levels: seq<Level>)
    requires Outermost(levels).Absent?
    ensures Producers(levels) == [] && Present(levels) == [] && PresentRoutes(levels) == []
  {
    if levels != [] {
      AllAbsentHasNoLevels(levels[1..]);
    }
  }

  /**
   * A single entry directly outside a named one receives the named elements
   * as its own props, not as `children`.
   */
  lemma {:induction false} MappingIsSpreadIntoParent(c: CarrierProps, host: Host, levels: seq<Level>)
    requires |levels| >= 1 && levels[0].entry.Single? && Outermost(levels[1..]).Named?
    ensures Fold(c, host, levels[1..]).Mapping?
    ensures Fold(c, host, levels[1..]).slots.Keys == Outermost(levels[1..]).slots.Keys
    ensures Fold(c, host, levels).Provider?
    ensures var p := Fold(c, host, levels).value;
            var m := Fold(c, host, levels[1..]).slots;
            && (forall k :: k in m ==> k in p && p[k] == El(m[k]))
            && ("children" in p <==> "children" in m)
  {
    FoldShape(c, host, levels[1..]);
    OutermostNamedSlots(c, host, levels[1..]);
  }

  /** A named outermost entry gives a mapping with exactly its slot names. */
  lemma {:induction false} OutermostNamedSlots(c: CarrierProps, host: Host, levels: seq<Level>)
    requires Outermost(levels).Named?
    ensures Fold(c, host, levels).Mapping?
    ensures Fold(c, host, levels).slots.Keys == Outermost(levels).slots.Keys
  {
    if levels[0].entry.Absent? {
      OutermostNamedSlots(c, host, levels[1..]);
    }
  }

  /** An empty `components` array renders the outer provider around null. */
  lemma EmptyComponentsRenderNull(c: CarrierProps, host: Host)
    requires c.components == Some([])
    ensures Render(c, host) == Ok(Provider(c.Published(), Null))
  {
  }

  /** Identifies a listener; JavaScript compares listeners by identity. */
  type ListenerId = nat

  /** One listener invocation: `listener(eventIndex)`. */
  datatype Call = Call(listener: ListenerId, eventIndex: nat)

  /** The closure `subscribe` returns; it removes `listener` when invoked. */
  datatype Unsubscriber = Unsubscriber(listener: ListenerId)

  /** The listener list with every occurrence of `x` filtered out. */
  function Without(s: seq<ListenerId>, x: ListenerId): (r: seq<ListenerId>)
    ensures x !in r
    ensures |r| <= |s|
  {
    if s == [] then []
    else if s[0] == x then Without(s[1..], x)
    else [s[0]] + Without(s[1..], x)
  }

  /** `sub` is `s` with some elements left out, the rest in their order. */
  ghost predicate IsSubsequence(sub: seq<ListenerId>, s: seq<ListenerId>)
    decreases |s|
  {
    if sub == [] then true
    else if s == [] then false
    else if sub[0] == s[0] then IsSubsequence(sub[1..], s[1..])
    else IsSubsequence(sub, s[1..])
  }

  /**
   * Unsubscribing keeps the other listeners in their relative order and
   * removes exactly the occurrences of `x`.
   */
  lemma {:induction false} WithoutKeepsOthersInOrder(s: seq<ListenerId>, x: ListenerId)
    ensures IsSubsequence(Without(s, x), s)
    ensures multiset(Without(s, x)) == multiset(s)[x := 0]
  {
    if s != [] {
      WithoutKeepsOthersInOrder(s[1..], x);
      assert s == [s[0]] + s[1..];
      if s[0] != x {
        var r := Without(s, x);
        assert r[0] == s[0] && r[1..] == Without(s[1..], x);
      }
    }
  }

  /** Filtering distributes over concatenation. */
  lemma {:induction false} WithoutAppend(a: seq<ListenerId>, b: seq<ListenerId>, x: ListenerId)
    ensures Without(a + b, x) == Without(a, x) + Without(b, x)
  {
    if a != [] {
      WithoutAppend(a[1..], b, x);
      assert (a + b)[1..] == a[1..] + b;
    } else {
      assert a + b == b;
    }
  }

  /** Removing a listener that is not registered changes nothing. */
  lemma {:induction false} WithoutAbsent(s: seq<ListenerId>, x: ListenerId)
    requires x !in s
    ensures Without(s, x) == s
  {
    if s != [] {
      WithoutAbsent(s[1..], x);
      assert s == [s[0]] + s[1..];
    }
  }

  /** Subscribing a new listener and then unsubscribing it restores the list. */
  lemma {:induction false} SubscribeThenUnsubscribe(s: seq<ListenerId>, x: ListenerId)
    requires x !in s
    ensures Without(s + [x], x) == s
  {
    WithoutAppend(s, [x], x);
    WithoutAbsent(s, x);
    assert Without([x], x) == [];
  }

  /** Calling an unsubscriber a second time changes nothing. */
  lemma UnsubscribeTwice(s: seq<ListenerId>, x: ListenerId)
    ensures Without(Without(s, x), x) == Without(s, x)
  {
    WithoutAbsent(Without(s, x), x);
  }

  /**
   * The subscription state of one `RouterContext` instance: the listeners
   * registered through its subscribe method and the index of the latest
   * props update. The subscribe method belongs to the instance; neither
   * context value the render publishes carries it.
   */
  class RouterContext {
    var listeners: seq<ListenerId>
    var eventIndex: nat

    /** `UNSAFE_componentWillMount`: no listeners, index 0. */
    constructor Mount()
      ensures listeners == [] && eventIndex == 0
    {
      listeners := [];
      eventIndex := 0;
    }

    /** `UNSAFE_componentWillReceiveProps`: one more update, same listeners. */
    method ReceiveProps()
      modifies this
      ensures eventIndex == old(eventIndex) + 1
      ensures listeners == old(listeners)
    {
      eventIndex := eventIndex + 1;
    }

    /**
     * `componentDidUpdate`: calls every listener once, in the order they
     * subscribed, with the current index; returns the calls made.
     */
    method DidUpdate() returns (calls: seq<Call>)
      ensures |calls| == |listeners|
      ensures forall i :: 0 <= i < |calls| ==> calls[i] == Call(listeners[i], eventIndex)
    {
      calls := [];
      var i := 0;
      while i < |listeners|
        invariant 0 <= i <= |listeners|
        invariant |calls| == i
        invariant forall j :: 0 <= j < i ==> calls[j] == Call(listeners[j], eventIndex)
      {
        calls := calls + [Call(listeners[i], eventIndex)];
        i := i + 1;
      }
    }

    /** The subscribe function: appends the listener without calling it. */
    method Subscribe(listener: ListenerId) returns (u: Unsubscriber)
      modifies this
      ensures listeners == old(listeners) + [listener]
      ensures eventIndex == old(eventIndex)
      ensures u.listener == listener
    {
      listeners := listeners + [listener];
      u := Unsubscriber(listener);
    }

    /** Invoking the closure `Subscribe` returned: filters its listener out. */
    method Unsubscribe(u: Unsubscriber)
      modifies this
      ensures listeners == Without(old(listeners), u.listener)
      ensures u.listener !in listeners
      ensures eventIndex == old(eventIndex)
    {
      listeners := Without(listeners, u.listener);
    }
  }

  /** One update cycle as React drives it, with two subscribers. */
  method UpdateCycleExample(a: ListenerId, b: ListenerId)
    requires a != b
  {
    var rc := new RouterContext.Mount();
    var ua := rc.Subscribe(a);
    var ub := rc.Subscribe(b);
    rc.ReceiveProps();
    var calls := rc.DidUpdate();
    assert calls == [Call(a, 1), Call(b, 1)];
    rc.Unsubscribe(ua);
    assert rc.listeners == [b];
    rc.Unsubscribe(ua);
    assert rc.listeners == [b];
    rc.ReceiveProps();
    calls := rc.DidUpdate();
    assert calls == [Call(b, 2)];
  }
}
