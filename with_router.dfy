/**
 * `withRouter` (modules/withRouter.js): wraps a component so that it receives
 * `router`, `params`, `location` and `routes` as props, taken from an explicit
 * `router` prop or from the nearest `RouterContext` provider.
 */
module WithRouter {
  import opened Elements
  import RouterContext

  /** The props `withRouter` injects, plus the `ref` it may add. */
  const InjectedKeys: set<string> := {"router", "params", "location", "routes", "ref"}

  /** The message of the invariant in `getWrappedInstance`. */
  const WrappedInstanceError: string :=
    "To access the wrapped instance, you need to specify `{ withRef: true }` as the second argument of the withRouter() call."

  /** `getDisplayName`: the first non-empty of `displayName`, `name` and "Component". */
  function GetDisplayName(c: Component): (r: string)
    ensures r != ""
    ensures c.displayName != "" ==> r == c.displayName
    ensures c.displayName == "" && c.name != "" ==> r == c.name
    ensures c.displayName == "" && c.name == "" ==> r == "Component"
  {
    if c.displayName != "" then c.displayName
    else if c.name != "" then c.name
    else "Component"
  }

  /** The component `withRouter(WrappedComponent, options)` returns. */
  datatype WithRouterComponent = WithRouterComponent(displayName: string, wrapped: Component, withRef: bool)

  /** `withRouter`: the wrapper's static `displayName`, `WrappedComponent` and `withRef` option. */
  function WithRouter(wrapped: Component, options: Value): (w: WithRouterComponent)
    ensures w.wrapped == wrapped
    ensures w.withRef <==> Truthy(options) && Truthy(Get(options, "withRef"))
    ensures w.displayName == "withRouter(" + GetDisplayName(wrapped) + ")"
  {
    WithRouterComponent(
      "withRouter(" + GetDisplayName(wrapped) + ")",
      wrapped,
      Truthy(options) && Truthy(Get(options, "withRef")))
  }

  /** The display name wraps the wrapped component's name, which can be read back. */
  lemma DisplayNameWrapsName(wrapped: Component, options: Value)
    ensures var n := WithRouter(wrapped, options).displayName;
            && |n| > 11
            && n[..11] == "withRouter("
            && n[|n| - 1] == ')'
            && n[11..|n| - 1] == GetDisplayName(wrapped)
  {
  }

  /** `this.props.router || context.router`. */
  function EffectiveRouter(props: Props, context: Value): (r: Value)
    ensures Truthy(Prop(props, "router")) ==> r == props["router"]
    ensures !Truthy(Prop(props, "router")) ==> r == Get(context, "router")
  {
    if Truthy(Prop(props, "router")) then props["router"] else Get(context, "router")
  }

  /**
   * The props the wrapped component is created with: the caller's props,
   * overridden by `router` and the router's `params`, `location` and
   * `routes`, plus the ref callback when `withRef` is set.
   */
  function InjectedProps(w: WithRouterComponent, props: Props, router: Value): Props
  {
    var p := props["router" := router]["params" := Get(router, "params")]
                  ["location" := Get(router, "location")]["routes" := Get(router, "routes")];
    if w.withRef then p["ref" := RefSetter] else p
  }

  /** `render`: the element the wrapper renders inside the context consumer. */
  function Render(w: WithRouterComponent, props: Props, context: Value): (e: Elem)
    ensures e.Created? && e.component == w.wrapped
    ensures !Truthy(EffectiveRouter(props, context)) ==> e.props == props
    ensures Truthy(EffectiveRouter(props, context)) ==>
              var router := EffectiveRouter(props, context);
              && "router" in e.props && e.props["router"] == router
              && "params" in e.props && e.props["params"] == Get(router, "params")
              && "location" in e.props && e.props["location"] == Get(router, "location")
              && "routes" in e.props && e.props["routes"] == Get(router, "routes")
              && (w.withRef ==> "ref" in e.props && e.props["ref"] == RefSetter)
              && (!w.withRef ==> ("ref" in e.props <==> "ref" in props))
    ensures forall k :: k !in InjectedKeys ==> (k in e.props <==> k in props)
    ensures forall k :: k !in InjectedKeys && k in props ==> e.props[k] == props[k]
  {
    var router := EffectiveRouter(props, context);
    if !Truthy(router) then Created(w.wrapped, props)
    else Created(w.wrapped, InjectedProps(w, props, router))
  }

  /**
   * Outside any router and without a `router` prop, the wrapped component
   * gets exactly the caller's props.
   */
  lemma OutsideRouterPassesPropsThrough(w: WithRouterComponent, props: Props)
    requires !Truthy(Prop(props, "router"))
    ensures Render(w, props, RouterContext.DefaultContext) == Created(w.wrapped, props)
  {
  }

  /**
   * Below a level of a `RouterContext` render, a wrapper without its own
   * `router` prop injects the carrier's router when that router is truthy.
   */
  lemma ConsumerSeesCarrierRouter(
    w: WithRouterComponent, props: Props,
    c: RouterContext.CarrierProps, host: RouterContext.Host, level: RouterContext.Level, inner: Elem)
    requires level.entry.Single? && !inner.Mapping?
    requires !Truthy(Prop(props, "router")) && Truthy(c.router)
    ensures var provider := RouterContext.Step(c, host, level, inner);
            var e := Render(w, props, Obj(provider.value));
            && "router" in e.props && e.props["router"] == c.router
            && "params" in e.props && e.props["params"] == Get(c.router, "params")
  {
  }

  /**
   * One mounted wrapper: the component it is an instance of and the wrapped
   * instance the ref callback last stored (`None` while it is undefined).
   */
  class WithRouterInstance {
    const component: WithRouterComponent
    var wrappedInstance: Option<Value>

    constructor(component: WithRouterComponent)
      ensures this.component == component
      ensures wrappedInstance == None
    {
      this.component := component;
      wrappedInstance := None;
    }

    /** `getWrappedInstance`: fails unless `withRef` was given. */
    method GetWrappedInstance() returns (r: Result<Option<Value>, string>)
      ensures r.Err? <==> !component.withRef
      ensures r.Err? ==> r.error == WrappedInstanceError
      ensures r.Ok? ==> r.value == wrappedInstance
    {
      if !component.withRef {
        return Err(WrappedInstanceError);
      }
      return Ok(wrappedInstance);
    }

    /** The ref callback: stores the wrapped instance React hands it. */
    method SetWrappedInstance(c: Value)
      modifies this
      ensures wrappedInstance == Some(c)
    {
      wrappedInstance := Some(c);
    }
  }
}
