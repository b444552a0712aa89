/**
 * The values the routing layer passes around: JavaScript values as far as
 * this core inspects them, React elements as an explicit datatype, and the
 * entries of the `components` array a route match produces.
 */
module Elements {

  datatype Option<+T> = None | Some(value: T)

  /** The outcome of an operation that may throw a developer-facing invariant error. */
  datatype Result<+T, +E> = Ok(value: T) | Err(error: E)

  /**
   * A component type (what React calls an element type), identified by `id`.
   * `displayName` and `name` are its static properties; "" stands for an
   * absent or otherwise falsy property.
   */
  datatype Component = Component(id: nat, displayName: string, name: string)

  /** A props object or a context value: property name to value. */
  type Props = map<string, Value>

  /**
   * A JavaScript value. JavaScript `null` is `El(Null)`; objects this core
   * only passes along (a location, a route, the history object, a listener
   * or callback) are `Handle`s, compared by identity.
   */
  datatype Value =
    | Undefined
    | Bool(b: bool)
    | Num(n: int)
    | Str(s: string)
    | Handle(id: nat)
    | Obj(fields: Props)
    | Arr(items: seq<Value>)
    | El(elem: Elem)
    | Entries(entries: seq<Entry>)
    | RefSetter

  /**
   * What a render produces. `Provider` is `<Context.Provider value={value}>`
   * around one child, `Created` is the element `createElement(component, props)`
   * returns, and `Mapping` is a plain object of named elements, which React
   * does not accept as an element.
   */
  datatype Elem =
    | Null
    | Provider(value: Props, child: Elem)
    | Created(component: Component, props: Props)
    | Mapping(slots: map<string, Elem>)

  /**
   * One entry of the `components` array: absent (null), a single component,
   * or an object mapping slot names to components (a slot may hold null).
   */
  datatype Entry =
    | Absent
    | Single(component: Component)
    | Named(slots: map<string, Option<Component>>)

  /** JavaScript truthiness. */
  predicate Truthy(v: Value)
  {
    match v
    case Undefined => false
    case Bool(b) => b
    case Num(n) => n != 0
    case Str(s) => s != ""
    case El(e) => !e.Null?
    case _ => true
  }

  /** Property access `v.key`: undefined unless `v` is an object holding `key`. */
  function Get(v: Value, key: string): Value
  {
    if v.Obj? && key in v.fields then v.fields[key] else Undefined
  }

  /** Property access on a props object. */
  function Prop(p: Props, key: string): Value
  {
    if key in p then p[key] else Undefined
  }

  /** `React.isValidElement`: a context provider or a created element. */
  predicate IsValidElement(e: Elem)
  {
    e.Provider? || e.Created?
  }
}
