/** The dynamically typed values that the scene nodes read out of serialized
    JSON and keep in their fields, and the component list a node serializes
    to. */
module JsValues {
  import opened Strings

  /** A JavaScript value as JSON can carry it, plus `undefined`. */
  datatype Value =
    | Undefined
    | Null
    | Bool(b: bool)
    | Num(n: real)
    | Str(s: string)
    | Obj(fields: map<string, Value>)

  /** JavaScript truthiness (NaN is not representable here). */
  predicate Truthy(v: Value) {
    match v
    case Undefined => false
    case Null => false
    case Bool(b) => b
    case Num(n) => n != 0.0
    case Str(s) => s != ""
    case Obj(_) => true
  }

  /** `a || b` */
  function Or(a: Value, b: Value): (r: Value)
    ensures Truthy(r) <==> Truthy(a) || Truthy(b)
    ensures Truthy(a) ==> r == a
  {
    if Truthy(a) then a else b
  }

  /** `a && b` */
  function And(a: Value, b: Value): (r: Value)
    ensures Truthy(r) <==> Truthy(a) && Truthy(b)
    ensures !Truthy(a) ==> r == a
  {
    if Truthy(a) then b else a
  }

  /** Destructuring `const { k } = v` throws a TypeError exactly when `v` is
      `undefined` or `null`. */
  predicate Destructurable(v: Value) {
    !v.Undefined? && !v.Null?
  }

  /** `v.key` for a value that can be destructured: a missing property
      reads as `undefined`. */
  function Field(v: Value, key: string): Value {
    if v.Obj? && key in v.fields then v.fields[key] else Undefined
  }

  /** One entry of a node's serialized `components` array, or one glTF
      extension component added by `addGLTFComponent(name, props)`. */
  datatype Component = Component(name: string, props: Value)

  /** `components.find(c => c.name === name)`, as the index of the first
      component with that name. */
  function FindComponent(cs: seq<Component>, name: string): (r: Option<nat>)
    ensures r.Some? ==> r.value < |cs| && cs[r.value].name == name
    ensures r.Some? ==> forall j :: 0 <= j < r.value ==> cs[j].name != name
    ensures r.None? ==> forall j :: 0 <= j < |cs| ==> cs[j].name != name
  {
    if cs == [] then None
    else if cs[0].name == name then Some(0)
    else match FindComponent(cs[1..], name)
      case None => None
      case Some(i) => Some(i + 1)
  }

  /** `find` stops at the first component with the name. */
  lemma FindComponentAt(cs: seq<Component>, name: string, k: nat)
    requires k < |cs| && cs[k].name == name
    requires forall j :: 0 <= j < k ==> cs[j].name != name
    ensures FindComponent(cs, name) == Some(k)
  {
  }

  /** Components in front that carry other names do not change what
      `find` returns, only where it is. */
  lemma {:induction false} FindComponentAfter(front: seq<Component>, cs: seq<Component>, name: string)
    requires forall j :: 0 <= j < |front| ==> front[j].name != name
    ensures FindComponent(front + cs, name) ==
      match FindComponent(cs, name)
      case None => None
      case Some(i) => Some(|front| + i)
  {
    if front != [] {
      var all := front + cs;
      assert all[0] == front[0] && all[1..] == front[1..] + cs;
      FindComponentAfter(front[1..], cs, name);
      assert FindComponent(all, name) ==
        match FindComponent(all[1..], name)
        case None => None
        case Some(i) => Some(i + 1);
    } else {
      assert front + cs == cs;
    }
  }

}
