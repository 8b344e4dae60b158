/** The editor's shared-screen node: a colour and an opacity, kept in one
    `shared-screen` component. */
module SharedScreenNodes {
  import opened Strings
  import opened JsValues

  const ComponentName := "shared-screen"
  const DefaultColor := Str("#31343A")
  const DefaultOpacity := Num(1.0)

  /** The fields a shared-screen node serializes. */
  datatype ScreenState = ScreenState(color: Value, opacity: Value)

  /** `deserialize` throws a TypeError when there is no `shared-screen`
      component or its props cannot be destructured. */
  datatype NodeError = MissingScreenProps

  class SharedScreenNode {
    var color: Value
    var opacity: Value

    function State(): ScreenState
      reads this
    {
      ScreenState(color, opacity)
    }

    constructor()
      ensures State() == ScreenState(DefaultColor, DefaultOpacity)
    {
      color := DefaultColor;
      opacity := DefaultOpacity;
    }

    /** `copy(source)` adds nothing to what the node's base objects copy. */
    method Copy(source: SharedScreenNode) returns (r: SharedScreenNode)
      modifies this
      ensures r == this && State() == old(State())
    {
      return this;
    }

    /** `SharedScreenNode.deserialize(editor, json)` */
    static method Deserialize(cs: seq<Component>) returns (r: Result<SharedScreenNode, NodeError>)
      ensures Deserialized(cs).Err? ==> r == Err(Deserialized(cs).error)
      ensures Deserialized(cs).Ok? ==> r.Ok? && fresh(r.value) && r.value.State() == Deserialized(cs).value
    {
      var node := new SharedScreenNode();
      var i := FindComponent(cs, ComponentName);
      if i.None? || !Destructurable(cs[i.value].props) {
        return Err(MissingScreenProps);
      }
      var props := cs[i.value].props;
      node.color := Field(props, "color");
      node.opacity := Field(props, "opacity");
      return Ok(node);
    }
  }

  /** `serialize()`: the one component the node adds to its entity. */
  function Serialize(s: ScreenState): seq<Component> {
    [Component(ComponentName, Obj(map["color" := s.color, "opacity" := s.opacity]))]
  }

  /** What `deserialize` reads out of an entity's components: the colour
      and opacity of the first `shared-screen` component. */
  function Deserialized(cs: seq<Component>): Result<ScreenState, NodeError> {
    match FindComponent(cs, ComponentName)
    case None => Err(MissingScreenProps)
    case Some(i) =>
      var props := cs[i].props;
      if Destructurable(props) then Ok(ScreenState(Field(props, "color"), Field(props, "opacity")))
      else Err(MissingScreenProps)
  }

  /** `prepareForExport()`: a `shared-screen` glTF component with no props. */
  function ExportComponents(): seq<Component> {
    [Component(ComponentName, Undefined)]
  }

  /** The export names the component as `deserialize` looks it up, and
      carries neither the colour nor the opacity. */
  lemma ExportComponentsSpec()
    ensures FindComponent(ExportComponents(), ComponentName) == Some(0)
    ensures |ExportComponents()| == 1
    ensures Field(ExportComponents()[0].props, "color").Undefined? && Field(ExportComponents()[0].props, "opacity").Undefined?
  {
  }

  /** Deserializing a node's serialization, behind whatever components of
      other names its entity carries first, gives back its colour and
      opacity, whatever values they hold. */
  lemma {:induction false} SerializeRoundTrip(front: seq<Component>, s: ScreenState)
    requires forall j :: 0 <= j < |front| ==> front[j].name != ComponentName
    ensures Deserialized(front + Serialize(s)) == Ok(s)
  {
    FindComponentAfter(front, Serialize(s), ComponentName);
    assert (front + Serialize(s))[|front|] == Serialize(s)[0];
  }

  /** Only the first `shared-screen` component counts: components after it
      are never read. */
  lemma {:induction false} FirstComponentWins(cs: seq<Component>, rest: seq<Component>)
    requires Deserialized(cs).Ok?
    ensures Deserialized(cs + rest) == Deserialized(cs)
  {
    var i := FindComponent(cs, ComponentName).value;
    assert (cs + rest)[i] == cs[i];
    FindComponentAt(cs + rest, ComponentName, i);
  }
}
