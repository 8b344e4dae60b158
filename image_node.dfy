/** The editor's image node: the fields that its setters, `load` and `copy`
    update, the component list it serializes to and reads back, and the
    glTF components it exports. */
module ImageNodes {
  import opened Strings
  import opened JsValues

  const ComponentName := "image"
  const BillboardName := "billboard"
  const LinkName := "link"

  /** `ImageAlphaMode.Blend` and `ImageAlphaMode.Mask` of the `Image`
      object the node extends. */
  const BlendMode := Str("blend")
  const MaskMode := Str("mask")
  const DefaultAlphaCutoff := Num(0.5)
  const FlatProjection := Str("flat")

  /** An entry of a node's `issues` list. */
  datatype Issue = Issue(severity: string, message: string)

  /** The one issue a failed load leaves. */
  const LoadError := Issue("error", "Error loading image.")

  /** What a node tells the editor through `editor.emit`. */
  datatype EditorEvent = ObjectsChanged(node: ImageNode) | SelectionChanged

  /** What resolving the source and loading the texture comes to: the
      performance issues found for the loaded image, or a failure at any
      step. */
  datatype LoadOutcome = Loaded(perfIssues: seq<Issue>) | LoadFailed

  /** The fields of an image node that `serialize`, `deserialize` and
      `copy` carry. `canonicalUrl` is `_canonicalUrl` (read back through
      `src`), `changeable` and `changeableSrc` are `_changeable` and
      `_changeableSrc`. */
  datatype ImageState = ImageState(
    canonicalUrl: Value,
    changeable: Value,
    changeableSrc: Value,
    controls: Value,
    alphaMode: Value,
    alphaCutoff: Value,
    projection: Value,
    billboard: Value,
    href: Value)

  /** A new node: the image fields set by its constructor, and the alpha
      mode, alpha cutoff and projection that the `Image` object starts
      with. */
  function Initial(alphaMode: Value, alphaCutoff: Value, projection: Value): ImageState {
    ImageState(Str(""), Bool(false), Str(""), Bool(true), alphaMode, alphaCutoff, projection, Bool(false), Str(""))
  }

  /** `x === undefined ? d : x` */
  function IfUndefined(x: Value, d: Value): Value {
    if x.Undefined? then d else x
  }

  /** The `issues` a load leaves behind. */
  function IssuesAfter(outcome: LoadOutcome): seq<Issue> {
    match outcome
    case Loaded(perfIssues) => perfIssues
    case LoadFailed => [LoadError]
  }

  /** The editor a node reports to. */
  class Editor {
    var events: seq<EditorEvent>

    constructor()
      ensures events == []
    {
      events := [];
    }
  }

  class ImageNode {
    const editor: Editor
    const uuid: string
    var canonicalUrl: Value
    var changeable: Value
    var changeableSrc: Value
    var controls: Value
    var alphaMode: Value
    var alphaCutoff: Value
    var projection: Value
    var billboard: Value
    var href: Value
    var issues: seq<Issue>
    /** The `changeableSrc` documents that the setters have asked to fetch
        and load the `src` of, oldest first. */
    var pendingReloads: seq<Value>

    function State(): ImageState
      reads this
    {
      ImageState(canonicalUrl, changeable, changeableSrc, controls, alphaMode, alphaCutoff, projection, billboard, href)
    }

    constructor(editor: Editor, uuid: string, alphaMode: Value, alphaCutoff: Value, projection: Value)
      ensures this.editor == editor && this.uuid == uuid
      ensures State() == Initial(alphaMode, alphaCutoff, projection)
      ensures issues == [] && pendingReloads == []
    {
      this.editor := editor;
      this.uuid := uuid;
      canonicalUrl := Str("");
      changeable := Bool(false);
      changeableSrc := Str("");
      controls := Bool(true);
      this.alphaMode := alphaMode;
      this.alphaCutoff := alphaCutoff;
      this.projection := projection;
      billboard := Bool(false);
      href := Str("");
      issues := [];
      pendingReloads := [];
    }

    /** `set changeableSrc(value)`: a reload is asked for only while the
        node is changeable. */
    method SetChangeableSrc(value: Value)
      modifies this
      ensures State() == old(State()).(changeableSrc := value)
      ensures pendingReloads == old(pendingReloads) + (if Truthy(changeable) then [value] else [])
      ensures issues == old(issues)
    {
      changeableSrc := value;
      if Truthy(changeable) {
        pendingReloads := pendingReloads + [changeableSrc];
      }
    }

    /** `set changeable(value)`: setting it to a truthy value asks for a
        reload of the current `changeableSrc`; setting it to a falsy one
        asks for nothing. */
    method SetChangeable(value: Value)
      modifies this
      ensures State() == old(State()).(changeable := value)
      ensures pendingReloads == old(pendingReloads) + (if Truthy(value) then [changeableSrc] else [])
      ensures issues == old(issues)
    {
      changeable := value;
      if Truthy(changeable) {
        pendingReloads := pendingReloads + [changeableSrc];
      }
    }

    /** `load(src, onError)`. Loading the URL the node already shows is a
        no-op; any other load records the new URL, resets the issues and,
        whatever the outcome, tells the editor. `reported` is the URL of
        the error passed to `onError`, when there is one and the load
        failed. */
    method Load(src: Value, outcome: LoadOutcome, hasOnError: bool) returns (reported: Option<Value>)
      modifies this, editor
      ensures var next := Or(src, Str(""));
        if next == old(canonicalUrl) && next != Str("") then
          State() == old(State()) && issues == old(issues) && pendingReloads == old(pendingReloads)
          && editor.events == old(editor.events) && reported == None
        else
          State() == old(State()).(canonicalUrl := next)
          && issues == IssuesAfter(outcome)
          && pendingReloads == old(pendingReloads)
          && editor.events == old(editor.events) + [ObjectsChanged(this), SelectionChanged]
          && reported == (if outcome.LoadFailed? && hasOnError then Some(next) else None)
    {
      var next := Or(src, Str(""));
      if next == canonicalUrl && next != Str("") {
        return None;
      }
      canonicalUrl := next;
      issues := [];
      reported := None;
      match outcome {
        case Loaded(perfIssues) =>
          issues := perfIssues;
        case LoadFailed =>
          if hasOnError {
            reported := Some(canonicalUrl);
          }
          issues := issues + [LoadError];
      }
      editor.events := editor.events + [ObjectsChanged(this)];
      editor.events := editor.events + [SelectionChanged];
    }

    /** `set src(value)`: `load(value)` without an `onError`, so nothing is
        reported. */
    method SetSrc(value: Value, outcome: LoadOutcome)
      modifies this, editor
      ensures var next := Or(value, Str(""));
        if next == old(canonicalUrl) && next != Str("") then
          State() == old(State()) && issues == old(issues) && editor.events == old(editor.events)
        else
          State() == old(State()).(canonicalUrl := next)
          && issues == IssuesAfter(outcome)
          && editor.events == old(editor.events) + [ObjectsChanged(this), SelectionChanged]
      ensures Truthy(value) ==> canonicalUrl == value
      ensures pendingReloads == old(pendingReloads)
    {
      var reported := Load(value, outcome, false);
      assert reported == None;
    }

    /** `copy(source)`: takes the image fields of `source` as they were,
        without going through the setters, so no reload is asked for. */
    method Copy(source: ImageNode) returns (r: ImageNode)
      modifies this
      ensures r == this
      ensures controls == old(source.controls) && billboard == old(source.billboard)
      ensures alphaMode == old(source.alphaMode) && alphaCutoff == old(source.alphaCutoff)
      ensures canonicalUrl == old(source.canonicalUrl) && changeable == old(source.changeable)
      ensures changeableSrc == old(source.changeableSrc) && href == old(source.href)
      ensures projection == old(projection) && issues == old(issues)
      ensures pendingReloads == old(pendingReloads)
    {
      controls, billboard := source.controls, source.billboard;
      alphaMode, alphaCutoff := source.alphaMode, source.alphaCutoff;
      canonicalUrl, changeable := source.canonicalUrl, source.changeable;
      changeableSrc, href := source.changeableSrc, source.href;
      return this;
    }

    /** The part of `deserialize` it defers to `loadAsync`, on a node that
        has not loaded anything yet. */
    method FinishDeserialize(props: Value, fetched: Option<Value>, outcome: LoadOutcome, hasOnError: bool)
      returns (reported: Option<Value>)
      requires canonicalUrl == Str("")
      modifies this, editor
      ensures var d := AfterLoad(old(State()), props, fetched);
        State() == d.state && pendingReloads == old(pendingReloads) + d.reloads
        && issues == (if d.loadedFrom.Some? then IssuesAfter(outcome) else old(issues))
        && editor.events == old(editor.events) + (if d.loadedFrom.Some? then [ObjectsChanged(this), SelectionChanged] else [])
        && reported == (if d.loadedFrom.Some? && outcome.LoadFailed? && hasOnError then Some(d.state.canonicalUrl) else None)
    {
      reported := None;
      var isChangeable := Field(props, "changeable");
      var src := if Truthy(isChangeable) then fetched else Some(Field(props, "src"));
      if src.Some? {
        reported := Load(src.value, outcome, hasOnError);
        SetChangeable(isChangeable);
        SetChangeableSrc(Field(props, "changeableSrc"));
        controls := Or(Field(props, "controls"), Bool(false));
        alphaMode := IfUndefined(Field(props, "alphaMode"), BlendMode);
        alphaCutoff := IfUndefined(Field(props, "alphaCutoff"), DefaultAlphaCutoff);
        projection := Field(props, "projection");
      }
    }

    /** The `billboard` step of `deserialize`. */
    method MarkBillboard(cs: seq<Component>)
      modifies this
      ensures State() == Marked(old(State()), cs)
      ensures canonicalUrl == old(canonicalUrl) && issues == old(issues) && pendingReloads == old(pendingReloads)
    {
      if FindComponent(cs, BillboardName).Some? {
        billboard := Bool(true);
      }
    }

    /** The `link` step of `deserialize`, on a node in the state `d`
        describes: the `href` of the first `link` component, whose props
        must be destructurable. */
    method ReadLink(cs: seq<Component>, ghost d: DeserializedNode) returns (failed: bool)
      requires State() == d.state
      modifies this
      ensures (failed <==> Linked(cs, d).Err?) && (!failed ==> State() == Linked(cs, d).value.state)
      ensures issues == old(issues) && pendingReloads == old(pendingReloads)
    {
      var link := FindComponent(cs, LinkName);
      if link.Some? {
        if !Destructurable(cs[link.value].props) {
          return true;
        }
        href := Field(cs[link.value].props, "href");
      }
      return false;
    }

    /** The steps of `deserialize` after the node is made: read the image
        props, mark the billboard, run the deferred load and read the link.
        `err` is the TypeError thrown, if any. */
    method Restore(cs: seq<Component>, fetched: Option<Value>, outcome: LoadOutcome, hasOnError: bool)
      returns (err: Option<NodeError>, reported: Option<Value>)
      requires canonicalUrl == Str("")
      modifies this, editor
      ensures var d := Deserialized(old(State()), cs, fetched);
        (err.None? <==> d.Ok?) && (err.Some? ==> d == Err(err.value))
      ensures var d := Deserialized(old(State()), cs, fetched);
        d.Ok? ==> (State() == d.value.state && pendingReloads == old(pendingReloads) + d.value.reloads
          && issues == (if d.value.loadedFrom.Some? then IssuesAfter(outcome) else old(issues))
          && editor.events == old(editor.events) + (if d.value.loadedFrom.Some? then [ObjectsChanged(this), SelectionChanged] else [])
          && reported == (if d.value.loadedFrom.Some? && outcome.LoadFailed? && hasOnError then Some(d.value.state.canonicalUrl) else None))
    {
      reported := None;
      var props := ImageProps(cs);
      if props.Err? {
        return Some(props.error), reported;
      }
      MarkBillboard(cs);
      ghost var d := AfterLoad(State(), props.value, fetched);
      assert Deserialized(old(State()), cs, fetched) == Linked(cs, d);
      reported := FinishDeserialize(props.value, fetched, outcome, hasOnError);
      var failed := ReadLink(cs, d);
      if failed {
        return Some(MissingLinkProps), reported;
      }
      return None, reported;
    }

    /** `ImageNode.deserialize(editor, json, loadAsync, onError)`, run until
        the load it defers has finished. `alphaMode`, `alphaCutoff` and
        `projection` are what a new `Image` starts with; `fetched` is the
        `src` of the `changeableSrc` document, `None` when fetching it
        failed. */
    static method Deserialize(editor: Editor, uuid: string, alphaMode: Value, alphaCutoff: Value, projection: Value,
                              cs: seq<Component>, fetched: Option<Value>, outcome: LoadOutcome, hasOnError: bool)
      returns (r: Result<ImageNode, NodeError>, reported: Option<Value>)
      modifies editor
      ensures var d := Deserialized(Initial(alphaMode, alphaCutoff, projection), cs, fetched);
        (r.Ok? <==> d.Ok?) && (r.Err? ==> r.error == d.error)
      ensures var d := Deserialized(Initial(alphaMode, alphaCutoff, projection), cs, fetched);
        r.Ok? ==> (fresh(r.value) && r.value.editor == editor && r.value.uuid == uuid
          && r.value.State() == d.value.state
          && r.value.pendingReloads == d.value.reloads
          && r.value.issues == (if d.value.loadedFrom.Some? then IssuesAfter(outcome) else [])
          && editor.events == old(editor.events) + (if d.value.loadedFrom.Some? then [ObjectsChanged(r.value), SelectionChanged] else [])
          && reported == (if d.value.loadedFrom.Some? && outcome.LoadFailed? && hasOnError then Some(d.value.state.canonicalUrl) else None))
    {
      var node := new ImageNode(editor, uuid, alphaMode, alphaCutoff, projection);
      var err;
      err, reported := node.Restore(cs, fetched, outcome, hasOnError);
      if err.Some? {
        return Err(err.value), reported;
      }
      return Ok(node), reported;
    }
  }

  // ---------------------------------------------------------------------
  // Serialization
  // ---------------------------------------------------------------------

  /** The `image` props of `serialize`: always these seven. */
  function SerializedProps(s: ImageState): map<string, Value> {
    map["src" := s.canonicalUrl, "changeable" := s.changeable, "changeableSrc" := s.changeableSrc,
        "controls" := s.controls, "alphaMode" := s.alphaMode, "alphaCutoff" := s.alphaCutoff,
        "projection" := s.projection]
  }

  /** `serialize()`: the components the node adds to its entity, in the
      order the source adds them. */
  function Serialize(s: ImageState): seq<Component> {
    [Component(ComponentName, Obj(SerializedProps(s)))]
    + (if Truthy(s.billboard) then [Component(BillboardName, Obj(map[]))] else [])
    + (if Truthy(s.href) then [Component(LinkName, Obj(map["href" := s.href]))] else [])
  }

  /** The TypeErrors `deserialize` throws: no `image` component or one
      without props, or a `link` component without props. */
  datatype NodeError = MissingImageProps | MissingLinkProps

  /** A deserialized node once its deferred load has finished: its image
      fields, the URL `load` was called with (`None` when fetching the
      `changeableSrc` document failed and the deferred part stopped), and
      the reloads its setters asked for. */
  datatype DeserializedNode = DeserializedNode(state: ImageState, loadedFrom: Option<Value>, reloads: seq<Value>)

  /** The props of the first `image` component, which `deserialize`
      destructures. */
  function ImageProps(cs: seq<Component>): Result<Value, NodeError> {
    match FindComponent(cs, ComponentName)
    case None => Err(MissingImageProps)
    case Some(i) => if Destructurable(cs[i].props) then Ok(cs[i].props) else Err(MissingImageProps)
  }

  /** A `billboard` component anywhere turns the billboard on. */
  function Marked(start: ImageState, cs: seq<Component>): ImageState {
    if FindComponent(cs, BillboardName).Some? then start.(billboard := Bool(true)) else start
  }

  /** The fields the deferred part sets from `props` once the load is done. */
  function Configured(s: ImageState, props: Value): ImageState {
    s.(changeable := Field(props, "changeable"),
       changeableSrc := Field(props, "changeableSrc"),
       controls := Or(Field(props, "controls"), Bool(false)),
       alphaMode := IfUndefined(Field(props, "alphaMode"), BlendMode),
       alphaCutoff := IfUndefined(Field(props, "alphaCutoff"), DefaultAlphaCutoff),
       projection := Field(props, "projection"))
  }

  /** The deferred part of `deserialize`: load the `src` of the props, or
      of the fetched `changeableSrc` document when the node is changeable,
      then set the fields through the setters. */
  function AfterLoad(s: ImageState, props: Value, fetched: Option<Value>): DeserializedNode {
    var isChangeable := Field(props, "changeable");
    var src := if Truthy(isChangeable) then fetched else Some(Field(props, "src"));
    match src
    case None => DeserializedNode(s, None, [])
    case Some(v) =>
      DeserializedNode(Configured(s.(canonicalUrl := Or(v, Str(""))), props), Some(v),
                       if Truthy(isChangeable) then [s.changeableSrc, Field(props, "changeableSrc")] else [])
  }

  /** The `href` of the first `link` component, when there is one. */
  function Linked(cs: seq<Component>, d: DeserializedNode): Result<DeserializedNode, NodeError> {
    match FindComponent(cs, LinkName)
    case None => Ok(d)
    case Some(k) =>
      if !Destructurable(cs[k].props) then Err(MissingLinkProps)
      else Ok(d.(state := d.state.(href := Field(cs[k].props, "href"))))
  }

  /** What `deserialize` makes of `cs` on a node whose fields start as
      `start`. */
  function Deserialized(start: ImageState, cs: seq<Component>, fetched: Option<Value>): Result<DeserializedNode, NodeError> {
    match ImageProps(cs)
    case Err(e) => Err(e)
    case Ok(props) => Linked(cs, AfterLoad(Marked(start, cs), props, fetched))
  }

  /** None of the names the image node reads appear among `front`, the
      components of the entity that precede the node's own. */
  predicate ForeignComponents(front: seq<Component>) {
    forall j :: 0 <= j < |front| ==>
      front[j].name != ComponentName && front[j].name != BillboardName && front[j].name != LinkName
  }

  /** Where `find` meets the node's own components in `serialize`'s list. */
  lemma {:induction false} SerializeFinds(s: ImageState)
    ensures FindComponent(Serialize(s), ComponentName) == Some(0)
    ensures FindComponent(Serialize(s), BillboardName) == if Truthy(s.billboard) then Some(1) else None
    ensures FindComponent(Serialize(s), LinkName) ==
      if !Truthy(s.href) then None else if Truthy(s.billboard) then Some(2) else Some(1)
  {
    var cs := Serialize(s);
    var img := Component(ComponentName, Obj(SerializedProps(s)));
    var bb := Component(BillboardName, Obj(map[]));
    var ln := Component(LinkName, Obj(map["href" := s.href]));
    if Truthy(s.billboard) && Truthy(s.href) {
      assert cs == [img, bb, ln];
      FindComponentAt(cs, LinkName, 2);
    } else if Truthy(s.billboard) {
      assert cs == [img, bb];
    } else if Truthy(s.href) {
      assert cs == [img, ln];
    } else {
      assert cs == [img];
    }
  }

  /** Where the node's own components sit in its serialization. */
  lemma SerializedLayout(front: seq<Component>, s: ImageState)
    requires ForeignComponents(front)
    ensures FindComponent(front + Serialize(s), ComponentName) == Some(|front|)
    ensures FindComponent(front + Serialize(s), BillboardName).Some? <==> Truthy(s.billboard)
    ensures match FindComponent(front + Serialize(s), LinkName)
      case None => !Truthy(s.href)
      case Some(k) => Truthy(s.href) && (front + Serialize(s))[k].props == Obj(map["href" := s.href])
  {
    var tail := Serialize(s);
    SerializeFinds(s);
    FindComponentAfter(front, tail, ComponentName);
    FindComponentAfter(front, tail, BillboardName);
    FindComponentAfter(front, tail, LinkName);
  }

  /** Each serialized prop reads back as the field it was written from. */
  lemma SerializedFields(s: ImageState)
    ensures var props := Obj(SerializedProps(s));
      Field(props, "src") == s.canonicalUrl && Field(props, "changeable") == s.changeable
      && Field(props, "changeableSrc") == s.changeableSrc && Field(props, "controls") == s.controls
      && Field(props, "alphaMode") == s.alphaMode && Field(props, "alphaCutoff") == s.alphaCutoff
      && Field(props, "projection") == s.projection
  {
  }

  /** The image props and billboard marking `deserialize` reads from a
      serialization. */
  lemma SerializedSteps(front: seq<Component>, s: ImageState, start: ImageState)
    requires ForeignComponents(front)
    ensures ImageProps(front + Serialize(s)) == Ok(Obj(SerializedProps(s)))
    ensures Marked(start, front + Serialize(s)) ==
      if Truthy(s.billboard) then start.(billboard := Bool(true)) else start
  {
    var cs := front + Serialize(s);
    SerializedLayout(front, s);
    assert cs[|front|] == Serialize(s)[0];
  }

  /** The `link` component of a serialization gives back `href` when it
      was truthy. */
  lemma SerializedLink(front: seq<Component>, s: ImageState, d: DeserializedNode)
    requires ForeignComponents(front)
    ensures Linked(front + Serialize(s), d) ==
      Ok(if Truthy(s.href) then d.(state := d.state.(href := s.href)) else d)
  {
    SerializedLayout(front, s);
  }

  /** Serializing a node and deserializing the result, with the deferred
      load finished, gives back `changeable`, `changeableSrc` and
      `projection` exactly; `controls`, `alphaMode` and `alphaCutoff`
      unless they were falsy or undefined and so read back as their
      defaults; `billboard` and `href` as their truthiness decided; and the
      source URL when the node is not changeable. A changeable node asks
      for a reload of the empty `changeableSrc` a new node starts with
      before the one it was saved with. */
  lemma SerializeRoundTrip(front: seq<Component>, s: ImageState, am: Value, ac: Value, pr: Value, fetched: Value)
    requires ForeignComponents(front)
    ensures var d := Deserialized(Initial(am, ac, pr), front + Serialize(s), Some(fetched));
      d.Ok? && d.value.loadedFrom.Some? &&
      var r := d.value.state;
      r.changeable == s.changeable && r.changeableSrc == s.changeableSrc && r.projection == s.projection
      && (Truthy(s.controls) || s.controls == Bool(false) ==> r.controls == s.controls)
      && (!s.alphaMode.Undefined? ==> r.alphaMode == s.alphaMode)
      && (!s.alphaCutoff.Undefined? ==> r.alphaCutoff == s.alphaCutoff)
      && r.billboard == Bool(Truthy(s.billboard))
      && r.href == (if Truthy(s.href) then s.href else Str(""))
      && (!Truthy(s.changeable) ==>
            r.canonicalUrl == Or(s.canonicalUrl, Str("")) && d.value.loadedFrom == Some(s.canonicalUrl) && d.value.reloads == [])
      && (Truthy(s.changeable) ==> r.canonicalUrl == Or(fetched, Str("")) && d.value.reloads == [Str(""), s.changeableSrc])
  {
    var cs := front + Serialize(s);
    var props := Obj(SerializedProps(s));
    var start := Initial(am, ac, pr);
    SerializedSteps(front, s, start);
    var m := Marked(start, cs);
    SerializedFields(s);
    var a := AfterLoad(m, props, Some(fetched));
    assert a.loadedFrom.Some? && a.state.billboard == m.billboard && a.state.href == Str("");
    SerializedLink(front, s, a);
  }

  /** The states a node reaches through its constructor, `load` and the
      editor's property panel: boolean flags, a string URL and link, and a
      set alpha mode and cutoff. */
  predicate Settled(s: ImageState) {
    s.canonicalUrl.Str? && s.controls.Bool? && s.billboard.Bool? && s.href.Str?
    && !s.alphaMode.Undefined? && !s.alphaCutoff.Undefined?
  }

  /** For such a node that is not changeable, deserializing its
      serialization restores it exactly. */
  lemma SettledRoundTrip(front: seq<Component>, s: ImageState, am: Value, ac: Value, pr: Value, fetched: Value)
    requires ForeignComponents(front) && Settled(s) && !Truthy(s.changeable)
    ensures Deserialized(Initial(am, ac, pr), front + Serialize(s), Some(fetched)) == Ok(DeserializedNode(s, Some(s.canonicalUrl), []))
  {
    SerializeRoundTrip(front, s, am, ac, pr, fetched);
    var d := Deserialized(Initial(am, ac, pr), front + Serialize(s), Some(fetched));
    var r := d.value.state;
    assert r.canonicalUrl == s.canonicalUrl && r.controls == s.controls;
    assert r.billboard == s.billboard && r.href == s.href;
  }

  // ---------------------------------------------------------------------
  // ---------------------------------------------------------------------
  // Export
  // ---------------------------------------------------------------------

  /** The `image` props of `prepareForExport`: the cutoff only matters,
      and is only exported, in mask mode. */
  function ExportedProps(s: ImageState): map<string, Value> {
    var data := map["src" := s.canonicalUrl, "changeable" := s.changeable, "changeableSrc" := s.changeableSrc,
                    "controls" := s.controls, "alphaMode" := s.alphaMode, "projection" := s.projection];
    if s.alphaMode == MaskMode then data["alphaCutoff" := s.alphaCutoff] else data
  }

  /** `prepareForExport()`: the glTF components the node adds, in order. */
  function ExportComponents(s: ImageState, uuid: string): seq<Component> {
    [Component(ComponentName, Obj(ExportedProps(s))), Component("networked", Obj(map["id" := Str(uuid)]))]
    + (if Truthy(s.billboard) && s.projection == FlatProjection then [Component(BillboardName, Obj(map[]))] else [])
    + (if Truthy(s.href) && s.projection == FlatProjection then [Component(LinkName, Obj(map["href" := s.href]))] else [])
  }

  /** Every export carries the image, with the serialized values of its
      props, and its network id; the cutoff is exported exactly in mask
      mode; the billboard and the link, with its `href`, are exported
      exactly when set on a flat image. */
  lemma ExportComponentsSpec(s: ImageState, uuid: string)
    ensures var cs := ExportComponents(s, uuid);
      FindComponent(cs, ComponentName) == Some(0)
      && FindComponent(cs, "networked") == Some(1) && cs[1].props == Obj(map["id" := Str(uuid)])
      && ("alphaCutoff" in cs[0].props.fields <==> s.alphaMode == MaskMode)
      && cs[0].props.fields.Keys - {"alphaCutoff"} == SerializedProps(s).Keys - {"alphaCutoff"}
      && (forall k :: k in cs[0].props.fields ==> k in SerializedProps(s) && cs[0].props.fields[k] == SerializedProps(s)[k])
      && (FindComponent(cs, BillboardName).Some? <==> Truthy(s.billboard) && s.projection == FlatProjection)
      && (FindComponent(cs, BillboardName).Some? ==> cs[FindComponent(cs, BillboardName).value].props == Obj(map[]))
      && (FindComponent(cs, LinkName).Some? <==> Truthy(s.href) && s.projection == FlatProjection)
      && (FindComponent(cs, LinkName).Some? ==> cs[FindComponent(cs, LinkName).value].props == Obj(map["href" := s.href]))
  {
    var cs := ExportComponents(s, uuid);
    var img := Component(ComponentName, Obj(ExportedProps(s)));
    var net := Component("networked", Obj(map["id" := Str(uuid)]));
    var bb := Component(BillboardName, Obj(map[]));
    var ln := Component(LinkName, Obj(map["href" := s.href]));
    var flat := s.projection == FlatProjection;
    if Truthy(s.billboard) && flat && Truthy(s.href) {
      assert cs == [img, net, bb, ln];
      FindComponentAt(cs, BillboardName, 2);
      FindComponentAt(cs, LinkName, 3);
    } else if Truthy(s.billboard) && flat {
      assert cs == [img, net, bb];
      FindComponentAt(cs, BillboardName, 2);
    } else if Truthy(s.href) && flat {
      assert cs == [img, net, ln];
      FindComponentAt(cs, LinkName, 2);
    } else {
      assert cs == [img, net];
    }
  }
}
