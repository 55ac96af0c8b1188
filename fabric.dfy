/** The part of the fabric.js canvas that the editor and its panels rely on:
    drawable objects as attribute records, the serialised snapshot of the
    canvas, and the canvas itself as a mutable object shared by the editor,
    the layers panel and the properties panel. Rendering, hit-testing and
    serialisation internals are not modelled. */
module Fabric {
  import opened Text

  /** An attribute value as fabric's `get` hands it out. Numbers are reals;
      IEEE rounding is not modelled. */
  datatype Value = Num(n: real) | Str(s: string) | Flag(b: bool)

  /** JavaScript truthiness of an attribute, with `None` for `undefined`. */
  predicate Truthy(v: Option<Value>) {
    match v
    case None => false
    case Some(Num(n)) => n != 0.0
    case Some(Str(s)) => s != ""
    case Some(Flag(b)) => b
  }

  /** `v || fallback`. */
  function OrElse(v: Option<Value>, fallback: Value): (r: Value)
    ensures Truthy(v) ==> Some(r) == v
    ensures !Truthy(v) ==> r == fallback
  {
    if Truthy(v) then v.value else fallback
  }

  /** A drawable object: its fabric `type` (`kind`), its optional `name`
      ("" when unset), the three interaction flags every fabric object
      carries, and every other attribute by key. */
  datatype Drawable = Drawable(
    kind: string,
    name: string,
    visible: bool,
    selectable: bool,
    evented: bool,
    attrs: map<string, Value>)

  /** `obj.get(key)`. */
  function Get(o: Drawable, key: string): Option<Value> {
    if key in o.attrs then Some(o.attrs[key]) else None
  }

  /** `obj.set(key, v)` for a style or geometry attribute. */
  function Set(o: Drawable, key: string, v: Value): (r: Drawable)
    ensures Get(r, key) == Some(v)
    ensures forall k :: k != key ==> Get(r, k) == Get(o, k)
    ensures r.kind == o.kind && r.name == o.name
    ensures r.visible == o.visible && r.selectable == o.selectable && r.evented == o.evented
  {
    o.(attrs := o.attrs[key := v])
  }

  /** A numeric attribute, or fabric's default for it when unset. */
  function NumAttr(o: Drawable, key: string, default: real): real {
    match Get(o, key)
    case Some(Num(n)) => n
    case _ => default
  }

  /** A new object with fabric's defaults: visible, selectable and evented. */
  function NewObject(kind: string, attrs: map<string, Value>): Drawable {
    Drawable(kind, "", true, true, true, attrs)
  }

  /** The offset applied to a cloned object by duplicate and paste. */
  const CloneOffset: real := 20.0

  /** `cloned.set({left: cloned.left + 20, top: cloned.top + 20})` on a clone. */
  function Shifted(o: Drawable): (r: Drawable)
    ensures NumAttr(r, "left", 0.0) == NumAttr(o, "left", 0.0) + CloneOffset
    ensures NumAttr(r, "top", 0.0) == NumAttr(o, "top", 0.0) + CloneOffset
    ensures forall k :: k != "left" && k != "top" ==> Get(r, k) == Get(o, k)
    ensures r.kind == o.kind && r.name == o.name
  {
    var left := NumAttr(o, "left", 0.0) + CloneOffset;
    var top := NumAttr(o, "top", 0.0) + CloneOffset;
    Set(Set(o, "left", Num(left)), "top", Num(top))
  }

  /** `canvas.toJSON()`: the object list, in stacking order, and the background. */
  datatype Snapshot = Snapshot(objects: seq<Drawable>, background: string)

  /** The editor creates its canvas 800 units wide on a white background. */
  const CanvasWidth: real := 800.0
  const White: string := "#ffffff"

  class Canvas {
    var objects: seq<Drawable>
    var background: string
    /** The active object, by position in `objects`. */
    var active: Option<nat>
    var drawingMode: bool
    var zoom: real

    predicate Valid()
      reads this
    {
      active.Some? ==> active.value < |objects|
    }

    /** The snapshot `toJSON` would serialise. */
    function Snap(): (s: Snapshot)
      reads this
      ensures s.objects == objects && s.background == background
    {
      Snapshot(objects, background)
    }

    constructor ()
      ensures Valid()
      ensures objects == [] && background == White && active == None
      ensures !drawingMode && zoom == 1.0
    {
      objects := [];
      background := White;
      active := None;
      drawingMode := false;
      zoom := 1.0;
    }

    /** `canvas.add(o); canvas.setActiveObject(o)`. */
    method AddAndSelect(o: Drawable)
      modifies this
      ensures Valid()
      ensures objects == old(objects) + [o] && active == Some(|old(objects)|)
      ensures background == old(background) && drawingMode == old(drawingMode) && zoom == old(zoom)
    {
      objects := objects + [o];
      active := Some(|objects| - 1);
    }

    /** `canvas.remove(objects[i])`; removing the active object discards the selection. */
    method RemoveActive()
      requires Valid() && active.Some?
      modifies this
      ensures Valid()
      ensures objects == old(objects[..active.value] + objects[active.value + 1..])
      ensures active == None
      ensures background == old(background) && drawingMode == old(drawingMode) && zoom == old(zoom)
    {
      var i := active.value;
      objects := objects[..i] + objects[i + 1..];
      active := None;
    }

    /** Replace the object at position `i` after an in-place `set`. */
    method Update(i: nat, o: Drawable)
      requires Valid() && i < |objects|
      modifies this
      ensures Valid()
      ensures objects == old(objects)[i := o]
      ensures active == old(active) && background == old(background)
      ensures drawingMode == old(drawingMode) && zoom == old(zoom)
    {
      objects := objects[i := o];
    }

    /** `canvas.clear()` followed by resetting the background to white. */
    method ClearToWhite()
      modifies this
      ensures Valid()
      ensures objects == [] && background == White && active == None
      ensures drawingMode == old(drawingMode) && zoom == old(zoom)
    {
      objects := [];
      background := White;
      active := None;
    }

    /** A resolved `loadFromJSON(s)`: the canvas shows `s` and nothing is selected. */
    method Load(s: Snapshot)
      modifies this
      ensures Valid()
      ensures Snap() == s && active == None
      ensures drawingMode == old(drawingMode) && zoom == old(zoom)
    {
      objects := s.objects;
      background := s.background;
      active := None;
    }

    /** `canvas.setActiveObject(objects[i])`. */
    method Select(i: nat)
      requires i < |objects|
      modifies this`active
      ensures Valid() && active == Some(i)
    {
      active := Some(i);
    }

    /** `canvas.discardActiveObject()`. */
    method Discard()
      modifies this`active
      ensures Valid() && active == None
    {
      active := None;
    }
  }
}
