/** The layers panel: a list of layer records derived from the canvas object
    list, toggles that flip one flag on one object and on its layer, the
    reversed display order, and the rule that a locked layer cannot be
    selected by clicking it. A layer refers to its object by position
    (`id`), which is the index the derivation gave it. */
module LayersPanel {
  import opened Text
  import opened Fabric

  datatype Layer = Layer(id: nat, name: string, kind: string, visible: bool, locked: bool)

  /** `obj.name || "<type> #<index+1>"`. */
  function LayerName(o: Drawable, index: nat): (r: string)
    ensures o.name != "" ==> r == o.name
    ensures o.name == "" ==> r == o.kind + " #" + NatToString(index + 1)
    ensures r != ""
  {
    if o.name != "" then o.name else o.kind + " #" + NatToString(index + 1)
  }

  function LayerOf(o: Drawable, index: nat): Layer {
    Layer(index, LayerName(o, index), o.kind, o.visible, !o.selectable)
  }

  /** `updateLayers`: one layer per object, in canvas order. */
  function LayersFrom(objects: seq<Drawable>): (ls: seq<Layer>)
    ensures |ls| == |objects|
  {
    seq(|objects|, i requires 0 <= i < |objects| => LayerOf(objects[i], i))
  }

  /** Layer `i` has id `i`, the object's kind and visibility, is locked
      exactly when the object is not selectable, and is named by the object's
      name or its kind and 1-based position. */
  lemma LayersFromEntries(objects: seq<Drawable>, i: nat)
    requires i < |objects|
    ensures var l := LayersFrom(objects)[i];
      && l.id == i && l.kind == objects[i].kind
      && l.visible == objects[i].visible && l.locked == !objects[i].selectable
      && l.name == (if objects[i].name != "" then objects[i].name
                    else objects[i].kind + " #" + NatToString(i + 1))
  {
  }

  /** An added object appends one layer and leaves every earlier layer as it was. */
  lemma LayersAfterAdd(objects: seq<Drawable>, o: Drawable)
    ensures LayersFrom(objects + [o]) == LayersFrom(objects) + [LayerOf(o, |objects|)]
  {
    var l := LayersFrom(objects + [o]);
    var r := LayersFrom(objects) + [LayerOf(o, |objects|)];
    forall k | 0 <= k < |l| ensures l[k] == r[k] {
      if k < |objects| {
        assert (objects + [o])[k] == objects[k];
      }
    }
  }

  /** The functional update in `toggleVisibility`: every layer with this id
      has its visibility flipped, and nothing else changes. */
  function ToggledVisible(ls: seq<Layer>, id: nat): (r: seq<Layer>)
    ensures |r| == |ls|
    ensures forall i :: 0 <= i < |ls| ==> r[i].(visible := ls[i].visible) == ls[i]
    ensures forall i :: 0 <= i < |ls| ==> (r[i].visible != ls[i].visible <==> ls[i].id == id)
  {
    seq(|ls|, i requires 0 <= i < |ls| => if ls[i].id == id then ls[i].(visible := !ls[i].visible) else ls[i])
  }

  /** The functional update in `toggleLock`. */
  function ToggledLock(ls: seq<Layer>, id: nat): (r: seq<Layer>)
    ensures |r| == |ls|
    ensures forall i :: 0 <= i < |ls| ==> r[i].(locked := ls[i].locked) == ls[i]
    ensures forall i :: 0 <= i < |ls| ==> (r[i].locked != ls[i].locked <==> ls[i].id == id)
  {
    seq(|ls|, i requires 0 <= i < |ls| => if ls[i].id == id then ls[i].(locked := !ls[i].locked) else ls[i])
  }

  /** Toggling twice restores the list. */
  lemma ToggleTwiceRestores(ls: seq<Layer>, id: nat)
    ensures ToggledVisible(ToggledVisible(ls, id), id) == ls
    ensures ToggledLock(ToggledLock(ls, id), id) == ls
  {
    var v := ToggledVisible(ToggledVisible(ls, id), id);
    var k := ToggledLock(ToggledLock(ls, id), id);
    assert forall i :: 0 <= i < |ls| ==> v[i] == ls[i];
    assert forall i :: 0 <= i < |ls| ==> k[i] == ls[i];
  }

  /** The object after `toggleVisibility` on a layer: visible set to the layer's negation. */
  function WithVisible(o: Drawable, b: bool): Drawable {
    o.(visible := b)
  }

  /** The object after `toggleLock`: selectable and evented both set to the
      layer's old `locked` value. */
  function WithLock(o: Drawable, locked: bool): Drawable {
    o.(selectable := locked, evented := locked)
  }

  /** On a list that mirrors the canvas, the panel's local visibility update
      produces exactly the list a fresh derivation from the updated canvas
      would. */
  lemma VisibilityToggleKeepsSync(objects: seq<Drawable>, layer: Layer)
    requires layer in LayersFrom(objects)
    ensures layer.id < |objects|
    ensures ToggledVisible(LayersFrom(objects), layer.id)
      == LayersFrom(objects[layer.id := WithVisible(objects[layer.id], !layer.visible)])
  {
    var ls := LayersFrom(objects);
    var j :| 0 <= j < |ls| && ls[j] == layer;
    assert layer.id == j;
    var after := objects[j := WithVisible(objects[j], !layer.visible)];
    var l := ToggledVisible(ls, j);
    var r := LayersFrom(after);
    forall k | 0 <= k < |objects| ensures l[k] == r[k] {
      assert ls[k].id == k;
    }
  }

  /** The same for the lock toggle. */
  lemma LockToggleKeepsSync(objects: seq<Drawable>, layer: Layer)
    requires layer in LayersFrom(objects)
    ensures layer.id < |objects|
    ensures ToggledLock(LayersFrom(objects), layer.id)
      == LayersFrom(objects[layer.id := WithLock(objects[layer.id], layer.locked)])
  {
    var ls := LayersFrom(objects);
    var j :| 0 <= j < |ls| && ls[j] == layer;
    assert layer.id == j;
    var after := objects[j := WithLock(objects[j], layer.locked)];
    var l := ToggledLock(ls, j);
    var r := LayersFrom(after);
    forall k | 0 <= k < |objects| ensures l[k] == r[k] {
      assert ls[k].id == k;
    }
  }

  /** `layers.slice().reverse()`: the display order, topmost object first. */
  function Displayed(ls: seq<Layer>): (r: seq<Layer>)
    ensures |r| == |ls|
    ensures forall k :: 0 <= k < |ls| ==> r[k] == ls[|ls| - 1 - k]
  {
    if ls == [] then [] else [ls[|ls| - 1]] + Displayed(ls[..|ls| - 1])
  }

  /** The display holds the same layers, and reversing it again gives the
      list in canvas order. */
  lemma DisplayedIsReversal(ls: seq<Layer>)
    ensures Displayed(Displayed(ls)) == ls
    ensures forall l :: l in Displayed(ls) <==> l in ls
  {
    var d := Displayed(ls);
    assert forall k :: 0 <= k < |ls| ==> Displayed(d)[k] == ls[k];
    forall l | l in ls ensures l in d {
      var k :| 0 <= k < |ls| && ls[k] == l;
      assert d[|ls| - 1 - k] == l;
    }
  }

  datatype Icon = TypeIcon | SquareIcon | CircleIcon | TriangleIcon | MinusIcon | ImageIcon | LayersIcon

  /** `getLayerIcon`: six kinds have their own icon, anything else the generic one. */
  function IconFor(kind: string): (i: Icon)
    ensures i == TypeIcon <==> kind == "i-text"
    ensures i == SquareIcon <==> kind == "rect"
    ensures i == CircleIcon <==> kind == "circle"
    ensures i == TriangleIcon <==> kind == "triangle"
    ensures i == MinusIcon <==> kind == "line"
    ensures i == ImageIcon <==> kind == "image"
  {
    match kind
    case "i-text" => TypeIcon
    case "rect" => SquareIcon
    case "circle" => CircleIcon
    case "triangle" => TriangleIcon
    case "line" => MinusIcon
    case "image" => ImageIcon
    case _ => LayersIcon
  }

  class Panel {
    const canvas: Canvas?
    var layers: seq<Layer>

    /** The layer list mirrors the canvas object list. */
    predicate Synced()
      reads this, canvas
    {
      canvas != null && layers == LayersFrom(canvas.objects)
    }

    constructor (c: Canvas?)
      ensures canvas == c && layers == []
    {
      canvas := c;
      layers := [];
    }

    /** `updateLayers`, run on mount and on every object added, removed or
        modified; without a canvas the effect returns early. */
    method UpdateLayers()
      modifies this`layers
      ensures canvas != null ==> Synced()
      ensures canvas == null ==> layers == old(layers)
    {
      if canvas != null {
        layers := LayersFrom(canvas.objects);
      }
    }

    /** `toggleVisibility`: flips the object's visibility and that layer's flag. */
    method ToggleVisibility(layer: Layer)
      requires canvas != null && canvas.Valid() && layer.id < |canvas.objects|
      modifies canvas, this`layers
      ensures canvas.Valid()
      ensures canvas.objects == old(canvas.objects)[layer.id := WithVisible(old(canvas.objects[layer.id]), !layer.visible)]
      ensures canvas.active == old(canvas.active) && canvas.background == old(canvas.background)
      ensures layers == ToggledVisible(old(layers), layer.id)
      ensures old(Synced()) && layer in old(layers) ==> Synced()
    {
      ghost var was := canvas.objects;
      ghost var wasSynced := Synced();
      canvas.Update(layer.id, WithVisible(canvas.objects[layer.id], !layer.visible));
      layers := ToggledVisible(layers, layer.id);
      if wasSynced && layer in LayersFrom(was) {
        VisibilityToggleKeepsSync(was, layer);
      }
    }

    /** `toggleLock`: the object becomes selectable and evented exactly when
        the layer was locked, the layer's flag flips, and the selection is
        discarded. */
    method ToggleLock(layer: Layer)
      requires canvas != null && canvas.Valid() && layer.id < |canvas.objects|
      modifies canvas, this`layers
      ensures canvas.Valid()
      ensures canvas.objects == old(canvas.objects)[layer.id := WithLock(old(canvas.objects[layer.id]), layer.locked)]
      ensures canvas.active == None && canvas.background == old(canvas.background)
      ensures layers == ToggledLock(old(layers), layer.id)
      ensures old(Synced()) && layer in old(layers) ==> Synced()
    {
      ghost var was := canvas.objects;
      ghost var wasSynced := Synced();
      canvas.Update(layer.id, WithLock(canvas.objects[layer.id], layer.locked));
      canvas.Discard();
      layers := ToggledLock(layers, layer.id);
      if wasSynced && layer in LayersFrom(was) {
        LockToggleKeepsSync(was, layer);
      }
    }

    /** A click on a row: a locked layer is ignored, an unlocked one makes
        its object the active object (through `canvas?.setActiveObject`). */
    method Click(layer: Layer)
      requires canvas != null ==> layer.id < |canvas.objects|
      modifies canvas
      ensures canvas != null ==> canvas.objects == old(canvas.objects) && canvas.background == old(canvas.background)
      ensures canvas != null && layer.locked ==> canvas.active == old(canvas.active)
      ensures canvas != null && !layer.locked ==> canvas.active == Some(layer.id)
    {
      if !layer.locked && canvas != null {
        canvas.Select(layer.id);
      }
    }
  }
}
