/** The properties panel: the property record it derives from the selected
    object with `||` fallbacks, the two update handlers that write a value
    into both the record and the object, the number-input parsing, and which
    sections a type of object shows. The panel's selected object is the
    canvas's active object. Scaling an object to a width or height and
    measuring its scaled size are fabric computations and enter as function
    parameters. */
module PropertiesPanel {
  import opened Text
  import opened Fabric

  /** The panel's `properties` state, by key. */
  type Props = map<string, Value>

  /** `Math.round`: the nearest integer, halves rounded up. */
  function Round(x: real): (r: int)
    ensures r as real - 0.5 <= x < r as real + 0.5
  {
    (x + 0.5).Floor
  }

  /** `Math.round` applied to an attribute value; non-numbers are kept as they are. */
  function Rounded(v: Value): Value {
    match v
    case Num(n) => Num(Round(n) as real)
    case _ => v
  }

  /** The keys read with a plain `||` fallback, and the fallback each gets. */
  const Fallbacks: map<string, Value> := map[
    "fill" := Str("#000000"), "stroke" := Str("#000000"), "strokeWidth" := Num(0.0),
    "opacity" := Num(1.0), "rx" := Num(0.0), "fontSize" := Num(24.0),
    "fontFamily" := Str("Arial"), "fontWeight" := Str("normal"), "textAlign" := Str("left")]

  /** The keys read as `Math.round(get(key) || 0)`. */
  const RoundedKeys: set<string> := {"angle", "left", "top"}

  /** The keys of the record the selection effect builds. */
  const PropertyKeys: set<string> := Fallbacks.Keys + RoundedKeys + {"width", "height"}

  /** One entry of that record, given the object's scaled width and height. */
  function DerivedAt(o: Drawable, key: string, scaledWidth: real, scaledHeight: real): Value {
    if key in Fallbacks then OrElse(Get(o, key), Fallbacks[key])
    else if key == "width" then Num(Round(scaledWidth) as real)
    else if key == "height" then Num(Round(scaledHeight) as real)
    else Rounded(OrElse(Get(o, key), Num(0.0)))
  }

  /** The record the selection effect builds. */
  function Derive(o: Drawable, scaledWidth: real, scaledHeight: real): (p: Props)
    ensures p.Keys == PropertyKeys
  {
    map k | k in PropertyKeys :: DerivedAt(o, k, scaledWidth, scaledHeight)
  }

  /** Every key takes the object's value when it is truthy and its fixed
      fallback otherwise; position and angle are then rounded, and the size
      is the rounded scaled size. */
  lemma DeriveFollowsFallbacks(o: Drawable, w: real, h: real)
    ensures forall k :: k in Fallbacks ==> Derive(o, w, h)[k] == OrElse(Get(o, k), Fallbacks[k])
    ensures forall k :: k in RoundedKeys ==> Derive(o, w, h)[k] == Rounded(OrElse(Get(o, k), Num(0.0)))
    ensures Derive(o, w, h)["width"] == Num(Round(w) as real) && Derive(o, w, h)["height"] == Num(Round(h) as real)
  {
    var p := Derive(o, w, h);
    forall k | k in Fallbacks ensures p[k] == OrElse(Get(o, k), Fallbacks[k]) {
      assert k in PropertyKeys;
    }
    forall k | k in RoundedKeys ensures p[k] == Rounded(OrElse(Get(o, k), Num(0.0))) {
      assert k in PropertyKeys;
    }
  }

  /** Falsy attributes read as their fallback: an opacity of 0 shows as 1,
      a font size of 0 as 24, an empty fill as black. */
  lemma FalsyReadsAsFallback(o: Drawable, w: real, h: real)
    ensures Get(o, "opacity") == Some(Num(0.0)) ==> Derive(o, w, h)["opacity"] == Num(1.0)
    ensures Get(o, "fontSize") == Some(Num(0.0)) ==> Derive(o, w, h)["fontSize"] == Num(24.0)
    ensures Get(o, "fill") == Some(Str("")) ==> Derive(o, w, h)["fill"] == Str("#000000")
  {
    assert "opacity" in Fallbacks && "fontSize" in Fallbacks && "fill" in Fallbacks;
    DeriveFollowsFallbacks(o, w, h);
  }

  /** What `updateProperty` does to the object: `set(key, v)`, and for a
      rect's corner radius `ry` as well. */
  function Applied(o: Drawable, key: string, v: Value): (r: Drawable)
    ensures Get(r, key) == Some(v)
    ensures key == "rx" && o.kind == "rect" ==> Get(r, "ry") == Some(v)
    ensures forall k :: k != key && !(k == "ry" && key == "rx" && o.kind == "rect") ==> Get(r, k) == Get(o, k)
    ensures r.kind == o.kind && r.name == o.name && r.visible == o.visible
    ensures r.selectable == o.selectable && r.evented == o.evented
  {
    var s := Set(o, key, v);
    if key == "rx" && o.kind == "rect" then Set(s, "ry", v) else s
  }

  /** `parseInt(text) || 0`: the number a number input passes on. Whatever
      `parseInt` reads is passed on, and `NaN` becomes 0. */
  function InputValue(text: string): (v: int)
    ensures ParseInt(text).Some? ==> v == ParseInt(text).value
    ensures ParseInt(text).None? ==> v == 0
  {
    match ParseInt(text)
    case None => 0
    case Some(n) => n
  }

  /** A number typed as its decimal numeral comes through unchanged. */
  lemma InputOfNumeral(n: int)
    ensures InputValue(IntToString(n)) == n
  {
    ParseIntOfString(n);
  }

  /** A fraction is cut at the decimal point: "12.5" reads as 12. */
  lemma InputTruncatesFraction(n: nat, fraction: string)
    ensures InputValue(NatToString(n) + "." + fraction) == n
  {
    var s := NatToString(n) + "." + fraction;
    assert s == NatToString(n) + ("." + fraction);
    ParseIntStopsAtNonDigit(n, "." + fraction);
    assert ParseInt(s) == Some(n);
  }

  /** Text with no leading digit reads as 0. */
  lemma InputDefaultsToZero()
    ensures InputValue("") == 0 && InputValue("abc") == 0
  {
    assert TrimStart("abc") == "abc" by { assert !IsSpace('a'); }
    assert DigitRun("abc", 10) == 0 by { assert DigitValue('a', 10) < 0; }
  }

  /** Which dimension `updateDimensions` scales by. */
  datatype Axis = ByWidth | ByHeight

  function AxisOf(key: string): (a: Axis)
    ensures a == ByWidth <==> key == "width"
  {
    if key == "width" then ByWidth else ByHeight
  }

  /** The sections the panel shows for a selected object of type `kind`. */
  datatype Sections = Sections(cornerRadius: bool, text: bool, fill: bool, stroke: bool)

  predicate IsShape(kind: string) {
    kind == "rect" || kind == "circle" || kind == "triangle" || kind == "line"
  }

  function SectionsFor(kind: string): (s: Sections)
    ensures s.text <==> kind == "i-text"
    ensures s.cornerRadius <==> kind == "rect"
    ensures s.fill <==> IsShape(kind) || kind == "i-text"
    ensures s.stroke <==> IsShape(kind)
    ensures s.stroke ==> s.fill && !s.text
  {
    var isText := kind == "i-text";
    var isShape := kind in ["rect", "circle", "triangle", "line"];
    Sections(kind == "rect", isText, isShape || isText, isShape)
  }

  class Panel {
    const canvas: Canvas?
    var properties: Props

    /** Both a selected object and a canvas are present. */
    predicate HasSelection()
      reads this, canvas
    {
      canvas != null && canvas.Valid() && canvas.active.Some?
    }

    function Selected(): Drawable
      reads this, canvas
      requires HasSelection()
    {
      canvas.objects[canvas.active.value]
    }

    constructor (c: Canvas?)
      ensures canvas == c && properties == map[]
    {
      canvas := c;
      properties := map[];
    }

    /** The effect that runs when the selection changes: reload the record
        from a selected object, keep it otherwise. */
    method SelectionChanged(scaledSize: Drawable -> (real, real))
      modifies this`properties
      ensures old(HasSelection()) ==>
        var o := Selected();
        properties == Derive(o, scaledSize(o).0, scaledSize(o).1)
      ensures !old(HasSelection()) ==> properties == old(properties)
    {
      if canvas != null && canvas.Valid() && canvas.active.Some? {
        var o := canvas.objects[canvas.active.value];
        properties := Derive(o, scaledSize(o).0, scaledSize(o).1);
      }
    }

    /** `updateProperty`: without a selection nothing happens; otherwise the
        key takes the value in the record and on the object, and every other
        key of the record is unchanged. */
    method UpdateProperty(key: string, v: Value)
      modifies this`properties, canvas
      ensures !old(HasSelection()) ==> properties == old(properties)
      ensures canvas != null && !old(HasSelection()) ==>
        canvas.objects == old(canvas.objects) && canvas.active == old(canvas.active)
      ensures old(HasSelection()) ==>
        && properties == old(properties)[key := v]
        && canvas.Valid() && canvas.active == old(canvas.active)
        && canvas.objects == old(canvas.objects)[canvas.active.value := Applied(old(Selected()), key, v)]
    {
      if !(canvas != null && canvas.Valid() && canvas.active.Some?) {
        return;
      }
      properties := properties[key := v];
      var i := canvas.active.value;
      canvas.Update(i, Applied(canvas.objects[i], key, v));
    }

    /** `updateDimensions`: scale the object by width for key "width" and by
        height otherwise, then refresh only `width` and `height` in the
        record from the object's new scaled size. */
    method UpdateDimensions(key: string, value: int,
                            scaleTo: (Drawable, Axis, int) -> Drawable,
                            scaledSize: Drawable -> (real, real))
      modifies this`properties, canvas
      ensures !old(HasSelection()) ==> properties == old(properties)
      ensures canvas != null && !old(HasSelection()) ==>
        canvas.objects == old(canvas.objects) && canvas.active == old(canvas.active)
      ensures old(HasSelection()) ==>
        var o := scaleTo(old(Selected()), AxisOf(key), value);
        && canvas.Valid() && canvas.active == old(canvas.active)
        && canvas.objects == old(canvas.objects)[canvas.active.value := o]
        && properties == old(properties)["width" := Num(Round(scaledSize(o).0) as real)]
                                        ["height" := Num(Round(scaledSize(o).1) as real)]
    {
      if !(canvas != null && canvas.Valid() && canvas.active.Some?) {
        return;
      }
      var i := canvas.active.value;
      var o := scaleTo(canvas.objects[i], AxisOf(key), value);
      canvas.Update(i, o);
      var size := scaledSize(o);
      properties := properties["width" := Num(Round(size.0) as real)]["height" := Num(Round(size.1) as real)];
    }
  }
}
