/** The canvas editor's state machine: the snapshot history and its cursor,
    the action dispatcher, the asynchronous undo and redo loads, the seeding
    fetch, image upload and zoom. `EditorState` and the functions over it say
    what each handler does; the `Editor` class performs the same steps on the
    shared fabric canvas and is proved against those functions. */
module CanvasEditor {
  import opened Text
  import opened Fabric

  // ---------------------------------------------------------------
  // Action names.
  // ---------------------------------------------------------------

  /** The names in the tool list at the top of `handleAction`. */
  datatype Tool = Move | Rectangle | Circle | LineTool | TextTool | Pen | Frame

  function ToolName(t: Tool): string {
    match t
    case Move => "move"
    case Rectangle => "rectangle"
    case Circle => "circle"
    case LineTool => "line"
    case TextTool => "text"
    case Pen => "pen"
    case Frame => "frame"
  }

  const ToolNames: seq<string> := ["move", "rectangle", "circle", "line", "text", "pen", "frame"]

  /** What `handleAction` can be asked to do. A tool name always becomes
      `UseTool`, so the `switch` cases for "rectangle", "circle", "line",
      "text" and "frame" have no counterpart here: they cannot be reached. */
  datatype Action =
    | UseTool(tool: Tool)
    | Heading | Triangle | Image
    | Duplicate | Delete | Copy | Paste | Clear | Export
    | Undo | Redo
    | AlignLeft | AlignCenter | AlignRight
    | Unknown(name: string)

  /** The reachable `case` labels of the switch, besides the tools. */
  const CaseNames: seq<string> := ["heading", "triangle", "image", "duplicate", "delete", "copy",
    "paste", "clear", "export", "undo", "redo", "alignLeft", "alignCenter", "alignRight"]

  function ActionName(a: Action): string {
    match a
    case UseTool(t) => ToolName(t)
    case Heading => "heading"
    case Triangle => "triangle"
    case Image => "image"
    case Duplicate => "duplicate"
    case Delete => "delete"
    case Copy => "copy"
    case Paste => "paste"
    case Clear => "clear"
    case Export => "export"
    case Undo => "undo"
    case Redo => "redo"
    case AlignLeft => "alignLeft"
    case AlignCenter => "alignCenter"
    case AlignRight => "alignRight"
    case Unknown(n) => n
  }

  /** `Unknown` carries only names the dispatcher does not recognise. */
  predicate Canonical(a: Action) {
    a.Unknown? ==> a.name !in ToolNames && a.name !in CaseNames
  }

  /** The action a string names: the tool test first, then the switch. */
  function ParseAction(name: string): (a: Action)
    ensures ActionName(a) == name && Canonical(a)
    ensures a.UseTool? <==> name in ToolNames
  {
    if name == "move" then UseTool(Move)
    else if name == "rectangle" then UseTool(Rectangle)
    else if name == "circle" then UseTool(Circle)
    else if name == "line" then UseTool(LineTool)
    else if name == "text" then UseTool(TextTool)
    else if name == "pen" then UseTool(Pen)
    else if name == "frame" then UseTool(Frame)
    else if name == "heading" then Heading
    else if name == "triangle" then Triangle
    else if name == "image" then Image
    else if name == "duplicate" then Duplicate
    else if name == "delete" then Delete
    else if name == "copy" then Copy
    else if name == "paste" then Paste
    else if name == "clear" then Clear
    else if name == "export" then Export
    else if name == "undo" then Undo
    else if name == "redo" then Redo
    else if name == "alignLeft" then AlignLeft
    else if name == "alignCenter" then AlignCenter
    else if name == "alignRight" then AlignRight
    else Unknown(name)
  }

  /** Every canonical action is what its own name parses to. */
  lemma ParseActionName(a: Action)
    requires Canonical(a)
    ensures ParseAction(ActionName(a)) == a
  {
  }

  // ---------------------------------------------------------------
  // The objects the reachable creation cases insert.
  // ---------------------------------------------------------------

  /** The heading, with the `type` string fabric v5 gives an `IText`. */
  const HeadingObject: Drawable := NewObject("i-text", map[
    "text" := Str("Your Heading"), "left" := Num(100.0), "top" := Num(100.0),
    "fontSize" := Num(48.0), "fill" := Str("#000000"), "fontFamily" := Str("Arial"),
    "fontWeight" := Str("bold")])

  const TriangleObject: Drawable := NewObject("triangle", map[
    "left" := Num(100.0), "top" := Num(100.0), "width" := Num(150.0), "height" := Num(150.0),
    "fill" := Str("#10b981"), "stroke" := Str("#059669"), "strokeWidth" := Num(2.0)])

  // ---------------------------------------------------------------
  // Editor state and the history store.
  // ---------------------------------------------------------------

  /** What the canvas shows and which object is selected. */
  datatype Scene = Scene(objects: seq<Drawable>, background: string, active: Option<nat>)

  function SnapOf(sc: Scene): Snapshot {
    Snapshot(sc.objects, sc.background)
  }

  predicate SceneValid(sc: Scene) {
    sc.active.Some? ==> sc.active.value < |sc.objects|
  }

  /** The editor's state: the canvas scene, the one-slot clipboard, the
      snapshot history and its cursor, the active tool and the design title. */
  datatype EditorState = EditorState(
    scene: Scene,
    clipboard: Option<Drawable>,
    history: seq<Snapshot>,
    step: int,
    tool: Tool,
    title: string)

  predicate WellFormed(st: EditorState) {
    st.step >= -1 && SceneValid(st.scene)
  }

  /** The cursor indexes a snapshot, or is -1 on an empty history. */
  predicate CursorInRange(st: EditorState) {
    -1 <= st.step < |st.history|
  }

  /** `canUndo` as both the header and the toolbar receive it: with the
      cursor in range, exactly when a snapshot precedes the cursor's. */
  predicate CanUndo(st: EditorState)
    ensures CursorInRange(st) ==> (CanUndo(st) <==> Entry(st.history, st.step - 1).Some?)
  {
    st.step > 0
  }

  /** `canRedo` as both the header and the toolbar receive it: with the
      cursor in range, exactly when a snapshot follows the cursor's. */
  predicate CanRedo(st: EditorState)
    ensures CursorInRange(st) ==> (CanRedo(st) <==> Entry(st.history, st.step + 1).Some?)
  {
    st.step < |st.history| - 1
  }

  /** `canPaste`: the clipboard slot holds an object. */
  predicate CanPaste(st: EditorState) { st.clipboard.Some? }

  /** The canvas shows exactly the snapshot under the cursor. */
  predicate ShowsCursor(st: EditorState) {
    0 <= st.step < |st.history| && SnapOf(st.scene) == st.history[st.step]
  }

  /** `[...prev.slice(0, step + 1), s]`; `slice` clamps an end beyond the length. */
  function Pushed(h: seq<Snapshot>, step: int, s: Snapshot): seq<Snapshot>
    requires step >= -1
  {
    h[..if step + 1 <= |h| then step + 1 else |h|] + [s]
  }

  /** `saveHistory`: push the current canvas and advance the cursor. */
  function Push(st: EditorState): (r: EditorState)
    requires WellFormed(st)
    ensures WellFormed(r)
  {
    st.(history := Pushed(st.history, st.step, SnapOf(st.scene)), step := st.step + 1)
  }

  /** A push keeps everything up to the cursor, drops everything after it,
      appends the snapshot and leaves the cursor on it. */
  lemma PushTruncates(h: seq<Snapshot>, step: int, s: Snapshot)
    requires -1 <= step < |h|
    ensures |Pushed(h, step, s)| == step + 2
    ensures Pushed(h, step, s)[..step + 1] == h[..step + 1]
    ensures Pushed(h, step, s)[step + 1] == s
  {
  }

  /** After any push from a cursor in range, the cursor is at the tail:
      nothing can be redone, and the canvas shows the cursor's snapshot. */
  lemma PushLeavesCursorAtTail(st: EditorState)
    requires WellFormed(st) && CursorInRange(st)
    ensures CursorInRange(Push(st)) && Push(st).step == |Push(st).history| - 1
    ensures !CanRedo(Push(st)) && ShowsCursor(Push(st))
    ensures CanUndo(Push(st)) <==> st.step >= 0
  {
    PushTruncates(st.history, st.step, SnapOf(st.scene));
  }

  /** `n` successive pushes of `ss` starting from cursor `c`. */
  function PushMany(h: seq<Snapshot>, c: int, ss: seq<Snapshot>): (seq<Snapshot>, int)
    requires c >= -1
    decreases |ss|
  {
    if ss == [] then (h, c)
    else PushMany(Pushed(h, c, ss[0]), c + 1, ss[1..])
  }

  /** Pushing with the cursor at the tail appends: after pushes of `ss` onto
      an empty history, the history is `ss` and the cursor is `|ss| - 1`. */
  lemma {:induction false} PushManyAtTail(h: seq<Snapshot>, ss: seq<Snapshot>)
    ensures PushMany(h, |h| - 1, ss) == (h + ss, |h| + |ss| - 1)
    decreases |ss|
  {
    if ss == [] {
      assert h + ss == h;
    } else {
      var h' := Pushed(h, |h| - 1, ss[0]);
      assert h' == h + [ss[0]];
      assert PushMany(h, |h| - 1, ss) == PushMany(h', |h'| - 1, ss[1..]);
      PushManyAtTail(h', ss[1..]);
      assert h' + ss[1..] == h + ss;
    }
  }

  // ---------------------------------------------------------------
  // The dispatcher.
  // ---------------------------------------------------------------

  /** A load of `history[target]` that has been started and not yet resolved;
      `snapshot` is `None` when the target was no index of the history. */
  datatype PendingLoad = PendingLoad(target: nat, snapshot: Option<Snapshot>)

  /** What a handler asks of the world besides its state change. */
  datatype Effect = NoEffect | OpenFilePicker | Download(fileName: string) | StartLoad(load: PendingLoad)

  datatype Outcome = Outcome(state: EditorState, effect: Effect)

  function Entry(h: seq<Snapshot>, i: int): Option<Snapshot> {
    if 0 <= i < |h| then Some(h[i]) else None
  }

  /** `canvas.add(o); canvas.setActiveObject(o)`. */
  function Added(sc: Scene, o: Drawable): (r: Scene)
    ensures SceneValid(r)
  {
    Scene(sc.objects + [o], sc.background, Some(|sc.objects|))
  }

  /** The three alignment actions. */
  predicate IsAlign(a: Action) {
    a.AlignLeft? || a.AlignCenter? || a.AlignRight?
  }

  /** The `left` an alignment action gives object `o`: 0, centred on the
      800-unit canvas, or flush with its right edge, by the object's scaled
      width (`width * scaleX`), which fabric measures. */
  function AlignedLeft(a: Action, o: Drawable, scaledWidth: Drawable -> real): real
    requires IsAlign(a)
  {
    if a.AlignLeft? then 0.0
    else if a.AlignCenter? then (CanvasWidth - scaledWidth(o)) / 2.0
    else CanvasWidth - scaledWidth(o)
  }

  /** `selectedObject.set({left: ...})` for an alignment action: only the
      selected object's `left` changes, and the selection stays where it was. */
  function MovedTo(sc: Scene, a: Action, scaledWidth: Drawable -> real): (r: Scene)
    requires SceneValid(sc) && IsAlign(a)
    ensures SceneValid(r)
    ensures |r.objects| == |sc.objects| && r.active == sc.active && r.background == sc.background
    ensures forall j :: 0 <= j < |sc.objects| && Some(j) != sc.active ==> r.objects[j] == sc.objects[j]
    ensures sc.active.Some? ==>
      var i := sc.active.value;
      && Get(r.objects[i], "left") == Some(Num(AlignedLeft(a, sc.objects[i], scaledWidth)))
      && (forall k :: k != "left" ==> Get(r.objects[i], k) == Get(sc.objects[i], k))
      && r.objects[i].kind == sc.objects[i].kind && r.objects[i].name == sc.objects[i].name
  {
    if sc.active.None? then sc
    else
      var i := sc.active.value;
      sc.(objects := sc.objects[i := Set(sc.objects[i], "left", Num(AlignedLeft(a, sc.objects[i], scaledWidth)))])
  }

  /** The body of the `switch` (lines 109-319) for a name outside the tool
      list. `scaledWidth` is fabric's measure of an object's scaled width,
      which the alignment cases read. */
  function Switch(a: Action, st: EditorState, scaledWidth: Drawable -> real): (r: Outcome)
    requires WellFormed(st) && !a.UseTool?
    ensures WellFormed(r.state)
  {
    var sc := st.scene;
    match a
    case Heading => Outcome(st.(scene := Added(sc, HeadingObject)), NoEffect)
    case Triangle => Outcome(st.(scene := Added(sc, TriangleObject)), NoEffect)
    case Image => Outcome(st, OpenFilePicker)
    case Duplicate =>
      if sc.active.Some? then Outcome(st.(scene := Added(sc, Shifted(sc.objects[sc.active.value]))), NoEffect)
      else Outcome(st, NoEffect)
    case Delete =>
      if sc.active.Some? then
        var i := sc.active.value;
        Outcome(st.(scene := Scene(sc.objects[..i] + sc.objects[i + 1..], sc.background, None)), NoEffect)
      else Outcome(st, NoEffect)
    case Copy =>
      if sc.active.Some? then Outcome(st.(clipboard := Some(sc.objects[sc.active.value])), NoEffect)
      else Outcome(st, NoEffect)
    case Paste =>
      if st.clipboard.Some? then Outcome(st.(scene := Added(sc, Shifted(st.clipboard.value))), NoEffect)
      else Outcome(st, NoEffect)
    case Clear => Outcome(st.(scene := Scene([], White, None)), NoEffect)
    case Export => Outcome(st, Download(st.title + ".png"))
    case Undo =>
      if st.step > 0 then Outcome(st, StartLoad(PendingLoad(st.step - 1, Entry(st.history, st.step - 1))))
      else Outcome(st, NoEffect)
    case Redo =>
      if st.step < |st.history| - 1 then Outcome(st, StartLoad(PendingLoad(st.step + 1, Entry(st.history, st.step + 1))))
      else Outcome(st, NoEffect)
    case AlignLeft => Outcome(st.(scene := MovedTo(sc, a, scaledWidth)), NoEffect)
    case AlignCenter => Outcome(st.(scene := MovedTo(sc, a, scaledWidth)), NoEffect)
    case AlignRight => Outcome(st.(scene := MovedTo(sc, a, scaledWidth)), NoEffect)
    case UseTool(_) => Outcome(st, NoEffect)
    case Unknown(_) => Outcome(st, NoEffect)
  }

  /** `handleAction(a)`: the tool test, the canvas test, the switch, then
      the unconditional `saveHistory()` at line 321. */
  function Dispatch(a: Action, st: EditorState, hasCanvas: bool, scaledWidth: Drawable -> real): (r: Outcome)
    requires WellFormed(st)
    ensures WellFormed(r.state)
  {
    if a.UseTool? then Outcome(st.(tool := a.tool), NoEffect)
    else if !hasCanvas then Outcome(st, NoEffect)
    else
      var sw := Switch(a, st, scaledWidth);
      Outcome(Push(sw.state), sw.effect)
  }

  /** The resolution of a pending load: on success the canvas shows the
      snapshot and the cursor becomes the target; on failure nothing is set. */
  function Complete(st: EditorState, p: PendingLoad, ok: bool, hasCanvas: bool): (r: EditorState)
    requires WellFormed(st)
    ensures WellFormed(r)
  {
    if ok && hasCanvas && p.snapshot.Some? then
      st.(scene := Scene(p.snapshot.value.objects, p.snapshot.value.background, None), step := p.target)
    else st
  }

  // ---------------------------------------------------------------
  // Properties of the dispatcher.
  // ---------------------------------------------------------------

  /** Tool names only set the active tool: no canvas change, no push, no effect. */
  lemma ToolActionsOnlySetTool(t: Tool, st: EditorState, hasCanvas: bool, w: Drawable -> real)
    requires WellFormed(st)
    ensures Dispatch(UseTool(t), st, hasCanvas, w) == Outcome(st.(tool := t), NoEffect)
  {
  }

  /** Without a canvas every other action does nothing at all. */
  lemma NoCanvasNoChange(a: Action, st: EditorState, w: Drawable -> real)
    requires WellFormed(st) && !a.UseTool?
    ensures Dispatch(a, st, false, w) == Outcome(st, NoEffect)
  {
  }

  /** With a canvas, every other action (undo, redo, export and unknown
      names included) ends in exactly one push of the resulting canvas. */
  lemma NonToolActionsPushOnce(a: Action, st: EditorState, w: Drawable -> real)
    requires WellFormed(st) && CursorInRange(st) && !a.UseTool?
    ensures var r := Dispatch(a, st, true, w).state;
      && r.history == Pushed(st.history, st.step, SnapOf(r.scene))
      && r.step == st.step + 1 && r.step == |r.history| - 1
      && r.tool == st.tool
  {
    var sw := Switch(a, st, w);
    assert sw.state.history == st.history && sw.state.step == st.step;
    PushTruncates(st.history, st.step, SnapOf(sw.state.scene));
  }

  /** Only heading, triangle, duplicate and paste add objects; heading and
      triangle are the only actions that create a shape from nothing. */
  lemma OnlyCreationActionsAddObjects(a: Action, st: EditorState, hasCanvas: bool, w: Drawable -> real)
    requires WellFormed(st)
    ensures var r := Dispatch(a, st, hasCanvas, w).state;
      |r.scene.objects| > |st.scene.objects| ==> a in {Heading, Triangle, Duplicate, Paste}
    ensures hasCanvas && a == Heading ==> Dispatch(a, st, hasCanvas, w).state.scene.objects == st.scene.objects + [HeadingObject]
    ensures hasCanvas && a == Triangle ==> Dispatch(a, st, hasCanvas, w).state.scene.objects == st.scene.objects + [TriangleObject]
  {
    var r := Dispatch(a, st, hasCanvas, w).state;
    if !a.UseTool? && hasCanvas && a !in {Heading, Triangle, Duplicate, Paste} {
      var i := st.scene.active;
      if a == Delete && i.Some? {
        assert |r.scene.objects| == |st.scene.objects| - 1;
      } else if a.AlignLeft? || a.AlignCenter? || a.AlignRight? {
        assert |r.scene.objects| == |st.scene.objects|;
      }
    }
  }

  /** Delete removes exactly the selected object and clears the selection;
      without a selection the objects are unchanged. */
  lemma DeleteRemovesSelection(st: EditorState, w: Drawable -> real)
    requires WellFormed(st)
    ensures var r := Dispatch(Delete, st, true, w).state.scene;
      && (st.scene.active.Some? ==>
            var i := st.scene.active.value;
            r.objects == st.scene.objects[..i] + st.scene.objects[i + 1..] && r.active == None)
      && (st.scene.active.None? ==> r.objects == st.scene.objects)
  {
  }

  /** Copy overwrites the clipboard with the selection and changes nothing on the canvas. */
  lemma CopyFillsClipboardOnly(st: EditorState, w: Drawable -> real)
    requires WellFormed(st)
    ensures var r := Dispatch(Copy, st, true, w).state;
      && r.scene == st.scene
      && r.clipboard == (if st.scene.active.Some? then Some(st.scene.objects[st.scene.active.value]) else st.clipboard)
  {
  }

  /** Paste adds a clone of the clipboard shifted by 20 in left and top,
      selects it, and leaves the clipboard as it was; so two pastes insert two
      objects at the same offset from the clipboard. */
  lemma PasteAddsShiftedClone(st: EditorState, w: Drawable -> real)
    requires WellFormed(st) && st.clipboard.Some?
    ensures var r := Dispatch(Paste, st, true, w).state;
      && r.scene.objects == st.scene.objects + [Shifted(st.clipboard.value)]
      && r.scene.active == Some(|st.scene.objects|)
      && r.clipboard == st.clipboard
  {
  }

  /** Duplicate adds a clone of the selection shifted by 20 and keeps the clipboard. */
  lemma DuplicateAddsShiftedClone(st: EditorState, w: Drawable -> real)
    requires WellFormed(st) && st.scene.active.Some?
    ensures var r := Dispatch(Duplicate, st, true, w).state;
      && r.scene.objects == st.scene.objects + [Shifted(st.scene.objects[st.scene.active.value])]
      && r.clipboard == st.clipboard
  {
  }

  /** The three enablement flags agree with the dispatcher: undo and redo
      start a load exactly when their button is enabled, and paste adds an
      object exactly when it is. */
  lemma ButtonsMatchDispatcher(st: EditorState, w: Drawable -> real)
    requires WellFormed(st) && CursorInRange(st)
    ensures CanUndo(st) <==> Dispatch(Undo, st, true, w).effect.StartLoad?
    ensures CanRedo(st) <==> Dispatch(Redo, st, true, w).effect.StartLoad?
    ensures CanPaste(st) <==> |Dispatch(Paste, st, true, w).state.scene.objects| == |st.scene.objects| + 1
    ensures !CanPaste(st) ==> Dispatch(Paste, st, true, w).state.scene == st.scene
  {
  }

  /** The alignment cases set the selected object's `left` to 0, to centre
      its measured width on the 800-unit canvas, or to put its right edge on
      the canvas's; no other object moves and the selection is kept. */
  lemma AlignPlacesSelected(a: Action, st: EditorState, w: Drawable -> real)
    requires WellFormed(st) && IsAlign(a) && st.scene.active.Some?
    ensures var i := st.scene.active.value;
      var o := st.scene.objects[i];
      var r := Dispatch(a, st, true, w).state.scene;
      && |r.objects| == |st.scene.objects| && r.active == st.scene.active
      && Get(r.objects[i], "left") == Some(Num(
           if a.AlignLeft? then 0.0
           else if a.AlignCenter? then (800.0 - w(o)) / 2.0
           else 800.0 - w(o)))
      && (forall j :: 0 <= j < |r.objects| && j != i ==> r.objects[j] == st.scene.objects[j])
  {
    var sw := Switch(a, st, w);
    assert sw.state.scene == MovedTo(st.scene, a, w);
  }

  /** The image button only asks for the file picker, and export only asks
      for a download named after the title; neither touches the canvas, the
      clipboard or the tool, and both are followed by the push. */
  lemma ImageAndExportOnlyAskTheWorld(st: EditorState, w: Drawable -> real)
    requires WellFormed(st)
    ensures var r := Dispatch(Image, st, true, w);
      && r.effect == OpenFilePicker
      && r.state.scene == st.scene && r.state.clipboard == st.clipboard && r.state.tool == st.tool
      && r.state.history == Pushed(st.history, st.step, SnapOf(st.scene))
    ensures var r := Dispatch(Export, st, true, w);
      && r.effect == Download(st.title + ".png")
      && r.state.scene == st.scene && r.state.clipboard == st.clipboard && r.state.tool == st.tool
      && r.state.history == Pushed(st.history, st.step, SnapOf(st.scene))
  {
  }

  /** Undo starts a load only when the cursor is above 0. The load targets
      `cursor - 1` and carries that entry; the push at line 321 happens
      before it resolves, so the redo tail is cut and the canvas appended. */
  lemma UndoRequest(st: EditorState, w: Drawable -> real)
    requires WellFormed(st) && CursorInRange(st)
    ensures var r := Dispatch(Undo, st, true, w);
      && (r.effect.StartLoad? <==> CanUndo(st))
      && (CanUndo(st) ==> r.effect.load == PendingLoad(st.step - 1, Some(st.history[st.step - 1])))
      && r.state.history == st.history[..st.step + 1] + [SnapOf(st.scene)]
      && r.state.step == st.step + 1 && !CanRedo(r.state)
  {
  }

  /** Redo starts a load only when the cursor is below the tail, targets
      `cursor + 1`, and is followed by the same push. */
  lemma RedoRequest(st: EditorState, w: Drawable -> real)
    requires WellFormed(st) && CursorInRange(st)
    ensures var r := Dispatch(Redo, st, true, w);
      && (r.effect.StartLoad? <==> CanRedo(st))
      && (CanRedo(st) ==> r.effect.load == PendingLoad(st.step + 1, Some(st.history[st.step + 1])))
      && r.state.history == st.history[..st.step + 1] + [SnapOf(st.scene)]
      && r.state.step == st.step + 1
  {
  }

  /** A successful load sets the cursor to its target and shows its snapshot;
      a failed one leaves the whole state as it was. */
  lemma CompletionSetsCursor(st: EditorState, p: PendingLoad, ok: bool)
    requires WellFormed(st) && p.snapshot.Some?
    ensures ok ==> (Complete(st, p, ok, true).step == p.target
                    && SnapOf(Complete(st, p, ok, true).scene) == p.snapshot.value)
    ensures !ok ==> Complete(st, p, ok, true) == st
  {
  }

  /** An undo request resolved before anything else keeps the cursor in range
      and the canvas showing the entry under it. */
  lemma UndoRoundKeepsShowsCursor(st: EditorState, w: Drawable -> real)
    requires WellFormed(st) && CursorInRange(st) && CanUndo(st)
    ensures var r := Dispatch(Undo, st, true, w);
      ShowsCursor(Complete(r.state, r.effect.load, true, true))
  {
    var r := Dispatch(Undo, st, true, w);
    assert r.state.history[st.step - 1] == st.history[st.step - 1];
  }

  /** Undo then redo, each resolved before the next action, brings back the
      canvas content shown before the undo. */
  lemma UndoThenRedoRestoresCanvas(st: EditorState, w: Drawable -> real)
    requires WellFormed(st) && ShowsCursor(st) && CanUndo(st)
    ensures var u := Dispatch(Undo, st, true, w);
      var s1 := Complete(u.state, u.effect.load, true, true);
      var d := Dispatch(Redo, s1, true, w);
      && CanRedo(s1) && d.effect.StartLoad?
      && SnapOf(Complete(d.state, d.effect.load, true, true).scene) == SnapOf(st.scene)
  {
    var c := st.step;
    var u := Dispatch(Undo, st, true, w);
    assert u.state.history == st.history[..c + 1] + [SnapOf(st.scene)];
    var s1 := Complete(u.state, u.effect.load, true, true);
    assert s1.step == c - 1;
    assert s1.history[c] == st.history[c];
  }

  /** Because undo and redo push too, two undos can be redone only once:
      from `[s0, s1, s2]` showing `s2`, undo, undo, redo reaches `s1` and
      then no redo is possible, so `s2` is out of reach. */
  lemma TwoUndosAllowOneRedo(s0: Snapshot, s1: Snapshot, s2: Snapshot, st: EditorState, w: Drawable -> real)
    requires st.history == [s0, s1, s2] && st.step == 2 && SceneValid(st.scene) && SnapOf(st.scene) == s2
    ensures var u1 := Dispatch(Undo, st, true, w);
      var a1 := Complete(u1.state, u1.effect.load, true, true);
      var u2 := Dispatch(Undo, a1, true, w);
      var a2 := Complete(u2.state, u2.effect.load, true, true);
      var r1 := Dispatch(Redo, a2, true, w);
      var a3 := Complete(r1.state, r1.effect.load, true, true);
      && u1.effect.StartLoad? && u2.effect.StartLoad? && r1.effect.StartLoad?
      && SnapOf(a3.scene) == s1 && !CanRedo(a3)
  {
    var u1 := Dispatch(Undo, st, true, w);
    assert u1.state.history == [s0, s1, s2, s2];
    var a1 := Complete(u1.state, u1.effect.load, true, true);
    assert a1.step == 1 && SnapOf(a1.scene) == s1;
    var u2 := Dispatch(Undo, a1, true, w);
    assert u2.state.history == [s0, s1, s1];
    var a2 := Complete(u2.state, u2.effect.load, true, true);
    assert a2.step == 0 && SnapOf(a2.scene) == s0;
    var r1 := Dispatch(Redo, a2, true, w);
    assert r1.effect.load == PendingLoad(1, Some(s1));
    assert r1.state.history == [s0, s0];
  }

  // ---------------------------------------------------------------
  // Fetching, uploading and zooming.
  // ---------------------------------------------------------------

  datatype DesignDoc = DesignDoc(title: string, jsonData: Snapshot)

  /** What `designAPI.getById` produced: a rejection, or a reply. */
  datatype FetchResult = FetchThrew | FetchReplied(success: bool, design: Option<DesignDoc>)

  /** A `saveHistory` closure from an earlier render: the kept prefix is cut
      at the cursor `captured` that render saw, while the cursor update
      (`prev + 1`) reads the current cursor. */
  function StalePush(st: EditorState, captured: int): (r: EditorState)
    requires WellFormed(st) && captured >= -1
    ensures WellFormed(r)
  {
    st.(history := Pushed(st.history, captured, SnapOf(st.scene)), step := st.step + 1)
  }

  /** A closure from the current render is the ordinary push. */
  lemma StalePushAtCurrentCursor(st: EditorState)
    requires WellFormed(st)
    ensures StalePush(st, st.step) == Push(st)
  {
  }

  /** A stale push from a cursor behind the tail drops every entry after the
      captured cursor, yet the cursor still advances from the current one, so
      it ends past the end of the history. */
  lemma StalePushPassesEnd(st: EditorState, captured: int)
    requires WellFormed(st) && CursorInRange(st) && -1 <= captured < st.step
    ensures var r := StalePush(st, captured);
      && r.history == st.history[..captured + 1] + [SnapOf(st.scene)]
      && r.step >= |r.history| && !CursorInRange(r) && !ShowsCursor(r)
  {
    PushTruncates(st.history, captured, SnapOf(st.scene));
  }

  /** The cursor in the render where the canvas first appeared, which created
      the fetch effect (its dependencies are the canvas and the id): nothing
      can move the cursor before the canvas exists, so it is still -1. */
  const FetchCursor: int := -1

  /** `fetchDesign`: on a successful reply the title is set; when the canvas
      load then succeeds the canvas shows the design and the effect's own
      `saveHistory` pushes it, cutting the history at `FetchCursor`. */
  function Fetched(st: EditorState, result: FetchResult, loadOk: bool): (r: EditorState)
    requires WellFormed(st)
    ensures WellFormed(r)
  {
    match result
    case FetchReplied(true, Some(doc)) =>
      var titled := st.(title := doc.title);
      if loadOk then StalePush(titled.(scene := Scene(doc.jsonData.objects, doc.jsonData.background, None)), FetchCursor)
      else titled
    case _ => st
  }

  /** A new design starts with an empty history and cursor -1; a successful
      load of a saved design leaves exactly one snapshot, the loaded one,
      under cursor 0, with neither undo nor redo available. */
  lemma SeededByFetch(st: EditorState, doc: DesignDoc)
    requires WellFormed(st) && st.history == [] && st.step == -1
    ensures var r := Fetched(st, FetchReplied(true, Some(doc)), true);
      && r.history == [doc.jsonData] && r.step == 0
      && !CanUndo(r) && !CanRedo(r) && ShowsCursor(r)
  {
  }

  /** Whatever was pushed while the request was pending, a loaded design
      replaces the whole history by its own snapshot, and the cursor still
      advances from where it was: after any earlier push it lies past the
      end, and undo is enabled though no entry precedes the design's. */
  lemma FetchAfterEditsPassesEnd(st: EditorState, doc: DesignDoc)
    requires WellFormed(st) && st.step >= 0
    ensures var r := Fetched(st, FetchReplied(true, Some(doc)), true);
      && r.history == [doc.jsonData] && r.step == st.step + 1
      && !CursorInRange(r) && !ShowsCursor(r) && CanUndo(r)
      && SnapOf(r.scene) == doc.jsonData
  {
  }

  /** A file chosen while the canvas exists: the reader's `onload` closure
      keeps the cursor of the render in which the file was chosen. */
  datatype ImageRead = ImageRead(cursor: int)

  /** `reader.onload` once the image has been decoded and scaled: add it,
      select it, and push with the captured `saveHistory`. */
  function Uploaded(st: EditorState, read: ImageRead, img: Drawable): (r: EditorState)
    requires WellFormed(st) && read.cursor >= -1
    ensures WellFormed(r)
  {
    StalePush(st.(scene := Added(st.scene, img)), read.cursor)
  }

  /** An image read with nothing in between is appended and selected, and
      one push follows, so the cursor is at the new tail, which holds the
      canvas with the image. */
  lemma UploadAddsAndPushes(st: EditorState, img: Drawable)
    requires WellFormed(st) && CursorInRange(st)
    ensures var r := Uploaded(st, ImageRead(st.step), img);
      && r.scene.objects == st.scene.objects + [img]
      && r.scene.active == Some(|st.scene.objects|)
      && r.scene.background == st.scene.background && r.clipboard == st.clipboard
      && r.history == st.history[..st.step + 1] + [Snapshot(st.scene.objects + [img], st.scene.background)]
      && r.step == st.step + 1 && r.step == |r.history| - 1
      && ShowsCursor(r) && !CanRedo(r)
  {
    PushLeavesCursorAtTail(st.(scene := Added(st.scene, img)));
  }

  /** An action taken while the image is being read pushes a snapshot that
      the upload's stale push then drops: the history ends with the canvas
      holding the image right after the entries up to the captured cursor,
      and the cursor lies one past the end. */
  lemma ActionDuringUploadIsDropped(a: Action, st: EditorState, img: Drawable, w: Drawable -> real)
    requires WellFormed(st) && CursorInRange(st) && !a.UseTool?
    ensures var mid := Dispatch(a, st, true, w).state;
      var r := Uploaded(mid, ImageRead(st.step), img);
      && r.scene.objects == mid.scene.objects + [img]
      && r.history == st.history[..st.step + 1] + [SnapOf(r.scene)]
      && r.step == st.step + 2 && r.step == |r.history|
  {
    var mid := Dispatch(a, st, true, w).state;
    NonToolActionsPushOnce(a, st, w);
    PushTruncates(st.history, st.step, SnapOf(mid.scene));
    assert mid.history[..st.step + 1] == st.history[..st.step + 1];
    StalePushPassesEnd(mid.(scene := Added(mid.scene, img)), st.step);
  }

  const MinZoom: real := 0.1
  const MaxZoom: real := 3.0

  /** `Math.max(0.1, Math.min(3, z))`. */
  function ClampZoom(z: real): (r: real)
    ensures MinZoom <= r <= MaxZoom
    ensures MinZoom <= z <= MaxZoom ==> r == z
    ensures z < MinZoom ==> r == MinZoom
    ensures z > MaxZoom ==> r == MaxZoom
  {
    var upper := if z < MaxZoom then z else MaxZoom;
    if upper > MinZoom then upper else MinZoom
  }

  /** Clamping is monotone and idempotent. */
  lemma ClampZoomMonotone(z1: real, z2: real)
    requires z1 <= z2
    ensures ClampZoom(z1) <= ClampZoom(z2)
    ensures ClampZoom(ClampZoom(z1)) == ClampZoom(z1)
  {
  }

  // ---------------------------------------------------------------
  // The component.
  // ---------------------------------------------------------------

  class Editor {
    /** `null` until the mount effect has created the fabric canvas. */
    var canvas: Canvas?
    /** The `:id` route parameter; `None` for a new design. */
    const designId: Option<string>
    var title: string
    var history: seq<Snapshot>
    var step: int
    var activeTool: Tool
    var clipboard: Option<Drawable>
    var zoom: real

    /** The cursor never drops below -1, and it stays at -1 on an empty
        history until the canvas exists (which is why the fetch effect, made
        in the render where the canvas appeared, saw `FetchCursor`); the
        canvas keeps a valid selection, and drawing mode is on exactly when
        the active tool is the pen. */
    predicate Valid()
      reads this, canvas
    {
      && step >= -1
      && (canvas == null ==> history == [] && step == FetchCursor)
      && (canvas != null ==> canvas.Valid() && canvas.drawingMode == (activeTool == Pen))
    }

    function State(): (st: EditorState)
      reads this, canvas
      requires Valid()
      ensures WellFormed(st)
    {
      var sc := if canvas != null then Scene(canvas.objects, canvas.background, canvas.active)
                else Scene([], White, None);
      EditorState(sc, clipboard, history, step, activeTool, title)
    }

    constructor (id: Option<string>)
      ensures Valid() && canvas == null && designId == id
      ensures history == [] && step == -1 && activeTool == Move
      ensures clipboard == None && zoom == 1.0 && title == "Untitled Design"
    {
      canvas := null;
      designId := id;
      title := "Untitled Design";
      history := [];
      step := -1;
      activeTool := Move;
      clipboard := None;
      zoom := 1.0;
    }

    /** The mount effect: create the white canvas, then sync drawing mode. */
    method Mount()
      requires Valid()
      modifies this
      ensures Valid() && fresh(canvas)
      ensures canvas.objects == [] && canvas.background == White && canvas.active == None
      ensures old(canvas) == null ==> history == [] && step == FetchCursor
      ensures history == old(history) && step == old(step) && activeTool == old(activeTool)
      ensures clipboard == old(clipboard) && zoom == old(zoom) && title == old(title)
    {
      var c := new Canvas();
      c.drawingMode := activeTool == Pen;
      canvas := c;
    }

    /** `saveHistory`. */
    method SaveHistory()
      requires Valid()
      modifies this
      ensures Valid() && canvas == old(canvas)
      ensures canvas == null ==> State() == old(State())
      ensures canvas != null ==> State() == Push(old(State()))
      ensures zoom == old(zoom)
    {
      if canvas == null {
        return;
      }
      var s := canvas.Snap();
      var keep := if step + 1 <= |history| then step + 1 else |history|;
      history := history[..keep] + [s];
      step := step + 1;
    }

    /** The `saveHistory` of an earlier render, which saw cursor `captured`. */
    method SaveHistoryAsOf(captured: int)
      requires Valid() && captured >= -1
      modifies this
      ensures Valid() && canvas == old(canvas)
      ensures canvas == null ==> State() == old(State())
      ensures canvas != null ==> State() == StalePush(old(State()), captured)
      ensures zoom == old(zoom)
    {
      if canvas == null {
        return;
      }
      var s := canvas.Snap();
      var keep := if captured + 1 <= |history| then captured + 1 else |history|;
      history := history[..keep] + [s];
      step := step + 1;
    }

    /** `handleAction(a)`; `scaledWidth` is fabric's measure of an object's
        scaled width, which the alignment cases read. */
    method HandleAction(a: Action, scaledWidth: Drawable -> real) returns (effect: Effect)
      requires Valid()
      modifies this, canvas
      ensures Valid() && canvas == old(canvas) && zoom == old(zoom)
      ensures canvas != null ==> canvas.zoom == old(canvas.zoom)
      ensures Outcome(State(), effect) == Dispatch(a, old(State()), old(canvas) != null, scaledWidth)
    {
      if a.UseTool? {
        activeTool := a.tool;
        if canvas != null {
          canvas.drawingMode := a.tool == Pen;
        }
        return NoEffect;
      }
      if canvas == null {
        return NoEffect;
      }
      effect := NoEffect;
      match a {
        case Heading =>
          canvas.AddAndSelect(HeadingObject);
        case Triangle =>
          canvas.AddAndSelect(TriangleObject);
        case Image =>
          effect := OpenFilePicker;
        case Duplicate =>
          if canvas.active.Some? {
            canvas.AddAndSelect(Shifted(canvas.objects[canvas.active.value]));
          }
        case Delete =>
          if canvas.active.Some? {
            canvas.RemoveActive();
          }
        case Copy =>
          if canvas.active.Some? {
            clipboard := Some(canvas.objects[canvas.active.value]);
          }
        case Paste =>
          if clipboard.Some? {
            canvas.AddAndSelect(Shifted(clipboard.value));
          }
        case Clear =>
          canvas.ClearToWhite();
        case Export =>
          effect := Download(title + ".png");
        case Undo =>
          if step > 0 {
            effect := StartLoad(PendingLoad(step - 1, Entry(history, step - 1)));
          }
        case Redo =>
          if step < |history| - 1 {
            effect := StartLoad(PendingLoad(step + 1, Entry(history, step + 1)));
          }
        case AlignLeft =>
          AlignSelected(a, scaledWidth);
        case AlignCenter =>
          AlignSelected(a, scaledWidth);
        case AlignRight =>
          AlignSelected(a, scaledWidth);
        case UseTool(_) =>
        case Unknown(_) =>
      }
      SaveHistory();
    }

    /** The alignment cases: `selectedObject.set({left: ...})` when something is selected. */
    method AlignSelected(a: Action, scaledWidth: Drawable -> real)
      requires Valid() && canvas != null && IsAlign(a)
      modifies canvas
      ensures Valid()
      ensures canvas.objects == MovedTo(old(State().scene), a, scaledWidth).objects
      ensures canvas.active == old(canvas.active) && canvas.background == old(canvas.background)
      ensures canvas.zoom == old(canvas.zoom)
    {
      if canvas.active.Some? {
        var i := canvas.active.value;
        canvas.Update(i, Set(canvas.objects[i], "left", Num(AlignedLeft(a, canvas.objects[i], scaledWidth))));
      }
    }

    /** The resolution of an undo or redo load started by `HandleAction`. */
    method CompleteLoad(p: PendingLoad, ok: bool)
      requires Valid()
      modifies this, canvas
      ensures Valid() && canvas == old(canvas) && zoom == old(zoom)
      ensures State() == Complete(old(State()), p, ok, old(canvas) != null)
    {
      if ok && canvas != null && p.snapshot.Some? {
        canvas.Load(p.snapshot.value);
        step := p.target;
      }
    }

    /** The fetch effect, which runs only with a canvas and a design id. */
    method FetchDesign(result: FetchResult, loadOk: bool)
      requires Valid()
      modifies this, canvas
      ensures Valid() && canvas == old(canvas) && zoom == old(zoom)
      ensures canvas == null || designId.None? ==> State() == old(State())
      ensures canvas != null && designId.Some? ==> State() == Fetched(old(State()), result, loadOk)
    {
      if canvas == null || designId.None? {
        return;
      }
      match result {
        case FetchReplied(true, Some(doc)) =>
          title := doc.title;
          if loadOk {
            canvas.Load(doc.jsonData);
            SaveHistoryAsOf(FetchCursor);
          }
        case _ =>
      }
    }

    /** `handleImageUpload`: with a chosen file and a canvas, the reader
        starts, and its `onload` closure keeps the current cursor. */
    method HandleImageUpload(fileChosen: bool) returns (read: Option<ImageRead>)
      requires Valid()
      ensures read.Some? <==> fileChosen && canvas != null
      ensures read.Some? ==> read.value.cursor == step && read.value.cursor >= -1
    {
      if !fileChosen || canvas == null {
        return None;
      }
      return Some(ImageRead(step));
    }

    /** `reader.onload`: `decoded` is the scaled image when decoding
        succeeded, `None` when it threw. */
    method ImageLoaded(read: ImageRead, decoded: Option<Drawable>)
      requires Valid() && read.cursor >= -1
      modifies this, canvas
      ensures Valid() && canvas == old(canvas) && zoom == old(zoom)
      ensures canvas == null || decoded.None? ==> State() == old(State())
      ensures canvas != null && decoded.Some? ==> State() == Uploaded(old(State()), read, decoded.value)
    {
      if canvas == null || decoded.None? {
        return;
      }
      canvas.AddAndSelect(decoded.value);
      SaveHistoryAsOf(read.cursor);
    }

    /** `handleZoomChange`: clamp, store, and apply to the canvas; the history is untouched. */
    method HandleZoomChange(z: real)
      requires Valid()
      modifies this, canvas
      ensures Valid() && canvas == old(canvas)
      ensures zoom == ClampZoom(z) && (canvas != null ==> canvas.zoom == ClampZoom(z))
      ensures State() == old(State())
    {
      zoom := ClampZoom(z);
      if canvas != null {
        canvas.zoom := zoom;
      }
    }
  }
}
