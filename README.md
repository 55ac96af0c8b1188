# Matty design tool — a Dafny model of its editor, panels, dashboard, forms and REST handlers

Matty is a browser design tool. A React client holds a fabric.js canvas
editor with layers and properties panels, a dashboard that lists a user's
designs, and login and registration forms. An Express/Mongoose server stores
designs and users. This project models the parts of it that carry rules, in
the program's own terms:

- **Canvas editor** (`CanvasEditor` module, `canvas_editor.dfy`). The
  snapshot history and its cursor, which starts at -1. `saveHistory`, with
  JavaScript's clamping `slice`. The `handleAction` dispatcher: the tool-list
  short-circuit, the canvas test, every reachable `switch` case, and the
  unconditional push at line 321. Undo and redo as a *request* (guard,
  target, push) plus a later *completion* (`CompleteLoad`: on success the
  cursor becomes the target; on failure nothing changes). The seeding fetch
  and image upload, each pushing with the `saveHistory` of the render that
  started it, and the zoom clamp. `EditorState` and the pure functions
  `Push`, `Switch`, `Dispatch`, `Complete`, `Fetched` and `Uploaded` say what
  each handler does. The `Editor` class performs the same steps in place on a
  shared `Fabric.Canvas` object, and each of its methods is proved equal to
  its function.
- **Fabric canvas** (`Fabric`, `fabric.dfy`). Objects are attribute records.
  A snapshot is the object list plus the background colour. The canvas is a
  class holding the objects, the active object (by position), drawing mode
  and zoom. The editor and both panels share it.
- **Layers panel** (`LayersPanel`). The layer list derived from the objects.
  The visibility and lock toggles, which change one object and one layer.
  The reversed display order, the locked-click rule, and the icon for each
  object type.
- **Properties panel** (`PropertiesPanel`). The property record built with
  `||` fallbacks and `Math.round`. `updateProperty`, where `rx` on a rect
  also sets `ry`. `updateDimensions`. The number-input parser
  `parseInt(text) || 0`. Which sections each object type shows.
- **Dashboard** (`Dashboard`). `timeAgo` over whole elapsed seconds. The
  fetch, delete (filter) and duplicate (prepend) updates of the design list.
  The open/closed state of a card's menu.
- **Registration and login forms** (`RegisterForm`, `LoginForm`, and
  `AuthResults` for the result type the two share). The ordered validation
  chain, `handleChange`, and the submit handler: what was passed to
  `register`/`login`, where the page navigated, and which error it shows.
- **Design handlers** (`DesignController`). The Mongoose collection is a map
  from id to `{owner, title, jsonData, thumbnailUrl, access, source,
  createdAt}` in a `DesignStore` class. Each handler returns its status code
  and changes the map or leaves it alone.
- **User handlers** (`UserController`). A user table keyed by email.
  Password comparison and token signing enter as function parameters.
- **String helpers** (`Text`). JavaScript's whitespace class, `trim`,
  `String(n)` and `parseInt` without a radix. This includes the `0x` prefix,
  the sign, and stopping at the first non-digit. `parseInt(String(n)) == n`
  is proved.

Parameters stand in for everything outside the program. A network reply is a
datatype value (`FetchResult`, `Reply`, `AuthResult`). `window.confirm` and
whether a request threw are booleans. Scaling and measuring a fabric object,
`comparePassword` and `generateToken` are function parameters. The clock is
an integer (`now`, or elapsed seconds for `timeAgo`).

Behaviours of the code worth stating:
- There is no guard that keeps a pending undo or redo load out of the
  history. The push at line 321 runs before the load resolves, so the redo
  tail is already cut off and the current canvas appended
  (`UndoRequest`, `TwoUndosAllowOneRedo`).
- Export pushes a snapshot like every other non-tool action
  (`NonToolActionsPushOnce`).
- Each paste offsets its clone from the clipboard object, not from the
  previous paste, so two pastes land at the same place
  (`PasteAddsShiftedClone`).
- Asynchronous handlers use the state of the render that created them. The
  fetch effect's `saveHistory` saw cursor -1, so a loaded design replaces
  the whole history (`FetchAfterEditsPassesEnd`). The image reader's
  `saveHistory` saw the cursor of the moment the file was chosen
  (`ActionDuringUploadIsDropped`). The dashboard's delete and duplicate
  handlers write to the list they saw before their request
  (`OverlappingDeletesRestoreCard`, `DuplicateAfterDeleteRestoresCard`).
- The design schema (server/models/Design.js, which is not part of this
  model) declares neither `access` nor `source`. The model stores both, as
  the controller writes them.

The model also makes two choices of its own:
- Each fabric call follows one fabric version, as listed under
  "## Left out". `loadFromJSON` follows v6 and returns a promise. `clone`,
  `setBackgroundColor` and `discardActiveObject` follow v5: `clone` calls its
  callback, the callback takes effect before the push at line 321, and
  `discardActiveObject` returns the canvas. The heading's `type` string is
  v5's `"i-text"`.
- A layer refers to its object by its index, which is how the panel
  numbered it.

## Model

| member | source | states |
|---|---|---|
| `Text.TrimIsInfix` | server/controllers/designController.js:115 | `trim` keeps an infix of the input; everything cut from either side is whitespace, and the result neither starts nor ends with whitespace |
| `Text.TrimIdempotent` | server/controllers/designController.js:160 | trimming a trimmed title changes nothing |
| `Text.ParseIntOfString` | client/src/components/Canvas/PropertiesPanel.js:56 | `parseInt` reads back every integer that `String` printed: `ParseInt(IntToString(i)) == Some(i)` |
| `Text.ParseIntStopsAtNonDigit` | client/src/components/Canvas/PropertiesPanel.js:56 | `parseInt` stops at the first non-digit after a numeral (an `x` after a leading `0` aside) |
| `Fabric.OrElse` | client/src/components/Canvas/PropertiesPanel.js:70-83 | `v || fallback`: a truthy value is kept, and any falsy or missing value gives the fallback |
| `Fabric.Set` | client/src/components/Canvas/PropertiesPanel.js:94 | `set(key, v)` changes that attribute and no other attribute or flag |
| `Fabric.Shifted` | client/src/components/Canvas/CanvasEditor.js:205-206 | a clone moved by +20 in `left` and in `top`, with every other attribute the same |
| `Fabric.Canvas.constructor` | client/src/components/Canvas/CanvasEditor.js:38-42 | a new canvas is empty and white, with nothing selected |
| `Fabric.Canvas.AddAndSelect` | client/src/components/Canvas/CanvasEditor.js:131-132 | `add` appends the object and `setActiveObject` selects it |
| `Fabric.Canvas.RemoveActive` | client/src/components/Canvas/CanvasEditor.js:215-217 | `remove` drops exactly the selected object and the selection becomes empty |
| `Fabric.Canvas.ClearToWhite` | client/src/components/Canvas/CanvasEditor.js:242-244 | `clear` empties the canvas and the background is white again |
| `Fabric.Canvas.Load` | client/src/components/Canvas/CanvasEditor.js:260-264 | a resolved `loadFromJSON` shows exactly the snapshot, with nothing selected |
| `CanvasEditor.ParseAction` | client/src/components/Canvas/CanvasEditor.js:92-105 | the action named by a string names it back; it is a tool exactly when the name is in the tool list, which is tested first |
| `CanvasEditor.ParseActionName` | client/src/components/Canvas/CanvasEditor.js:109-318 | every action the switch distinguishes parses back from its own name |
| `CanvasEditor.CanUndo` | client/src/components/Canvas/CanvasEditor.js:467 | `canUndo` (the same expression at lines 467 and 479): with the cursor in range, undo is enabled exactly when a snapshot precedes the cursor's |
| `CanvasEditor.CanRedo` | client/src/components/Canvas/CanvasEditor.js:468 | `canRedo` (the same expression at lines 468 and 480): with the cursor in range, redo is enabled exactly when a snapshot follows the cursor's |
| `CanvasEditor.CanPaste` | client/src/components/Canvas/CanvasEditor.js:481 | `canPaste`: the clipboard slot holds an object; `ButtonsMatchDispatcher` proves that paste adds an object exactly then |
| `CanvasEditor.ButtonsMatchDispatcher` | client/src/components/Canvas/CanvasEditor.js:228-288 | undo and redo start a load exactly when `canUndo`/`canRedo` hold, and paste adds an object exactly when `canPaste` holds (otherwise the canvas is unchanged) |
| `CanvasEditor.Push` | client/src/components/Canvas/CanvasEditor.js:81-86 | `saveHistory` keeps the cursor at -1 or above |
| `CanvasEditor.PushTruncates` | client/src/components/Canvas/CanvasEditor.js:84-85 | a push keeps the entries up to the cursor, drops those after it, and appends the snapshot, so the length becomes cursor + 2 |
| `CanvasEditor.PushLeavesCursorAtTail` | client/src/components/Canvas/CanvasEditor.js:81-86 | after a push the cursor is at the tail, redo is unavailable, the canvas shows the cursor's entry, and undo is available exactly when the old cursor was 0 or more |
| `CanvasEditor.PushManyAtTail` | client/src/components/Canvas/CanvasEditor.js:81-86 | pushes made with the cursor at the tail append, and the cursor ends on the last snapshot |
| `CanvasEditor.Added` | client/src/components/Canvas/CanvasEditor.js:131-132 | adding and selecting leaves a selection that is in range |
| `CanvasEditor.MovedTo` | client/src/components/Canvas/CanvasEditor.js:290-314 | alignment sets the selected object's `left` to `AlignedLeft` and no other attribute of it; every other object, the selection and the background are unchanged |
| `CanvasEditor.AlignPlacesSelected` | client/src/components/Canvas/CanvasEditor.js:290-314 | `alignLeft` puts the selection at 0, `alignCenter` at (800 - its measured scaled width) / 2, `alignRight` at 800 minus that width; no other object moves and the selection is kept |
| `CanvasEditor.Switch` | client/src/components/Canvas/CanvasEditor.js:109-319 | every switch case keeps the state well formed (the lemmas below say what each case does) |
| `CanvasEditor.Dispatch` | client/src/components/Canvas/CanvasEditor.js:92-323 | `handleAction` keeps the state well formed (the lemmas below say what it does) |
| `CanvasEditor.Complete` | client/src/components/Canvas/CanvasEditor.js:262-269 | resolving a load keeps the state well formed |
| `CanvasEditor.ToolActionsOnlySetTool` | client/src/components/Canvas/CanvasEditor.js:92-105 | a tool name sets the active tool and nothing else: the canvas is unchanged, nothing is pushed and there is no effect |
| `CanvasEditor.NoCanvasNoChange` | client/src/components/Canvas/CanvasEditor.js:107 | with no canvas, every non-tool action leaves the state unchanged |
| `CanvasEditor.NonToolActionsPushOnce` | client/src/components/Canvas/CanvasEditor.js:316-322 | with a canvas, every non-tool action (undo, redo, export and unknown names included) ends in exactly one push of the resulting canvas, leaving the cursor at the tail |
| `CanvasEditor.OnlyCreationActionsAddObjects` | client/src/components/Canvas/CanvasEditor.js:122-174 | only heading, triangle, duplicate and paste add objects; heading and triangle add their fixed default objects |
| `CanvasEditor.DeleteRemovesSelection` | client/src/components/Canvas/CanvasEditor.js:214-219 | delete removes exactly the selected object and clears the selection; with no selection the objects are unchanged |
| `CanvasEditor.CopyFillsClipboardOnly` | client/src/components/Canvas/CanvasEditor.js:221-227 | copy puts the selection in the clipboard slot (or leaves the slot alone when nothing is selected) and leaves the canvas unchanged |
| `CanvasEditor.PasteAddsShiftedClone` | client/src/components/Canvas/CanvasEditor.js:228-240 | paste appends and selects the clipboard's clone shifted by +20 and leaves the clipboard unchanged |
| `CanvasEditor.DuplicateAddsShiftedClone` | client/src/components/Canvas/CanvasEditor.js:203-212 | duplicate appends the selection's clone shifted by +20 and leaves the clipboard unchanged |
| `CanvasEditor.UndoRequest` | client/src/components/Canvas/CanvasEditor.js:256-271 | undo starts a load exactly when the cursor is above 0, targets cursor-1 with that entry, and the push has already cut off the redo tail |
| `CanvasEditor.RedoRequest` | client/src/components/Canvas/CanvasEditor.js:273-288 | redo starts a load exactly when the cursor is below the tail, targets cursor+1 with that entry, and is followed by the same push |
| `CanvasEditor.CompletionSetsCursor` | client/src/components/Canvas/CanvasEditor.js:262-269 | a successful load sets the cursor to its target and shows the target's snapshot; a failed load changes nothing |
| `CanvasEditor.UndoRoundKeepsShowsCursor` | client/src/components/Canvas/CanvasEditor.js:256-271 | an undo resolved before the next action leaves the canvas showing the entry under the cursor |
| `CanvasEditor.UndoThenRedoRestoresCanvas` | client/src/components/Canvas/CanvasEditor.js:256-288 | undo followed by redo, each resolved in turn, gives back the canvas shown before the undo |
| `CanvasEditor.TwoUndosAllowOneRedo` | client/src/components/Canvas/CanvasEditor.js:256-321 | from `[s0, s1, s2]` showing `s2`: two undos, then one redo, reach `s1`, after which redo is unavailable |
| `CanvasEditor.StalePush` | client/src/components/Canvas/CanvasEditor.js:81-86 | a `saveHistory` closure from an earlier render keeps the state well formed; `StalePushAtCurrentCursor` and `StalePushPassesEnd` state what it does |
| `CanvasEditor.StalePushAtCurrentCursor` | client/src/components/Canvas/CanvasEditor.js:81-86 | a `saveHistory` from the current render is exactly the ordinary push |
| `CanvasEditor.StalePushPassesEnd` | client/src/components/Canvas/CanvasEditor.js:84-85 | a `saveHistory` whose captured cursor is behind the current one drops every entry after the captured cursor and leaves the cursor past the end of the history |
| `CanvasEditor.Fetched` | client/src/components/Canvas/CanvasEditor.js:57-74 | the fetch effect keeps the state well formed; its push is the `saveHistory` of the render where the canvas appeared, which saw cursor -1 (`SeededByFetch` and `FetchAfterEditsPassesEnd` state what it does) |
| `CanvasEditor.SeededByFetch` | client/src/components/Canvas/CanvasEditor.js:61-67 | from history `[]` with cursor -1, a loaded design leaves exactly its snapshot under cursor 0, with neither undo nor redo available |
| `CanvasEditor.FetchAfterEditsPassesEnd` | client/src/components/Canvas/CanvasEditor.js:57-85 | when something was pushed while the request was pending, the loaded design replaces the whole history with its own snapshot, while the cursor advances from where it was: it ends past the end, and undo is enabled |
| `CanvasEditor.Uploaded` | client/src/components/Canvas/CanvasEditor.js:379-397 | `reader.onload` keeps the state well formed; it pushes with the `saveHistory` of the render in which the file was chosen (`UploadAddsAndPushes` and `ActionDuringUploadIsDropped` state what it does) |
| `CanvasEditor.UploadAddsAndPushes` | client/src/components/Canvas/CanvasEditor.js:387-391 | with nothing in between, the decoded image is appended and selected, then one push cuts the redo tail and appends the canvas with the image, leaving the cursor on it with redo unavailable |
| `CanvasEditor.ActionDuringUploadIsDropped` | client/src/components/Canvas/CanvasEditor.js:379-391 | an action taken while the file is being read pushes a snapshot that the upload's push then drops; the cursor ends one past the end of the history |
| `CanvasEditor.ImageAndExportOnlyAskTheWorld` | client/src/components/Canvas/CanvasEditor.js:199-254 | the image case asks for the file picker and the export case for a download named after the title plus ".png"; neither changes the canvas, the clipboard or the tool, and both are followed by the push |
| `CanvasEditor.ClampZoom` | client/src/components/Canvas/CanvasEditor.js:406-408 | the zoom is always in [0.1, 3], equals the request when it is in range, and is the nearer bound otherwise |
| `CanvasEditor.ClampZoomMonotone` | client/src/components/Canvas/CanvasEditor.js:407 | clamping preserves order and clamping twice is clamping once |
| `CanvasEditor.Editor.State` | client/src/components/Canvas/CanvasEditor.js:26-35 | the editor's fields read as a well-formed `EditorState` |
| `CanvasEditor.Editor.constructor` | client/src/components/Canvas/CanvasEditor.js:26-35 | a new editor has no canvas, history `[]`, cursor -1, the move tool, an empty clipboard, zoom 1 and the title "Untitled Design" |
| `CanvasEditor.Editor.Mount` | client/src/components/Canvas/CanvasEditor.js:36-55 | mounting creates an empty white canvas whose drawing mode matches the tool, and changes nothing else; a first mount finds history `[]` and cursor -1, the cursor the fetch effect then sees |
| `CanvasEditor.Editor.SaveHistory` | client/src/components/Canvas/CanvasEditor.js:81-86 | the new state is `Push` of the old one; with no canvas nothing changes |
| `CanvasEditor.Editor.HandleAction` | client/src/components/Canvas/CanvasEditor.js:92-323 | the new state and the effect are exactly `Dispatch` of the old state, with fabric's measure of scaled width as a parameter; drawing mode stays equal to "the tool is the pen" |
| `CanvasEditor.Editor.AlignSelected` | client/src/components/Canvas/CanvasEditor.js:290-314 | the objects become `MovedTo` of the old scene for that alignment and fabric's measured scaled width: only the selected object's `left` is set; the selection, background and zoom are unchanged |
| `CanvasEditor.Editor.CompleteLoad` | client/src/components/Canvas/CanvasEditor.js:262-269 | the new state is exactly `Complete` of the old one |
| `CanvasEditor.Editor.SaveHistoryAsOf` | client/src/components/Canvas/CanvasEditor.js:81-86 | the new state is `StalePush` of the old one for the captured cursor; with no canvas nothing changes |
| `CanvasEditor.Editor.FetchDesign` | client/src/components/Canvas/CanvasEditor.js:57-74 | the effect runs only with a canvas and an id, and then yields exactly `Fetched` of the old state |
| `CanvasEditor.Editor.HandleImageUpload` | client/src/components/Canvas/CanvasEditor.js:369-404 | the file is read exactly when one was chosen and the canvas exists, and the read keeps the current cursor |
| `CanvasEditor.Editor.ImageLoaded` | client/src/components/Canvas/CanvasEditor.js:379-397 | with no decoded image nothing changes; otherwise exactly `Uploaded` of the old state for the kept cursor |
| `CanvasEditor.Editor.HandleZoomChange` | client/src/components/Canvas/CanvasEditor.js:406-411 | the editor's zoom and the canvas's zoom become `ClampZoom(z)`, and the history and the rest of the state are unchanged |
| `DesignController.Or` | server/controllers/designController.js:98-100 | `field || fallback` for a request-body field |
| `DesignController.NewDesign` | server/controllers/designController.js:95-122 | validation fails exactly when the template path does not apply and the title or the design data is missing or empty; a new record is owned by the caller, private, and stamped with the current time |
| `DesignController.CreatePaths` | server/controllers/designController.js:95-121 | the template path takes the content, the title or "Untitled Design", and source "template"; the blank path takes the data, the trimmed title, and source "blank" |
| `DesignController.Updated` | server/controllers/designController.js:160-162 | each field given as truthy overwrites its own (the title trimmed); owner, access, source and creation time are unchanged |
| `DesignController.UpdateIdempotent` | server/controllers/designController.js:160-162 | applying the same update twice stores what applying it once stores |
| `DesignController.EmptyUpdateIsIdentity` | server/controllers/designController.js:160-162 | an update with no fields changes nothing |
| `DesignController.Duplicated` | server/controllers/designController.js:228-235 | the copy is titled "<original> - Copy", has the same data and thumbnail, belongs to the caller and is private |
| `DesignController.InsertNewest` | server/controllers/designController.js:30-32 | inserting one id into a newest-first list keeps it newest-first and adds exactly that id |
| `DesignController.DesignStore.GetDesigns` | server/controllers/designController.js:5-16 | status 200 and every record, with no ownership scoping |
| `DesignController.DesignStore.GetDesignsByUserId` | server/controllers/designController.js:19-47 | 401 with no caller; otherwise 200 and exactly the caller's records, each once, newest first |
| `DesignController.DesignStore.GetDesignById` | server/controllers/designController.js:50-85 | the record matching both id and caller with 200, or 404 |
| `DesignController.DesignStore.CreateDesign` | server/controllers/designController.js:88-139 | failed validation gives 400 and stores nothing; otherwise 201 and exactly one new record under a fresh id |
| `DesignController.DesignStore.UpdateDesign` | server/controllers/designController.js:142-178 | with no record matching both id and caller: 404 and nothing changes; otherwise 200 and only that record becomes `Updated` |
| `DesignController.DesignStore.DeleteDesign` | server/controllers/designController.js:181-209 | the matching record, and no other, is removed with 200; otherwise 404 and nothing changes |
| `DesignController.DesignStore.DuplicateDesign` | server/controllers/designController.js:212-251 | 404 with nothing changed, or 201 and one new `Duplicated` record with the original unchanged |
| `DesignController.DesignStore.UpdateDesignAccess` | server/controllers/designController.js:254-295 | an access value other than "private" or "public" gives 400 before the lookup; no record matching both id and caller gives 404; otherwise only `access` changes |
| `DesignController.DesignStore.GetPublicDesign` | server/controllers/designController.js:298-336 | with no ownership check: 404 when the record is missing, 403 unless it is public, otherwise a view without owner or access |
| `DesignController.DesignStore.ExportDesign` | server/controllers/designController.js:339-367 | the caller's design data with 200, or 404 |
| `UserController.UserTable.RegisterUser` | server/controllers/userController.js:11-44 | a missing field gives 400 "Please fill all fields"; an email already taken gives 400 "User already exists" and the table is unchanged; otherwise exactly one new user, then 201 with its profile and a token for its id |
| `UserController.UserTable.LoginUser` | server/controllers/userController.js:47-78 | a missing field gives 400; an unknown email and a wrong password give the same 401 "Invalid credentials"; 200 exactly when the password matches, with the stored profile and a token |
| `UserController.UserTable.GetUserInfo` | server/controllers/userController.js:81-93 | the profile of the user with that id with 200, or 404 "User not found" |
| `LayersPanel.LayerName` | client/src/components/Canvas/LayersPanel.js:47 | the object's name, or its type with its 1-based position, never empty |
| `LayersPanel.LayersFrom` | client/src/components/Canvas/LayersPanel.js:45-52 | one layer per canvas object |
| `LayersPanel.LayersFromEntries` | client/src/components/Canvas/LayersPanel.js:45-52 | layer i has id i, the object's type and visibility, is locked exactly when the object is not selectable, and is named by `LayerName` |
| `LayersPanel.LayersAfterAdd` | client/src/components/Canvas/LayersPanel.js:57-58 | after an object is added, the refreshed list is the old list plus one layer for the new object |
| `LayersPanel.ToggledVisible` | client/src/components/Canvas/LayersPanel.js:74-76 | visibility flips on exactly the layers with that id, and nothing else changes |
| `LayersPanel.ToggledLock` | client/src/components/Canvas/LayersPanel.js:85-87 | `locked` flips on exactly the layers with that id, and nothing else changes |
| `LayersPanel.ToggleTwiceRestores` | client/src/components/Canvas/LayersPanel.js:70-88 | toggling the same layer twice restores the list |
| `LayersPanel.VisibilityToggleKeepsSync` | client/src/components/Canvas/LayersPanel.js:70-77 | on a list that mirrors the canvas, the local visibility update equals a fresh derivation from the updated object |
| `LayersPanel.LockToggleKeepsSync` | client/src/components/Canvas/LayersPanel.js:80-88 | on a list that mirrors the canvas, the local lock update equals a fresh derivation from the updated object |
| `LayersPanel.Displayed` | client/src/components/Canvas/LayersPanel.js:107-110 | the display is the layer list reversed, topmost object first |
| `LayersPanel.DisplayedIsReversal` | client/src/components/Canvas/LayersPanel.js:107-110 | the display holds the same layers, and reversing it again gives canvas order |
| `LayersPanel.IconFor` | client/src/components/Canvas/LayersPanel.js:18-35 | i-text, rect, circle, triangle, line and image each get their own icon, and anything else gets the generic one |
| `LayersPanel.Panel.constructor` | client/src/components/Canvas/LayersPanel.js:38 | the panel starts with no layers |
| `LayersPanel.Panel.UpdateLayers` | client/src/components/Canvas/LayersPanel.js:41-67 | with a canvas the list becomes `LayersFrom` of its objects; without one nothing changes |
| `LayersPanel.Panel.ToggleVisibility` | client/src/components/Canvas/LayersPanel.js:70-77 | sets the object's visibility to the negation of the layer's, flips that layer, and keeps a synced list synced |
| `LayersPanel.Panel.ToggleLock` | client/src/components/Canvas/LayersPanel.js:80-88 | sets the object's selectable and evented flags to the layer's old `locked`, flips that layer, clears the selection, and keeps a synced list synced |
| `LayersPanel.Panel.Click` | client/src/components/Canvas/LayersPanel.js:113 | a locked layer leaves the selection as it is, and an unlocked one selects its object |
| `PropertiesPanel.Round` | client/src/components/Canvas/PropertiesPanel.js:74-78 | `Math.round` gives the integer within one half below and strictly less than one half above |
| `PropertiesPanel.Derive` | client/src/components/Canvas/PropertiesPanel.js:69-84 | the record has exactly the fourteen keys of the source |
| `PropertiesPanel.DeriveFollowsFallbacks` | client/src/components/Canvas/PropertiesPanel.js:69-84 | each key is the object's value when truthy and its fixed fallback otherwise; angle, left and top are rounded; width and height are the rounded scaled size |
| `PropertiesPanel.FalsyReadsAsFallback` | client/src/components/Canvas/PropertiesPanel.js:73-80 | opacity 0 reads as 1, font size 0 as 24, an empty fill as black |
| `PropertiesPanel.Applied` | client/src/components/Canvas/PropertiesPanel.js:94-99 | the key takes the value; `rx` on a rect sets `ry` too; nothing else changes |
| `PropertiesPanel.InputValue` | client/src/components/Canvas/PropertiesPanel.js:56 | `parseInt(text) \|\| 0`: the number `parseInt` reads is passed on, and `NaN` becomes 0 |
| `PropertiesPanel.InputOfNumeral` | client/src/components/Canvas/PropertiesPanel.js:56 | a number typed as its numeral comes through unchanged |
| `PropertiesPanel.InputTruncatesFraction` | client/src/components/Canvas/PropertiesPanel.js:56 | a typed fraction is cut at the decimal point |
| `PropertiesPanel.InputDefaultsToZero` | client/src/components/Canvas/PropertiesPanel.js:56 | empty text, and text without leading digits, give 0 |
| `PropertiesPanel.AxisOf` | client/src/components/Canvas/PropertiesPanel.js:107-111 | scaling is by width exactly for the key "width", and by height otherwise |
| `PropertiesPanel.SectionsFor` | client/src/components/Canvas/PropertiesPanel.js:136-257 | text only for i-text; corner radius only for rect; fill for shapes and text; stroke only for rect, circle, triangle and line |
| `PropertiesPanel.Panel.constructor` | client/src/components/Canvas/PropertiesPanel.js:65 | the record starts empty |
| `PropertiesPanel.Panel.SelectionChanged` | client/src/components/Canvas/PropertiesPanel.js:67-86 | a selected object reloads the record as `Derive` of it; with no selection the record is kept |
| `PropertiesPanel.Panel.UpdateProperty` | client/src/components/Canvas/PropertiesPanel.js:88-102 | with no selection or no canvas nothing happens; otherwise the key is set in the record and the object is replaced by `Applied` |
| `PropertiesPanel.Panel.UpdateDimensions` | client/src/components/Canvas/PropertiesPanel.js:104-120 | scales the selected object on the axis the key picks, then refreshes only width and height in the record |
| `Dashboard.Elapsed` | client/src/components/Dashboard/Dashboard.js:182-195 | the first unit, from years down to minutes, whose quotient is strictly above 1, else seconds; each unit holds for exactly its range of seconds; the count is at least 1 for every unit but seconds |
| `Dashboard.TimeAgo` | client/src/components/Dashboard/Dashboard.js:182-195 | `parseInt` of the label gives back the count `Elapsed` chose, and the label ends with " ", that unit's word, and " ago" |
| `Dashboard.BoundariesUseTheSmallerUnit` | client/src/components/Dashboard/Dashboard.js:184-194 | exactly one year reads "12 months", a day "24 hours", and 60 seconds "60 seconds" |
| `Dashboard.CountBounds` | client/src/components/Dashboard/Dashboard.js:184-194 | the count is the number of whole units elapsed |
| `Dashboard.UnitMonotone` | client/src/components/Dashboard/Dashboard.js:184-194 | an older design never shows a smaller unit |
| `Dashboard.Without` | client/src/components/Dashboard/Dashboard.js:321 | the filtered list holds exactly the cards whose id differs |
| `Dashboard.WithoutDistributes` | client/src/components/Dashboard/Dashboard.js:321 | filtering preserves order: it distributes over concatenation |
| `Dashboard.WithoutAbsentIsIdentity` | client/src/components/Dashboard/Dashboard.js:321 | a list with no card of that id is unchanged |
| `Dashboard.WithoutIdempotent` | client/src/components/Dashboard/Dashboard.js:321 | deleting twice is deleting once |
| `Dashboard.Board.constructor` | client/src/components/Dashboard/Dashboard.js:291-293 | the list starts empty and loading, with no error |
| `Dashboard.Board.FetchDesigns` | client/src/components/Dashboard/Dashboard.js:301-315 | a successful reply replaces the list; a thrown request sets the error message; the error is otherwise empty; loading ends false |
| `Dashboard.Board.DeleteDesign` | client/src/components/Dashboard/Dashboard.js:317-320 | a request is sent exactly when the delete is confirmed, and the handler keeps the current list |
| `Dashboard.Board.DeleteSettled` | client/src/components/Dashboard/Dashboard.js:320-326 | unless the request threw, the list becomes the kept list without the card, whatever changed in between; otherwise it is unchanged |
| `Dashboard.Board.DuplicateDesign` | client/src/components/Dashboard/Dashboard.js:329-331 | the request is sent, and the handler keeps the current list |
| `Dashboard.Board.DuplicateSettled` | client/src/components/Dashboard/Dashboard.js:331-338 | a successful reply puts the copy in front of the kept list; otherwise the list is unchanged |
| `Dashboard.OverlappingDeletesRestoreCard` | client/src/components/Dashboard/Dashboard.js:317-327 | of two overlapping deletes, the first removes its card, but the second writes the kept list without its own card only, so the first card is back |
| `Dashboard.DuplicateAfterDeleteRestoresCard` | client/src/components/Dashboard/Dashboard.js:317-338 | a duplicate that settles after an overlapping delete puts the deleted card back |
| `Dashboard.MenuAfter` | client/src/components/Dashboard/Dashboard.js:167-277 | the button toggles the menu, a menu item closes it, a press outside closes it, and a press on the button or inside the menu leaves it |
| `Dashboard.MenuOpensOnlyByButton` | client/src/components/Dashboard/Dashboard.js:235 | two button clicks restore the state, and a closed menu opens only through the button |
| `Dashboard.CardMenu.constructor` | client/src/components/Dashboard/Dashboard.js:163 | the menu starts closed |
| `Dashboard.CardMenu.Handle` | client/src/components/Dashboard/Dashboard.js:167-277 | the menu state after each event is `MenuAfter` of the old state |
| `RegisterForm.Changed` | client/src/components/Auth/Register.js:16-21 | only the named field takes the value |
| `RegisterForm.Validate` | client/src/components/Auth/Register.js:28-46 | the form passes exactly when every field is non-empty, the passwords match, and the password has at least 6 characters; any empty field gives "Please fill in all fields" |
| `RegisterForm.MismatchReportedBeforeLength` | client/src/components/Auth/Register.js:38-46 | a mismatch is reported before the length check, so a short mismatched password reports the mismatch |
| `RegisterForm.FillingInEveryField` | client/src/components/Auth/Register.js:6-21 | filling in the four fields from the empty form gives exactly the entered values, and validation passes exactly when they satisfy the checks |
| `RegisterForm.Page.constructor` | client/src/components/Auth/Register.js:6-12 | the form starts empty, with no error |
| `RegisterForm.Page.HandleChange` | client/src/components/Auth/Register.js:16-21 | the form becomes `Changed` of the old form |
| `RegisterForm.Page.HandleSubmit` | client/src/components/Auth/Register.js:23-59 | a failed check sets its message and `register` is not called; otherwise `register` gets the name, email and password, and success navigates to /dashboard with no error, while failure shows the result's message |
| `LoginForm.Changed` | client/src/components/Auth/Login.js:17-22 | only the named field takes the value |
| `LoginForm.Validate` | client/src/components/Auth/Login.js:28-31 | the form passes exactly when both fields are non-empty, and otherwise reports "Please fill in all fields" |
| `LoginForm.Page.constructor` | client/src/components/Auth/Login.js:8-12 | the form starts empty, with no error |
| `LoginForm.Page.HandleChange` | client/src/components/Auth/Login.js:17-22 | the form becomes `Changed` of the old form |
| `LoginForm.Page.HandleSubmit` | client/src/components/Auth/Login.js:24-43 | an empty field sets the message and `login` is not called; otherwise `login` gets exactly the entered email and password, and success navigates to /dashboard while failure shows the result's message |

## Left out

- `saveDesign` (client/src/components/Canvas/CanvasEditor.js:326-368): it serialises the canvas, renders a thumbnail and sends them over the network. No history or selection rule sits in it.
- `loadTemplateData` (client/src/components/Canvas/CanvasEditor.js:414-440): it never runs, because nothing sets `designData`.
- The `text`, `rectangle`, `circle`, `line` and `frame` creation cases of the switch: they cannot be reached, because those names are in the tool list.
- Fabric internals: `toJSON`/`loadFromJSON` serialisation, rendering, `toDataURL`, `getScaledWidth`, `scaleToWidth`/`scaleToHeight`, and hit-testing. Snapshots are values. Scaling, and the scaled width that the alignment cases and the properties panel measure, are parameters. A snapshot keeps every attribute of every object, while `toJSON` drops `selectable` and `evented`. So in the program a locked layer comes back unlocked after undo, redo or reloading the design; in the model it stays locked.
- `PropertiesPanel.Derive`: an object holds only the attributes it was created or `set` with. Fabric's `get` also returns a class default for an attribute never set (a `strokeWidth` of 1 on the heading, for instance), so where the program shows that default the model shows the panel's `||` fallback (0 for `strokeWidth`).
- `CanvasEditor.HeadingObject`, `CanvasEditor.TriangleObject`: the created objects carry the options passed to their constructors and none of the attributes fabric computes or defaults (a text's measured `width`, `strokeWidth`, `scaleX`).
- The fabric version: the code mixes the two versions' interfaces, and no single version runs every handler as written. The model takes each call in the version under which it does what the code expects:
  - `loadFromJSON` follows v6, where it returns a promise (`Fabric.Canvas.Load`, `CanvasEditor.Complete`, `CanvasEditor.UndoRequest`, `CanvasEditor.RedoRequest`, `CanvasEditor.Fetched`). The code awaits it (client/src/components/Canvas/CanvasEditor.js:65) and chains `.then` on it (lines 261 and 278), and it imports `Canvas` and `FabricImage` as named exports (lines 2-10), as v6 provides them.
  - `clone(callback)` (lines 205, 223, 230), `setBackgroundColor` (line 244) and the chained `discardActiveObject().renderAll()` (client/src/components/Canvas/LayersPanel.js:84) follow v5 (`CanvasEditor.Switch`, `LayersPanel.Panel.ToggleLock`). So does the `type` string of the heading (`CanvasEditor.HeadingObject`, kind `"i-text"`), which `LayersPanel.LayerName`, `LayersPanel.IconFor` and `PropertiesPanel.SectionsFor` read.
- `CanvasEditor.UndoRequest`, `CanvasEditor.RedoRequest`: under v5, `loadFromJSON` returns the canvas, so `.then` at lines 262 and 279 throws a TypeError. Undo and redo then neither move the cursor nor reach the push at line 321. The model does not capture this v5 outcome.
- `CanvasEditor.Switch`: under v6, `clone` returns a promise and never calls a callback, and `setBackgroundColor` does not exist. So `duplicate`, `copy` and `paste` still push but add no object and fill no clipboard. `clear` throws at line 244 after emptying the canvas, so its push at line 321 never happens. The model does not capture these v6 outcomes.
- `LayersPanel.Panel.ToggleLock`: under v6, `discardActiveObject()` returns a boolean, so `.renderAll()` at client/src/components/Canvas/LayersPanel.js:84 throws. The object's `selectable` and `evented` flags have already changed, but `setLayers` never runs, so the layer's `locked` flag does not flip. The model does not capture this v6 outcome.
- `CanvasEditor.HeadingObject`: under v6 the heading, built with the named export `IText` (client/src/components/Canvas/CanvasEditor.js:4 and 123), has the type `"itext"`, the lowercased class name. The layer icon switch (client/src/components/Canvas/LayersPanel.js:18-35) then gives it the generic icon, its layer is named "itext #n" (LayersPanel.js:47), and `isText` (client/src/components/Canvas/PropertiesPanel.js:136) is false, so the Text section and the Fill control are not shown for it. The model does not capture this v6 outcome: the heading has the kind `"i-text"`, the text icon, the name "i-text #n" and both sections.
- Image decoding (`FileReader`, `FabricImage.fromURL`, `img.scale(0.5)`): the decoded, scaled image is a parameter.
- Floating point: numbers are exact reals. This covers alignment positions, `Math.round` of scaled sizes, and the opacity slider (`parseFloat`).
- `CanvasEditor.Editor.AlignSelected`: selection events are not modelled, so the panels' selected object is the canvas's active object.
- `CanvasEditor.Complete`: overlapping loads are allowed and nothing orders them. If an action runs between an undo request and its completion, the completion can leave the cursor past the end of the history. Only the cursor's lower bound is kept as an invariant.
- The network, the auth context and local storage: replies, `window.confirm` and thrown requests are parameters.
- Mongoose: schema setters and validation (`trim: true` and `maxlength: 100` on `title`), strict-mode dropping of fields the schema does not declare (`access`, `source`), `timestamps`, the `pre("save")` hook, and 500 replies for thrown errors.
- `DesignController.DesignStore.GetPublicDesign`: the view's `width`, `height` and `backgroundColor` are left out, because the schema has no such fields and they are always undefined.
- JWT signing, bcrypt hashing and server/models/User.js (which is not part of this model): `generateToken` and `comparePassword` are function parameters, and emails are compared exactly.
- Express routing, CORS and server wiring (server/index.js, server/routes/designRoutes.js), including which handlers are routed.
- React scheduling: state updates are applied at once and in order, and effects run when called. Where a handler outlives its render, the state it captured is modelled: the fetch effect's and the image reader's `saveHistory`, the dashboard's `designs`, and the undo and redo targets. `timeAgo` takes the elapsed whole seconds instead of reading the clock.
- Pure presentation: the accordion sections' open state, icons other than the layer icon, and all markup.
- `Dashboard.TimeAgo`: that `parseInt` reads the count back from the label is proved for elapsed times of 0 seconds or more. A creation time in the future gives a negative count, and its read-back is not stated.
- `RegisterForm.Validate`: the password length counts Unicode scalar values, while JavaScript's `length` counts UTF-16 code units. The two differ only for characters outside the Basic Multilingual Plane.
- `Text.ParseInt`: numbers are unbounded and exact. JavaScript loses precision beyond 2^53, and `parseInt` accepts only the whitespace class modelled here.
