# DebugPanel, modelled in Dafny

`DebugPanel` is a small floating window for iOS apps. It has a title, a
separator and a vertical stack of buttons. A caller configures it inside
`DebugPanel.load`: it sets a title and a width and adds buttons, each with or
without an action. `commit` then sizes the panel to its buttons. The first
time, it also places the panel in the bottom-right corner of the screen. The
panel can be dragged. When the drag ends, the panel is kept 8 points away from
every screen edge and its origin is saved in `UserDefaults`. The next launch
starts it at the saved origin.

The model has six modules:

- `Wrappers`: an `Option` type standing for Swift's optionals.
- `Geometry`: points and sizes over exact `real`s. It holds the drag clamp,
  the height formula of `commit` and the bottom-right home placement.
- `Defaults`: `UserDefaults` as a map from string keys to values, with the two
  keys under which the origin is saved.
- `ActionStack`: a ghost view of `actionStack.arrangedSubviews`. Every added
  button is in it, enabled or not. The k-th entry of `btns` is the k-th
  *enabled* entry of this stack.
- `Panel`: the class `DebugPanel`. Its fields are the frame, the drag
  transform, the layout constants, the title, the button registry and the
  store. Each method of the Swift class becomes a method with a `modifies`
  clause, and each one keeps the registry invariant `Valid()`: one action per
  enabled button, and tag k on the k-th entry of `btns`.
- `ExampleScene`: the configuration the example app performs in
  `SceneDelegate.swift`, plus a drag followed by a relaunch. These are client
  methods, and their contracts give the concrete results.

The doc comment of `update` (Source/DebugPanel.swift:144) calls `index` the
button index, counted from 0. The code counts enabled buttons only: it
indexes `btns`, which holds only the buttons added with an action. So
`update(k)` renames the k-th *enabled* button, which sits at stack position
`StackIndex(stack, k)`, and that position is past k once a disabled button
comes before it (`ActionStack.StackIndexVersusTag`). An index of at least
`btns.count` is ignored. `Panel.DebugPanel.Update` states this, and
`ExampleScene.LoadScene` shows it: the hide button has tag 3 but sits at
stack position 4.

The drag clamp runs in the source's order: min-x, min-y, max-x, max-y. A panel
wider (or taller) than the screen minus both margins is therefore pinned to
the far margin. Its near edge then ends less than 8 points from the screen
edge, or off screen. `Geometry.ClampAxisBounds` states exactly when the
near-edge bound holds.

The far-edge tests read the frame's `maxX` and `maxY`, the largest
coordinate the rectangle covers. For a negative width or height (the width
setter and the public `lineHeight` and `gap` accept any value) that is the
origin itself, not origin + size. The model keeps this distinction
(`Geometry.MaxEdge`), so such a frame dropped near the far edge is moved
past it (`Geometry.NegativeWidthDrop`).

## Model

| member | source | states |
|---|---|---|
| Geometry.ClampAxisBounds | Source/DebugPanel.swift:219-231 | one axis of the drag clamp: origin + size always ends at least 8 inside the far screen edge; the origin ends at least 8 inside the near edge exactly when the panel fits between both margins; a fitting panel of non-negative size gets the usual clamp into [8, extent - size - 8], one of negative size is moved to extent - size - 8 when its origin (its maxX) is past the far margin; an oversized panel is pinned at extent - size - 8 |
| Geometry.NegativeWidthDrop | Source/DebugPanel.swift:226-227 | a negative-width frame (width -10 at x 45, screen 50 wide) has maxX 45 beyond the far margin 42, so it is moved to 52 |
| Geometry.ClampOriginOnScreen | Source/DebugPanel.swift:215-231 | a panel that fits the screen ends every drag with its origin at least 8 inside the near edges and origin + size at least 8 inside the far edges, whatever the translation |
| Geometry.ClampOriginIdempotent | Source/DebugPanel.swift:219-231 | clamping an already clamped origin leaves it where it is |
| Geometry.PanelHeightPerButton | Source/DebugPanel.swift:179 | every button in the action stack, enabled or not, adds one line height; an empty stack leaves a title line, four gaps and the one-point separator |
| Geometry.HomeOrigin | Source/DebugPanel.swift:185-188 | the home placement leaves exactly `gap` between the panel and the right and bottom screen edges |
| Geometry.CommitOriginIdempotent | Source/DebugPanel.swift:185-189 | the placement is one-shot: an origin other than exactly (0, 0) is never moved by a commit, and a second commit leaves the origin where the first put it |
| Defaults.RestoredOrigin | Source/DebugPanel.swift:118-123 | when both keys hold numbers the start origin is the stored pair; when either key is missing or holds something else it is (0, 0) |
| Defaults.Persist | Source/DebugPanel.swift:232-233 | after saving, both keys hold the saved coordinates; the store gains only those two keys and every other entry is kept |
| Defaults.RestoreAfterPersist | Source/DebugPanel.swift:118-123 | an origin read back after saving is exactly the saved origin |
| ActionStack.EnabledCount | Source/DebugPanel.swift:157-172 | the number of enabled buttons (those in `btns`) is at most the number of buttons in the stack |
| ActionStack.StackIndex | Source/DebugPanel.swift:159-168 | the k-th enabled button lies inside the stack, is enabled, and has exactly k enabled buttons before it |
| ActionStack.EnabledCountAppend | Source/DebugPanel.swift:159-168 | appending a button to the stack raises the enabled count by one exactly when the button has an action |
| ActionStack.StackIndexAppend | Source/DebugPanel.swift:159-168 | adding a button moves no existing enabled button, and an added enabled button becomes the next enabled one, at the end of the stack |
| ActionStack.AllEnabled | Source/DebugPanel.swift:157-172 | all buttons count as enabled exactly when every button in the stack has an action |
| ActionStack.StackIndexVersusTag | Source/DebugPanel.swift:146-151 | the button `update(k)` renames sits at stack position k or later, and at position exactly k only when no disabled button comes before it |
| ActionStack.RetitlePreservesIndex | Source/DebugPanel.swift:146-151 | renaming a button changes neither which buttons are enabled nor where the enabled ones sit |
| ActionStack.StackIndexInjective | Source/DebugPanel.swift:146-151 | different indices of `btns` name different buttons of the stack |
| Panel.AddEnabledKeepsConsistent | Source/DebugPanel.swift:159-168 | adding a button with an action, tagged with the old `btns.count`, keeps the registry invariant |
| Panel.AddDisabledKeepsConsistent | Source/DebugPanel.swift:159-172 | adding a button without an action changes only the stack, and keeps the registry invariant |
| Panel.RetitleKeepsConsistent | Source/DebugPanel.swift:146-151 | renaming the index-th enabled button, in `btns` and in the stack alike, keeps the registry invariant |
| Panel.ClampDrop | Source/DebugPanel.swift:219-231 | the four clamp steps, in the source's order and on mutable coordinates, compute the clamp function `ClampOrigin` |
| Panel.DebugPanel.constructor | Source/DebugPanel.swift:118-123 | a new panel is 120 by 100, has line height 32, gap 8, no title and no buttons; its origin is the one restored from the store |
| Panel.DebugPanel.SetWidth | Source/DebugPanel.swift:27-34 | setting the width changes only the frame's width |
| Panel.DebugPanel.SetTitle | Source/DebugPanel.swift:36-43 | setting the title changes only the title |
| Panel.DebugPanel.Add | Source/DebugPanel.swift:157-175 | every button joins the stack; a button with an action is also appended to `btns` with tag = old `btns.count`, and its action to `actions`; a button without one leaves `btns` and `actions` unchanged |
| Panel.DebugPanel.Update | Source/DebugPanel.swift:146-151 | for 0 <= index < `btns.count`, only the title of `btns[index]` changes (and the same button in the stack); any larger index changes nothing |
| Panel.DebugPanel.Commit | Source/DebugPanel.swift:178-189 | the height becomes the height formula over all stacked buttons; the origin moves to the home placement exactly when it was (0, 0); nothing else changes |
| Panel.DebugPanel.DidTap | Source/DebugPanel.swift:202-207 | a tag in [0, `actions.count`) invokes `actions[tag]` exactly once; any other tag invokes nothing; no state but the invocation log changes |
| Panel.DebugPanel.DidPan | Source/DebugPanel.swift:211-236 | a running gesture only sets the transform to the translation; a recognised one resets the transform to the identity, moves the origin by the translation, clamps it and saves it in the store |
| Panel.DebugPanel.Release | Source/DebugPanel.swift:215-233 | the recognised branch of the drag: transform reset, origin = clamp of origin + translation, store = old store with the new origin saved |
| ExampleScene.BuildScene | Example/DebugPanel/SceneDelegate.swift:21-40 | after the example configuration the panel is 150 wide, has 5 stacked buttons and 4 entries in `btns`, and the hide button has tag 3 at stack position 4 |
| ExampleScene.LoadScene | Source/DebugPanel.swift:137-140 | the example panel commits to height 225 at (screen width - 158, screen height - 233), and tapping the hide button invokes its action, number 3 |
| ExampleScene.CommitTwice | Source/DebugPanel.swift:178-189 | a second `commit` with nothing changed in between leaves the height and the origin where the first one put them |
| ExampleScene.DragAndRelaunch | Source/DebugPanel.swift:118-123 | a panel constructed after a drag starts exactly where the drag left the old one, and on a screen of at least 136 by 116 that origin is at least 8 inside every edge |

## Left out

- Window chrome and view setup (`init(frame:)` apart from its frame, lines 71-116): the window level, colours, corner radius, shadow, scene attachment and the gesture recogniser registration have no observable effect on the modelled state.
- SnapKit constraints (lines 93-96, 105-107 and 180-184): the layout engine is not modelled, only the frame the code computes.
- `didTouchDown` and `didTouchUp` (lines 196-201): they only tint the button background.
- `required init?(coder:)` (lines 125-127): it always traps.
- `shared` and `load` (lines 24 and 137-140): the singleton is not modelled as global state. `ExampleScene.LoadScene` performs the steps of `load` on one panel: it runs the configuration closure, then commits.
- `update` is a static method on `shared`; it is modelled as an instance method of the one panel.
- Panel.DebugPanel.Update: requires `index >= 0`, because a negative index traps on `shared.btns[index]` in the source.
- `print` in `add` and `UserDefaults.synchronize()` are I/O and are left out; the store is a plain map whose stored values are either numbers or something the `as? CGFloat` cast rejects.
- `UIScreen` sizes are parameters: `commit` reads the window's screen and `didPan` reads the main screen.
- `translation(in:)` is a parameter of `DidPan`, and `.recognized` is one constructor of `GestureState`.
- Callbacks are identified by a number; what a closure does (in the example app: printing, calling `update`, hiding the window) is not modelled, and `DidTap` records the invoked index in a ghost log.
- `isHidden` is not modelled.
- `CGFloat` is modelled as exact `real`, so floating-point rounding is not captured.
- Button styling (colours, corner radius, `isEnabled`) is reduced to the `enabled` flag of a stack entry.
- A frame set to a negative width or height is taken to be stored as given. How UIKit treats such a window frame is outside the model. The far-edge clamp then follows `CGRect.maxX`/`maxY` (`Geometry.MaxEdge`).
