/**
  The debug panel window (`DebugPanel`, a `UIWindow` subclass) reduced to the
  state its behaviour depends on: its frame and drag transform, the layout
  constants, the button registry and the `UserDefaults` entries it reads and
  writes. Screen sizes are parameters of the operations that read them.
 */
module Panel {
  import opened Wrappers
  import opened Geometry
  import opened Defaults
  import opened ActionStack

  /** Identifies the closure a caller passes to `add`; what the closure does is outside the model. */
  type Callback = nat

  /** An enabled button as entered in `btns`: its current title and its `tag`. */
  datatype Button = Button(title: string, tag: int)

  /** Phases of the pan gesture recogniser; `Recognized` is UIKit's `.ended`. */
  datatype GestureState = Possible | Began | Changed | Recognized | Cancelled | Failed

  /** The panel's geometry: its frame, its drag transform and the layout constants. */
  datatype FrameState = FrameState(width: real, height: real, origin: Point, transform: Point,
                                   lineHeight: real, gap: real)

  /** The panel's buttons: the stack count, the enabled buttons, their actions, the stack itself. */
  datatype RegistryState = RegistryState(subviewCount: nat, btns: seq<Button>, actions: seq<Callback>,
                                         stack: seq<StackEntry>)

  /** The registry invariant on values. */
  ghost predicate Consistent(r: RegistryState) {
    && r.subviewCount == |r.stack|
    && |r.btns| == |r.actions|
    && |r.btns| == EnabledCount(r.stack)
    && (forall k :: 0 <= k < |r.btns| ==> r.btns[k].tag == k)
    && (forall k: nat :: k < |r.btns| ==> r.stack[StackIndex(r.stack, k)].title == r.btns[k].title)
  }

  /** Adding an enabled button, tagged with the old count of `btns`, keeps the registry consistent. */
  lemma AddEnabledKeepsConsistent(r: RegistryState, name: string, ac: Callback)
    requires Consistent(r)
    ensures Consistent(RegistryState(r.subviewCount + 1, r.btns + [Button(name, |r.btns|)], r.actions + [ac],
                                     r.stack + [StackEntry(name, true)]))
  {
    EnabledCountAppend(r.stack, StackEntry(name, true));
    StackIndexAppend(r.stack, StackEntry(name, true));
  }

  /** Adding a disabled button only lengthens the stack, and keeps the registry consistent. */
  lemma AddDisabledKeepsConsistent(r: RegistryState, name: string)
    requires Consistent(r)
    ensures Consistent(RegistryState(r.subviewCount + 1, r.btns, r.actions, r.stack + [StackEntry(name, false)]))
  {
    EnabledCountAppend(r.stack, StackEntry(name, false));
    StackIndexAppend(r.stack, StackEntry(name, false));
  }

  /**
    Renaming the index-th enabled button, in `btns` and at its stack position
    alike, keeps the registry consistent.
   */
  lemma RetitleKeepsConsistent(r: RegistryState, index: nat, newTitle: string)
    requires Consistent(r) && index < |r.btns|
    ensures Consistent(RegistryState(r.subviewCount, r.btns[index := Button(newTitle, index)], r.actions,
                                     r.stack[StackIndex(r.stack, index) := StackEntry(newTitle, true)]))
  {
    var p := StackIndex(r.stack, index);
    RetitlePreservesIndex(r.stack, p, newTitle);
    forall k: nat | k < |r.btns| && k != index
      ensures StackIndex(r.stack, k) != p
    {
      StackIndexInjective(r.stack, k, index);
    }
  }

  /**
    The clamp at the end of a drag, in the source's order: min-x, min-y,
    max-x, max-y, each keeping `8` points from the screen edge.
   */
  method ClampDrop(origin: Point, size: Size, screen: Size) returns (r: Point)
    ensures r == ClampOrigin(origin, size, screen)
  {
    var x, y := origin.x, origin.y;
    var margin := 8.0;
    if x < margin {
      x := margin;
    }
    if y < margin {
      y := margin;
    }
    if MaxEdge(x, size.width) > screen.width - margin {
      x := screen.width - size.width - margin;
    }
    if MaxEdge(y, size.height) > screen.height - margin {
      y := screen.height - size.height - margin;
    }
    r := Point(x, y);
  }

  class DebugPanel {
    // frame and drag transform (a pure translation)
    var width: real
    var height: real
    var originX: real
    var originY: real
    var transformX: real
    var transformY: real
    // layout constants
    var lineHeight: real
    var gap: real
    // text of the title label
    var title: Option<string>
    // button registry: every button of the action stack counts in subviewCount,
    // only enabled ones are entered in btns, paired with their actions
    var subviewCount: nat
    var btns: seq<Button>
    var actions: seq<Callback>
    // the UserDefaults entries
    var store: Store
    // the action stack's buttons, in order; btns[k] is the same button as stack[StackIndex(stack, k)]
    ghost var stack: seq<StackEntry>
    // indices of the actions invoked so far, in order
    ghost var fired: seq<nat>

    /** The registry invariant: one action per enabled button, tags equal positions in btns. */
    ghost predicate Valid()
      reads this`subviewCount, this`btns, this`actions, this`stack
    {
      Consistent(RegistryState(subviewCount, btns, actions, stack))
    }

    function Origin(): Point
      reads this
    {
      Point(originX, originY)
    }

    function Transform(): Point
      reads this
    {
      Point(transformX, transformY)
    }

    function Frame(): FrameState
      reads this
    {
      FrameState(width, height, Origin(), Transform(), lineHeight, gap)
    }

    ghost function Registry(): RegistryState
      reads this
    {
      RegistryState(subviewCount, btns, actions, stack)
    }

    /**
      `convenience init()`: the 120 by 100 frame at the zero origin, moved to
      the remembered origin when both keys of `defaults` hold numbers.
     */
    constructor (defaults: Store)
      ensures Valid()
      ensures width == 120.0 && height == 100.0
      ensures Origin() == RestoredOrigin(defaults)
      ensures Transform() == Zero
      ensures lineHeight == 32.0 && gap == 8.0 && title == None
      ensures subviewCount == 0 && btns == [] && actions == []
      ensures store == defaults && fired == []
    {
      width, height := 120.0, 100.0;
      originX, originY := 0.0, 0.0;
      transformX, transformY := 0.0, 0.0;
      lineHeight, gap := 32.0, 8.0;
      title := None;
      subviewCount, btns, actions := 0, [], [];
      store := defaults;
      stack, fired := [], [];
      new;
      if KeyX in defaults && defaults[KeyX].Number? && KeyY in defaults && defaults[KeyY].Number? {
        originX, originY := defaults[KeyX].n, defaults[KeyY].n;
      }
    }

    /** The `width` setter: changes the frame's width only; the layout waits for `Commit`. */
    method SetWidth(w: real)
      requires Valid()
      modifies this
      ensures Valid()
      ensures Frame() == old(Frame()).(width := w)
      ensures Registry() == old(Registry()) && title == old(title) && store == old(store) && fired == old(fired)
    {
      width := w;
    }

    /** The `title` setter. */
    method SetTitle(text: Option<string>)
      requires Valid()
      modifies this
      ensures Valid()
      ensures title == text
      ensures Frame() == old(Frame()) && Registry() == old(Registry()) && store == old(store) && fired == old(fired)
    {
      title := text;
    }

    /**
      `add(_:action:)`: the button joins the action stack in every case; with an
      action it is also entered in `btns`, tagged with its position there, and
      its action is appended to `actions`.
     */
    method Add(name: string, action: Option<Callback>)
      requires Valid()
      modifies this
      ensures Valid()
      ensures Frame() == old(Frame()) && title == old(title) && store == old(store) && fired == old(fired)
      ensures stack == old(stack) + [StackEntry(name, action.Some?)]
      ensures subviewCount == old(subviewCount) + 1
      ensures action.Some? ==>
        btns == old(btns) + [Button(name, |old(btns)|)] && actions == old(actions) + [action.value]
      ensures action.None? ==> btns == old(btns) && actions == old(actions)
    {
      ghost var before := Registry();
      stack := stack + [StackEntry(name, action.Some?)];
      subviewCount := subviewCount + 1;
      match action
      case Some(ac) =>
        var tag := |btns|;
        actions := actions + [ac];
        btns := btns + [Button(name, tag)];
        AddEnabledKeepsConsistent(before, name, ac);
      case None =>
        AddDisabledKeepsConsistent(before, name);
    }

    /**
      `update(button:title:)`: renames the index-th ENABLED button, the one at
      stack position `StackIndex(stack, index)`; an index past the enabled
      buttons is ignored. A negative index traps in the source.
     */
    method Update(index: int, newTitle: string)
      requires Valid()
      requires index >= 0
      modifies this
      ensures Valid()
      ensures subviewCount == old(subviewCount) && actions == old(actions)
      ensures Frame() == old(Frame()) && title == old(title) && store == old(store) && fired == old(fired)
      ensures index < |old(btns)| ==>
        && btns == old(btns)[index := Button(newTitle, index)]
        && stack == old(stack)[StackIndex(old(stack), index) := StackEntry(newTitle, true)]
      ensures index >= |old(btns)| ==> btns == old(btns) && stack == old(stack)
    {
      if index < |btns| {
        RetitleKeepsConsistent(Registry(), index, newTitle);
        stack := stack[StackIndex(stack, index) := StackEntry(newTitle, true)];
        btns := btns[index := Button(newTitle, btns[index].tag)];
      }
    }

    /**
      `commit()`: sizes the panel to its action stack and, while the origin is
      still exactly zero, places it at the bottom-right corner inset by `gap`.
     */
    method Commit(screen: Size)
      requires Valid()
      modifies this
      ensures Valid()
      ensures height == PanelHeight(subviewCount, lineHeight, gap)
      ensures Origin() == CommitOrigin(old(Origin()), screen, Size(width, height), gap)
      ensures Frame() == old(Frame()).(height := height, origin := Origin())
      ensures Registry() == old(Registry()) && title == old(title) && store == old(store) && fired == old(fired)
    {
      height := (subviewCount as real) * lineHeight + 4.0 * gap + lineHeight * 1.0 + 1.0;
      assert height == PanelHeight(subviewCount, lineHeight, gap);
      if originX == 0.0 && originY == 0.0 {
        originY := screen.height - height - gap;
        originX := screen.width - width - gap;
      }
    }

    /**
      `didTapped(_:)`: the action whose index is the sender's tag is invoked,
      once, when the tag is a valid index; any other tag invokes nothing.
     */
    method DidTap(tag: int) returns (invoked: Option<Callback>)
      requires Valid()
      modifies this
      ensures Valid()
      ensures Frame() == old(Frame()) && Registry() == old(Registry()) && title == old(title) && store == old(store)
      ensures 0 <= tag < |actions| ==> invoked == Some(actions[tag]) && fired == old(fired) + [tag]
      ensures !(0 <= tag < |actions|) ==> invoked == None && fired == old(fired)
    {
      invoked := None;
      if 0 <= tag < |actions| {
        invoked := Some(actions[tag]);
        fired := fired + [tag];
      }
    }

    /**
      `didPan(_:)`: while the gesture runs, the translation is only previewed
      through the transform. When it is recognised the transform is dropped,
      the origin moves by the translation, is clamped (min-x, min-y, max-x,
      max-y, margin 8) and is written to the store.
     */
    method DidPan(state: GestureState, translation: Point, screen: Size)
      requires Valid()
      modifies this
      ensures Valid()
      ensures Frame() == old(Frame()).(origin := Origin(), transform := Transform())
      ensures Registry() == old(Registry()) && title == old(title) && fired == old(fired)
      ensures state != Recognized ==>
        Transform() == translation && Origin() == old(Origin()) && store == old(store)
      ensures state == Recognized ==>
        && Transform() == Zero
        && Origin() == ClampOrigin(Point(old(originX) + translation.x, old(originY) + translation.y),
                                   Size(width, height), screen)
        && store == Persist(old(store), Origin())
    {
      transformX, transformY := translation.x, translation.y;
      if state == Recognized {
        Release(translation, screen);
      }
    }

    /** The end of a recognised drag: the translation is folded into the clamped origin and persisted. */
    method Release(translation: Point, screen: Size)
      requires Valid()
      modifies this
      ensures Valid()
      ensures Frame() == old(Frame()).(origin := Origin(), transform := Zero)
      ensures Registry() == old(Registry()) && title == old(title) && fired == old(fired)
      ensures Origin() == ClampOrigin(Point(old(originX) + translation.x, old(originY) + translation.y),
                                      Size(width, height), screen)
      ensures store == Persist(old(store), Origin())
    {
      var size := Size(width, height);
      transformX, transformY := 0.0, 0.0;
      var dropped := ClampDrop(Point(originX + translation.x, originY + translation.y), size, screen);
      originX, originY := dropped.x, dropped.y;
      store := store[KeyX := Number(originX)][KeyY := Number(originY)];
    }
  }
}
