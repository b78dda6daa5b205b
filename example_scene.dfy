/**
  Clients of the panel: the configuration the example app performs in
  `DebugPanel.load`, and a drag followed by a fresh launch that reads the
  remembered origin back.
 */
module ExampleScene {
  import opened Wrappers
  import opened Geometry
  import opened Defaults
  import opened ActionStack
  import opened Panel

  /**
    The configuration closure the example app hands to `DebugPanel.load`: a
    title, a width of 150, three enabled buttons, a disabled one and a
    "hide" button. The disabled button takes a line of height but no tag, so
    the hide button is tagged 3 while it is the fifth button of the stack.
   */
  method BuildScene() returns (panel: DebugPanel)
    ensures fresh(panel) && panel.Valid()
    ensures panel.width == 150.0 && panel.lineHeight == 32.0 && panel.gap == 8.0
    ensures panel.Origin() == Zero && panel.subviewCount == 5
    ensures |panel.btns| == 4 && panel.btns[3].tag == 3 && panel.actions[3] == 3
    ensures panel.fired == [] && StackIndex(panel.stack, 3) == 4
  {
    panel := new DebugPanel(map[]);
    panel.SetTitle(Some("调试窗口"));
    panel.SetWidth(150.0);
    panel.Add("按钮1", Some(0));
    panel.Add("按钮2", Some(1));
    panel.Add("按钮3", Some(2));
    panel.Add("不可用的按钮", None);
    ghost var before := panel.stack;
    assert EnabledCount(before) == 3;
    panel.Add("隐藏", Some(3));
    StackIndexAppend(before, StackEntry("隐藏", true));
  }

  /**
    `DebugPanel.load` as the example app calls it on a first launch (nothing
    stored): the configured panel is committed on the given screen, so it is
    five lines tall and sits in the bottom-right corner, and tapping the hide
    button runs the fourth action.
   */
  method LoadScene(screen: Size)
    returns (panelHeight: real, origin: Point, hideTag: int, tapped: Option<Callback>, ghost hidePosition: nat)
    ensures panelHeight == 225.0
    ensures origin == Point(screen.width - 158.0, screen.height - 233.0)
    ensures hideTag == 3 && hidePosition == 4
    ensures tapped == Some(3)
  {
    var panel := BuildScene();
    panel.Commit(screen);
    panelHeight, origin, hideTag := panel.height, panel.Origin(), panel.btns[3].tag;
    tapped := panel.DidTap(hideTag);
    hidePosition := StackIndex(panel.stack, hideTag);
  }

  /**
    `commit` is repeatable: a second call with nothing changed in between
    leaves the height and the origin where the first call put them, and
    changes nothing else.
   */
  method CommitTwice(panel: DebugPanel, screen: Size) returns (firstHeight: real, firstOrigin: Point)
    requires panel.Valid()
    modifies panel
    ensures panel.Valid()
    ensures panel.height == firstHeight && panel.Origin() == firstOrigin
    ensures firstHeight == PanelHeight(panel.subviewCount, panel.lineHeight, panel.gap)
    ensures firstOrigin == CommitOrigin(old(panel.Origin()), screen, Size(panel.width, firstHeight), panel.gap)
  {
    panel.Commit(screen);
    firstHeight, firstOrigin := panel.height, panel.Origin();
    panel.Commit(screen);
    CommitOriginIdempotent(old(panel.Origin()), screen, Size(panel.width, firstHeight), panel.gap);
  }

  /**
    A recognised drag leaves the panel where the clamp puts it, and a panel
    constructed afterwards from the same store starts exactly there.
   */
  method DragAndRelaunch(defaults: Store, screen: Size, translation: Point)
    returns (dropped: Point, relaunched: Point)
    ensures relaunched == dropped
    ensures 136.0 <= screen.width && 116.0 <= screen.height ==>
      8.0 <= dropped.x <= screen.width - 128.0 && 8.0 <= dropped.y <= screen.height - 108.0
  {
    var panel := new DebugPanel(defaults);
    panel.DidPan(Began, translation, screen);
    panel.DidPan(Recognized, translation, screen);
    dropped := panel.Origin();
    var again := new DebugPanel(panel.store);
    RestoreAfterPersist(defaults, dropped);
    relaunched := again.Origin();
  }
}
