/** The pane's pointer handlers and tool selection, as transitions of an immutable
    editor state. The state holds the selected tool, the committed spans in paint
    order, and the span being dragged, if any. */
module Interaction {
  import opened Wrappers
  import opened Geometry

  datatype State = State(tool: string, content: seq<Drawable>, active: Option<Drawable>)

  /** The state the editor starts in: the rectangle tool, an empty drawing, no drag.
      It already satisfies the invariants the handlers keep. */
  function Initial(): (s: State)
    ensures s.tool == "rectangle" && s.content == [] && s.active.None?
    ensures NonDegenerate(s) && ToolbarTagged(s)
  {
    State("rectangle", [], None)
  }

  /** Pointer down at (x, y): starts a fresh zero-length span bound to the selected
      tool, replacing any drag already in progress. */
  function MouseDown(s: State, x: real, y: real): (t: State)
    ensures t.tool == s.tool && t.content == s.content
    ensures t.active.Some? && t.active.value.tool == s.tool
    ensures t.active.value.startX == t.active.value.endX == x
    ensures t.active.value.startY == t.active.value.endY == y
  {
    s.(active := Some(Drawable(s.tool, x, y, x, y)))
  }

  /** Pointer move to (x, y): ignored when idle; otherwise only the span's end moves. */
  function MouseMove(s: State, x: real, y: real): (t: State)
    ensures s.active.None? ==> t == s
    ensures t.tool == s.tool && t.content == s.content
    ensures s.active.Some? ==>
      && t.active.Some?
      && t.active.value.tool == s.active.value.tool
      && t.active.value.startX == s.active.value.startX
      && t.active.value.startY == s.active.value.startY
      && t.active.value.endX == x && t.active.value.endY == y
  {
    match s.active
    case None => s
    case Some(a) => s.(active := Some(a.(endX := x, endY := y)))
  }

  /** Pointer up: ignored when idle; otherwise the span is appended to the drawing
      when it has extent in both axes, and the drag ends either way. */
  function MouseUp(s: State): (t: State)
    ensures s.active.None? ==> t == s
    ensures t.active.None? && t.tool == s.tool
    ensures s.content <= t.content
    ensures s.active.Some? && Committable(s.active.value) ==> t.content == s.content + [s.active.value]
    ensures s.active.Some? && !Committable(s.active.value) ==> t.content == s.content
  {
    match s.active
    case None => s
    case Some(a) =>
      var content := if a.startX != a.endX && a.startY != a.endY then s.content + [a] else s.content;
      State(s.tool, content, None)
  }

  /** Toolbar selection: changes the tool for the next drag and nothing else. */
  function SetTool(s: State, id: string): (t: State)
    ensures t.tool == id
    ensures t.content == s.content && t.active == s.active
  {
    s.(tool := id)
  }

  /** One input delivered to the editor. Pointer-up carries no coordinates because
      the handler never reads them: the span's end is where the last move left it. */
  datatype Event = Down(x: real, y: real) | Move(x: real, y: real) | Up | Select(id: string)

  function Step(s: State, e: Event): (t: State)
    ensures t.tool == (if e.Select? then e.id else s.tool)
    ensures !e.Up? ==> t.content == s.content
    ensures e.Up? ==> t.active.None?
    ensures e.Down? ==> t.active.Some? && t.active.value.tool == s.tool
    ensures e.Down? ==> t == MouseDown(s, e.x, e.y)
    ensures e.Move? ==> t == MouseMove(s, e.x, e.y)
    ensures e.Up? ==> t == MouseUp(s)
    ensures e.Select? ==> t == SetTool(s, e.id) && t.active == s.active
  {
    match e
    case Down(x, y) => MouseDown(s, x, y)
    case Move(x, y) => MouseMove(s, x, y)
    case Up => MouseUp(s)
    case Select(id) => SetTool(s, id)
  }

  /** Committed spans all have extent in both axes. */
  predicate NonDegenerate(s: State) {
    forall i :: 0 <= i < |s.content| ==> Committable(s.content[i])
  }

  /** Delivers the events in order. The drawing only ever grows at its end, and a
      drawing free of degenerate spans stays free of them. */
  function Run(s: State, es: seq<Event>): (t: State)
    ensures s.content <= t.content
    ensures NonDegenerate(s) ==> NonDegenerate(t)
    decreases |es|
  {
    if es == [] then s else Run(Step(s, es[0]), es[1..])
  }

  // ---------------------------------------------------------------------------
  // Properties of single handlers

  /** Pointer-down does not look at the drag it replaces. */
  lemma DownForgetsPriorDrag(s: State, other: Option<Drawable>, x: real, y: real)
    ensures MouseDown(s.(active := other), x, y) == MouseDown(s, x, y)
  {
  }

  /** Moving twice to the same point is moving once; more generally the last move wins. */
  lemma MoveLastWins(s: State, x0: real, y0: real, x: real, y: real)
    ensures MouseMove(MouseMove(s, x0, y0), x, y) == MouseMove(s, x, y)
    ensures MouseMove(MouseMove(s, x, y), x, y) == MouseMove(s, x, y)
  {
  }

  /** A click without a move commits nothing and leaves the editor idle. */
  lemma ClickCommitsNothing(s: State, x: real, y: real)
    ensures MouseUp(MouseDown(s, x, y)) == s.(active := None)
  {
  }

  /** Every handler and tool selection keeps the drawing free of degenerate spans. */
  lemma StepKeepsNonDegenerate(s: State, e: Event)
    requires NonDegenerate(s)
    ensures NonDegenerate(Step(s, e))
  {
  }

  /** Only pointer-up changes the drawing, and only by appending the active span. */
  lemma StepAppendsOnlyActive(s: State, e: Event)
    ensures var t := Step(s, e);
      t.content == s.content ||
      (e.Up? && s.active.Some? && t.content == s.content + [s.active.value])
  {
  }

  // ---------------------------------------------------------------------------
  // Properties of event sequences

  /** Events that neither start nor end a drag. */
  predicate MidDrag(es: seq<Event>) {
    forall i :: 0 <= i < |es| ==> es[i].Move? || es[i].Select?
  }

  /** While a drag is in progress, moves and tool changes keep its tool and its start,
      and leave the drawing alone: the tool is bound when the drag starts. */
  lemma {:induction false} DragKeepsBinding(s: State, es: seq<Event>)
    requires s.active.Some?
    requires MidDrag(es)
    ensures var t := Run(s, es);
      && t.content == s.content
      && t.active.Some?
      && t.active.value.tool == s.active.value.tool
      && t.active.value.startX == s.active.value.startX
      && t.active.value.startY == s.active.value.startY
    decreases |es|
  {
    if es != [] {
      var s' := Step(s, es[0]);
      assert MidDrag(es[1..]) by {
        forall i | 0 <= i < |es[1..]| ensures es[1..][i].Move? || es[1..][i].Select? {
          assert es[1..][i] == es[i + 1];
        }
      }
      DragKeepsBinding(s', es[1..]);
    }
  }

  /** A drag started with tool T and released after any moves and tool changes commits
      (if anything) a span tagged T, which renders with T's normaliser. */
  lemma {:induction false} DragCommitsBoundTool(s: State, x: real, y: real, es: seq<Event>)
    requires MidDrag(es)
    ensures var before := Run(MouseDown(s, x, y), es);
      var t := MouseUp(before);
      && before.active.Some?
      && before.active.value.tool == s.tool
      && t.active.None?
      && (t.content == s.content || t.content == s.content + [before.active.value])
    ensures var t := Run(MouseDown(s, x, y), es + [Up]);
      forall i :: |s.content| <= i < |t.content| ==> t.content[i].tool == s.tool
  {
    var down := MouseDown(s, x, y);
    DragKeepsBinding(down, es);
    RunAppend(down, es, [Up]);
  }

  /** Running two event sequences one after the other is running their concatenation. */
  lemma {:induction false} RunAppend(s: State, es: seq<Event>, fs: seq<Event>)
    ensures Run(s, es + fs) == Run(Run(s, es), fs)
    decreases |es|
  {
    if es == [] {
      assert es + fs == fs;
    } else {
      assert (es + fs)[1..] == es[1..] + fs;
      RunAppend(Step(s, es[0]), es[1..], fs);
    }
  }

  /** Tool ids selected only from the toolbar. */
  predicate FromToolbar(es: seq<Event>) {
    forall i :: 0 <= i < |es| && es[i].Select? ==> es[i].id in ToolbarIds
  }

  /** Every tool id in the state is a toolbar id. */
  predicate ToolbarTagged(s: State) {
    && s.tool in ToolbarIds
    && (s.active.Some? ==> s.active.value.tool in ToolbarIds)
    && forall i :: 0 <= i < |s.content| ==> s.content[i].tool in ToolbarIds
  }

  /** Selecting only toolbar ids keeps every tag a toolbar id. */
  lemma {:induction false} RunKeepsToolbarTagged(s: State, es: seq<Event>)
    requires ToolbarTagged(s)
    requires FromToolbar(es)
    ensures ToolbarTagged(Run(s, es))
    decreases |es|
  {
    if es != [] {
      var s' := Step(s, es[0]);
      assert ToolbarTagged(s');
      assert FromToolbar(es[1..]) by {
        forall i | 0 <= i < |es[1..]| && es[1..][i].Select? ensures es[1..][i].id in ToolbarIds {
          assert es[1..][i] == es[i + 1];
        }
      }
      RunKeepsToolbarTagged(s', es[1..]);
    }
  }

  /** The geometry drawn for a state: the committed spans in paint order, then the
      overlay for the span being dragged. */
  function Scene(s: State): (r: seq<Option<Shape>>)
    ensures |r| == |s.content| + (if s.active.Some? then 1 else 0)
    ensures forall i :: 0 <= i < |s.content| ==> r[i] == Render(s.content[i])
    ensures s.active.Some? ==> r[|s.content|] == Render(s.active.value)
  {
    var committed := seq(|s.content|, i requires 0 <= i < |s.content| => Render(s.content[i]));
    match s.active
    case None => committed
    case Some(a) => committed + [Render(a)]
  }

  /** What the pane shows after pointer-up: the committed part of the scene, with the
      released overlay kept exactly when the span was committed. */
  lemma SceneAtRelease(s: State)
    requires s.active.Some?
    ensures Committable(s.active.value) ==> Scene(MouseUp(s)) == Scene(s)
    ensures !Committable(s.active.value) ==> Scene(MouseUp(s)) == Scene(s)[..|s.content|]
  {
  }

  /** Every entry of the scene has geometry. The source draws the scene after each event,
      and looking up a tag without a normaliser throws there and stops the editor. */
  predicate SceneRenders(s: State) {
    forall i :: 0 <= i < |Scene(s)| ==> Scene(s)[i].Some?
  }

  /** The committed spans all have geometry. */
  predicate ContentRenders(s: State) {
    forall i :: 0 <= i < |s.content| ==> Render(s.content[i]).Some?
  }

  /** Along a run in which the scene renders before every event (a run App.tsx survives),
      every committed span has geometry: a span tagged with a tool that has no normaliser
      can only be committed after the drawing of its overlay has already thrown. */
  lemma {:induction false} SurvivingRunCommitsRenderable(s: State, es: seq<Event>)
    requires ContentRenders(s)
    requires forall i :: 0 <= i < |es| ==> SceneRenders(Run(s, es[..i]))
    ensures ContentRenders(Run(s, es))
    decreases |es|
  {
    if es != [] {
      assert es[..0] == [];
      assert SceneRenders(s);
      var s' := Step(s, es[0]);
      assert ContentRenders(s') by {
        if es[0].Up? && s.active.Some? {
          assert Scene(s)[|s.content|] == Render(s.active.value);
        }
      }
      forall i | 0 <= i < |es[1..]| ensures SceneRenders(Run(s', es[1..][..i])) {
        assert es[..i + 1][0] == es[0];
        assert es[..i + 1][1..] == es[1..][..i];
        assert SceneRenders(Run(s, es[..i + 1]));
      }
      SurvivingRunCommitsRenderable(s', es[1..]);
    }
  }

  /** In any state reached from the initial one, every committed shape that has a
      normaliser is drawn with positive extent. */
  lemma ReachableShapesHavePositiveExtent(es: seq<Event>)
    ensures var t := Run(Initial(), es);
      forall i :: 0 <= i < |t.content| && Render(t.content[i]).Some? ==>
        PositiveExtent(Render(t.content[i]).value)
  {
    var t := Run(Initial(), es);
    forall i | 0 <= i < |t.content| && Render(t.content[i]).Some?
      ensures PositiveExtent(Render(t.content[i]).value)
    {
      CommittableGivesPositiveExtent(t.content[i]);
    }
  }

  /** With only toolbar selections, a committed span of the model has no normaliser exactly
      when it was drawn with pointer, polygon or path. The source never gets that far: it
      throws while drawing such a span's overlay (see SurvivingRunCommitsRenderable). */
  lemma ReachableUnrenderableTags(es: seq<Event>)
    requires FromToolbar(es)
    ensures var t := Run(Initial(), es);
      forall i :: 0 <= i < |t.content| ==>
        (Render(t.content[i]).None? <==> t.content[i].tool in {"pointer", "polygon", "path"})
  {
    RunKeepsToolbarTagged(Initial(), es);
  }
}
