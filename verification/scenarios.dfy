/** Concrete event traces through the editor, each checked against the geometry it
    must produce. */
module Scenarios {
  import opened Wrappers
  import opened Geometry
  import opened Interaction

  /** Dragging the default rectangle tool from (0, 0) to (10, 10) commits one span,
      drawn as the 10 by 10 rectangle at the origin, and leaves the editor idle. */
  lemma RectangleDrag()
    ensures var t := Run(Initial(), [Down(0.0, 0.0), Move(10.0, 10.0), Up]);
      && t.active.None?
      && t.content == [Drawable("rectangle", 0.0, 0.0, 10.0, 10.0)]
      && Scene(t) == [Some(Rect(0.0, 0.0, 10.0, 10.0))]
  {
  }

  /** A purely vertical drag commits nothing, whatever the tool, drawing and coordinates;
      (10, 10) to (10, 50) is one instance. */
  lemma VerticalDragCommitsNothing(s: State, x: real, y0: real, y1: real)
    ensures var t := Run(s, [Down(x, y0), Move(x, y1), Up]);
      t.content == s.content && t.active.None?
    ensures var t := Run(s, [Down(10.0, 10.0), Move(10.0, 50.0), Up]);
      t.content == s.content && t.active.None?
  {
    var es := [Down(x, y0), Move(x, y1), Up];
    var down := MouseDown(s, x, y0);
    var moved := MouseMove(down, x, y1);
    assert es[1..] == [Move(x, y1), Up];
    assert [Move(x, y1), Up][1..] == [Up];
    assert [Up][1..] == [];
    assert Run(moved, [Up]) == Run(MouseUp(moved), []) == MouseUp(moved);
    assert Run(down, [Move(x, y1), Up]) == Run(moved, [Up]);
    assert Run(s, es) == Run(down, [Move(x, y1), Up]);
  }

  /** Switching to the ellipse tool mid-drag still commits a rectangle; the new tool
      applies from the next drag on. */
  lemma ToolSwitchMidDrag()
    ensures var t := Run(Initial(), [Down(0.0, 0.0), Select("ellipse"), Move(10.0, 20.0), Up]);
      && t.tool == "ellipse"
      && Scene(t) == [Some(Rect(0.0, 0.0, 10.0, 20.0))]
  {
  }

  /** Two drags commit in the order they were made. */
  lemma CommitsInOrder()
    ensures var t := Run(Initial(), [Down(0.0, 0.0), Move(4.0, 4.0), Up,
                                   Select("line"), Down(8.0, 8.0), Move(2.0, 6.0), Up]);
      Scene(t) == [Some(Rect(0.0, 0.0, 4.0, 4.0)), Some(Line(8.0, 8.0, 2.0, 6.0))]
  {
  }

  /** A circle drag from (0, 0) to (10, 4) gives radius 5 centred at (5, 5): the
      circle hangs from the span's top-left corner rather than centring on the span. */
  lemma CircleHangsFromCorner()
    ensures var t := Run(Initial(), [Select("circle"), Down(0.0, 0.0), Move(10.0, 4.0), Up]);
      Scene(t) == [Some(Circle(5.0, 5.0, 5.0))]
  {
  }

  /** A drag under the pointer tool has no geometry to preview: this is where App.tsx's
      render throws. Continuing past that point, the model commits the span with no
      geometry, a state App.tsx never reaches. */
  lemma PointerDragHasNoGeometry()
    ensures var t := Run(Initial(), [Select("pointer"), Down(1.0, 1.0), Move(3.0, 3.0)]);
      Scene(t) == [None]
    ensures var t := Run(Initial(), [Select("pointer"), Down(1.0, 1.0), Move(3.0, 3.0), Up]);
      Scene(t) == [None]
  {
    var span := Drawable("pointer", 1.0, 1.0, 3.0, 3.0);
    var dragging := State("pointer", [], Some(span));
    RunAppend(Initial(), [Select("pointer"), Down(1.0, 1.0), Move(3.0, 3.0)], [Up]);
    assert [Select("pointer"), Down(1.0, 1.0), Move(3.0, 3.0)] + [Up]
      == [Select("pointer"), Down(1.0, 1.0), Move(3.0, 3.0), Up];
    assert Run(Initial(), [Select("pointer"), Down(1.0, 1.0), Move(3.0, 3.0)]) == dragging;
    assert Render(span) == None;
    assert Scene(dragging) == [None];
    assert Scene(MouseUp(dragging)) == [None];
  }
}
