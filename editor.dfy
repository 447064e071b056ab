/**
 * The editor's active-tool state machine: which sidebar tool is active, whether
 * the canvas is in free-drawing mode, and how both react to a tool request, to
 * a cleared selection and to closing a sidebar.
 */
module EditorTools {

  /** Tool names are opaque strings; only three of them have special meaning. */
  type Tool = string

  const SELECT: Tool := "select"
  const AI: Tool := "ai"
  const DRAW: Tool := "draw"

  /** The canvas size handed to the canvas editor when it is created. */
  const DEFAULT_WIDTH: nat := 832
  const DEFAULT_HEIGHT: nat := 1152

  /** The switches of the AI refinement loop, one per agent. */
  datatype RefinementLoop = RefinementLoop(
    criticAgent: bool,
    planningAgent: bool,
    executionAgent: bool,
    tools: bool,
    evaluationAgent: bool)

  /**
   * The tool that is active after `requested` is asked for while `active` is
   * active. In AI edit mode only `ai` and `select` are taken, and re-asking
   * for the active tool always lands on `select`.
   */
  function NextTool(aiMode: bool, active: Tool, requested: Tool): (r: Tool)
    // re-clicking the active tool falls back to select, in both modes
    ensures requested == active ==> r == SELECT
    // outside AI mode any other tool is taken as asked
    ensures !aiMode && requested != active ==> r == requested
    ensures !aiMode ==> (r == SELECT <==> requested == active || requested == SELECT)
    // in AI mode the tool only ever moves to ai or select
    ensures aiMode ==> r == active || r == AI || r == SELECT
    ensures aiMode && requested != active && (requested == AI || requested == SELECT) ==> r == requested
    ensures aiMode && requested != active && requested != AI && requested != SELECT ==> r == active
  {
    if requested == active then SELECT
    else if !aiMode || requested == AI || requested == SELECT then requested
    else active
  }

  /**
   * Whether the canvas draws freehand after `requested` is asked for. Asking
   * for draw turns drawing on, any request made while draw is active turns it
   * off, and AI mode or a canvas not yet attached leaves it as it was.
   */
  function NextDrawingMode(aiMode: bool, ready: bool, active: Tool, requested: Tool, drawing: bool): (r: bool)
    ensures aiMode || !ready ==> r == drawing
    ensures !aiMode && ready && active == DRAW ==> !r
    ensures !aiMode && ready && active != DRAW && requested == DRAW ==> r
    ensures !aiMode && ready && active != DRAW && requested != DRAW ==> r == drawing
  {
    if aiMode || !ready then drawing
    else
      var enabled := if requested == DRAW then true else drawing;
      if active == DRAW then false else enabled
  }

  /** Outside AI mode, drawing mode stays on exactly while draw is the active tool. */
  lemma DrawingFollowsDrawTool(active: Tool, requested: Tool, drawing: bool)
    requires drawing <==> active == DRAW
    ensures NextDrawingMode(false, true, active, requested, drawing) <==> NextTool(false, active, requested) == DRAW
  {
  }

  /** Re-clicking draw ends with drawing off and select active. */
  lemma ReclickDrawEndsDrawing(drawing: bool)
    ensures NextTool(false, DRAW, DRAW) == SELECT
    ensures !NextDrawingMode(false, true, DRAW, DRAW, drawing)
  {
  }

  /** Outside AI mode, clicking the same new tool twice returns to select. */
  lemma ClickTwiceReturnsToSelect(active: Tool, requested: Tool)
    requires requested != active
    ensures NextTool(false, NextTool(false, active, requested), requested) == SELECT
  {
  }

  /** The editor session's tool state. */
  class EditorSession {
    var activeTool: Tool
    var isAiEditMode: bool
    /** Whether the canvas is in freehand drawing mode. */
    var drawingMode: bool
    /** Whether the canvas editor exists yet (`editor` is undefined before). */
    var canvasReady: bool
    var refinementLoop: RefinementLoop
    const width: nat
    const height: nat

    /** Drawing mode is on exactly while draw is active, once there is a canvas. */
    predicate DrawingConsistent()
      reads this
    {
      canvasReady ==> (drawingMode <==> activeTool == DRAW)
    }

    constructor ()
      ensures activeTool == SELECT && !isAiEditMode && !drawingMode && !canvasReady
      ensures width == 832 && height == 1152
      ensures refinementLoop == RefinementLoop(true, true, true, true, true)
      ensures DrawingConsistent()
    {
      activeTool := SELECT;
      isAiEditMode := false;
      drawingMode := false;
      canvasReady := false;
      refinementLoop := RefinementLoop(true, true, true, true, true);
      width := DEFAULT_WIDTH;
      height := DEFAULT_HEIGHT;
    }

    /** The canvas editor has been created; a fresh canvas is not drawing. */
    method AttachCanvas()
      modifies this`canvasReady, this`drawingMode
      ensures canvasReady && !drawingMode
      ensures old(activeTool) != DRAW ==> DrawingConsistent()
    {
      canvasReady := true;
      drawingMode := false;
    }

    method SetAiEditMode(on: bool)
      modifies this`isAiEditMode
      ensures isAiEditMode == on
    {
      isAiEditMode := on;
    }

    /**
     * A tool is requested. The setters run in order and the last one wins;
     * every comparison is against the tool that was active when the request
     * was made.
     */
    method ChangeActiveTool(tool: Tool)
      modifies this`activeTool, this`drawingMode
      ensures activeTool == NextTool(isAiEditMode, old(activeTool), tool)
      ensures drawingMode == NextDrawingMode(isAiEditMode, canvasReady, old(activeTool), tool, old(drawingMode))
      ensures !isAiEditMode && old(DrawingConsistent()) ==> DrawingConsistent()
    {
      var current := activeTool;
      if isAiEditMode {
        if tool == AI || tool == SELECT {
          activeTool := tool;
        }
        if tool == current {
          activeTool := SELECT;
        }
        return;
      }
      if tool == DRAW && canvasReady {
        drawingMode := true;
      }
      if current == DRAW && canvasReady {
        drawingMode := false;
      }
      if tool == current {
        activeTool := SELECT;
        return;
      }
      activeTool := tool;
    }

    /**
     * The canvas selection was cleared: a tool that needs a selection gives
     * way to select, any other tool stays.
     */
    method ClearSelection(selectionDependentTools: seq<Tool>)
      modifies this`activeTool
      ensures old(activeTool) in selectionDependentTools ==> activeTool == SELECT
      ensures old(activeTool) !in selectionDependentTools ==> activeTool == old(activeTool)
      ensures DRAW !in selectionDependentTools && old(DrawingConsistent()) ==> DrawingConsistent()
    {
      if activeTool in selectionDependentTools {
        activeTool := SELECT;
      }
    }

    /** A sidebar's close button asks for select, which always ends on select. */
    method CloseSidebar()
      modifies this`activeTool, this`drawingMode
      ensures activeTool == SELECT
      ensures isAiEditMode || !canvasReady ==> drawingMode == old(drawingMode)
      ensures !isAiEditMode && canvasReady ==> (drawingMode <==> old(drawingMode) && old(activeTool) != DRAW)
    {
      ChangeActiveTool(SELECT);
    }
  }

  /**
   * In AI mode a tool request never touches the drawing switch, so leaving
   * draw for select keeps freehand drawing on: a session that was consistent
   * ends with select active and drawing still on.
   */
  method AiModeBreaksDrawingConsistency() returns (s: EditorSession)
    ensures s.isAiEditMode && s.activeTool == SELECT && s.drawingMode
    ensures !s.DrawingConsistent()
  {
    s := new EditorSession();
    s.AttachCanvas();
    s.ChangeActiveTool(DRAW);
    assert s.DrawingConsistent();
    s.SetAiEditMode(true);
    s.ChangeActiveTool(SELECT);
  }
}
