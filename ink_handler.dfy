/**
 * The ink appearance handler: it generates the normal appearance of an
 * ink annotation into the annotation's normal-appearance slot, and no
 * rollover or down appearance.
 */
module InkAppearance {
  import opened Wrappers
  import opened Floats
  import opened InkProgram
  import opened ContentStreams

  /**
   * One turn of the loop over the ink list: writing path `j` after the
   * first `j` paths gives the first `j + 1` paths, and a failure while
   * doing so is a failure of the whole program at the same position.
   */
  lemma PathStep(state: seq<Op>, ink: seq<seq<Float>>, j: nat, failsAt: Option<nat>)
    requires j < |ink|
    ensures state + PathsOps(ink, j) + PathOps(ink[j]) == state + PathsOps(ink, j + 1)
    ensures Interrupted(state + PathsOps(ink, j + 1), failsAt) ==>
      && Interrupted(state + PathsOps(ink, |ink|), failsAt)
      && Written(state + PathsOps(ink, j + 1), failsAt) == Written(state + PathsOps(ink, |ink|), failsAt)
  {
    var done, next := PathsOps(ink, j), PathOps(ink[j]);
    assert state + done + next == state + (done + next);
    if Interrupted(state + PathsOps(ink, j + 1), failsAt) {
      PathsOpsPrefix(ink, j + 1, |ink|);
      WrittenOfPrefix(state + PathsOps(ink, j + 1), state + PathsOps(ink, |ink|), failsAt);
    }
  }

  class InkAppearanceHandler {
    /** The annotation the handler draws. */
    const annotation: InkAnnotation
    /** Its border, as resolved from /BS or, failing that, /Border. */
    const border: Border
    /** The normal-appearance slot; null until a stream is bound to it. */
    var normalAppearance: ContentStream?

    constructor (annotation: InkAnnotation, border: Border)
      ensures this.annotation == annotation && this.border == border
      ensures normalAppearance == null
    {
      this.annotation := annotation;
      this.border := border;
      normalAppearance := null;
    }

    /**
     * The body of the generator's `try` block: writes the graphics state
     * and every path to `cs`. It returns false at the first write that
     * fails, which leaves `cs` holding the program up to that point.
     */
    method EmitProgram(cs: ContentStream) returns (ok: bool)
      requires ShouldDraw(annotation.color, border.width)
      requires cs.ops == [] && !cs.closed
      modifies cs
      ensures cs.ops == Written(Program(annotation, border), cs.failsAt)
      ensures ok <==> !Interrupted(Program(annotation, border), cs.failsAt)
      ensures !cs.closed
    {
      ghost var state := StateOps(annotation.constantOpacity, annotation.color.value, border);
      ghost var full := Program(annotation, border);
      assert full == state + PathsOps(annotation.inkList, |annotation.inkList|);
      ok := EmitState(cs);
      if !ok {
        WrittenOfPrefix(state, full, cs.failsAt);
        return;
      }
      ok := EmitPaths(cs);
    }

    /**
     * Writes set-alpha, set-stroke-color, set-dash when there is a dash
     * array, and set-width, stopping at the first write that fails.
     */
    method EmitState(cs: ContentStream) returns (ok: bool)
      requires annotation.color.Some?
      requires cs.ops == [] && !cs.closed
      modifies cs
      ensures cs.ops == Written(StateOps(annotation.constantOpacity, annotation.color.value, border), cs.failsAt)
      ensures ok <==> !Interrupted(StateOps(annotation.constantOpacity, annotation.color.value, border), cs.failsAt)
      ensures !cs.closed
    {
      ghost var state := StateOps(annotation.constantOpacity, annotation.color.value, border);
      ok := cs.Write(SetAlpha(annotation.constantOpacity));
      if !ok {
        WrittenAtFailure(state, cs.ops, 0);
        return;
      }
      ok := cs.Write(SetStrokeColor(annotation.color.value));
      if !ok {
        assert cs.ops == state[..1];
        WrittenAtFailure(state, cs.ops, 1);
        return;
      }
      if border.dashArray.Some? {
        ok := cs.Write(SetDash(border.dashArray.value, PositiveZero));
        if !ok {
          assert cs.ops == state[..2];
          WrittenAtFailure(state, cs.ops, 2);
          return;
        }
      }
      ok := cs.Write(SetWidth(border.width));
      if !ok {
        assert cs.ops == state[..|state| - 1];
        WrittenAtFailure(state, cs.ops, |state| - 1);
        return;
      }
      assert cs.ops == state;
    }

    /**
     * Writes every path of the ink list, in list order, after what `cs`
     * already holds, stopping at the first write that fails.
     */
    method EmitPaths(cs: ContentStream) returns (ok: bool)
      requires !cs.closed && !Interrupted(cs.ops, cs.failsAt)
      modifies cs
      ensures cs.ops == Written(old(cs.ops) + PathsOps(annotation.inkList, |annotation.inkList|), cs.failsAt)
      ensures ok <==> !Interrupted(old(cs.ops) + PathsOps(annotation.inkList, |annotation.inkList|), cs.failsAt)
      ensures !cs.closed
    {
      ghost var state := cs.ops;
      var ink := annotation.inkList;
      var j := 0;
      while j < |ink|
        invariant 0 <= j <= |ink| && !cs.closed
        invariant cs.ops == state + PathsOps(ink, j)
        invariant !Interrupted(cs.ops, cs.failsAt)
      {
        ok := EmitPath(cs, ink[j]);
        PathStep(state, ink, j, cs.failsAt);
        if !ok {
          return;
        }
        j := j + 1;
      }
      ok := true;
    }

    /**
     * Writes one coordinate array after what `cs` already holds: a move to
     * its first point, a line to each further point, then a stroke; an odd
     * trailing coordinate is not read. Stops at the first write that fails.
     */
    method EmitPath(cs: ContentStream, pathArray: seq<Float>) returns (ok: bool)
      requires !cs.closed && !Interrupted(cs.ops, cs.failsAt)
      modifies cs
      ensures cs.ops == Written(old(cs.ops) + PathOps(pathArray), cs.failsAt)
      ensures ok <==> !Interrupted(old(cs.ops) + PathOps(pathArray), cs.failsAt)
      ensures !cs.closed
    {
      ghost var before := cs.ops;
      var nPoints := |pathArray| / 2;
      var i := 0;
      while i < nPoints
        invariant 0 <= i <= nPoints && !cs.closed
        invariant cs.ops == before + PointOps(pathArray, i)
        invariant !Interrupted(cs.ops, cs.failsAt)
      {
        var x := pathArray[i * 2];
        var y := pathArray[i * 2 + 1];
        if i == 0 {
          ok := cs.Write(MoveTo(x, y));
        } else {
          ok := cs.Write(LineTo(x, y));
        }
        if !ok {
          PointOpsPrefix(pathArray, i, nPoints);
          WrittenAtFailureAfter(before, PointOps(pathArray, i), PathOps(pathArray));
          return;
        }
        i := i + 1;
      }
      ok := cs.Write(Stroke);
      if !ok {
        WrittenAtFailureAfter(before, PointOps(pathArray, nPoints), PathOps(pathArray));
        return;
      }
    }

    /**
     * Generates the normal appearance. When a colour with components and
     * a width other than +0.0 are given, a fresh stream is bound to the
     * slot and receives the program, or the part of it written before a
     * failure, and is closed on every path; a failure is logged and goes
     * no further. Otherwise the slot is left as it was.
     */
    method GenerateNormalAppearance(io: Io) returns (errorLogged: bool)
      modifies this
      ensures !ShouldDraw(annotation.color, border.width) ==>
        normalAppearance == old(normalAppearance) && !errorLogged
      ensures ShouldDraw(annotation.color, border.width) && io.openFails ==>
        normalAppearance == old(normalAppearance) && errorLogged
      ensures ShouldDraw(annotation.color, border.width) && !io.openFails ==>
        && normalAppearance != null && fresh(normalAppearance)
        && normalAppearance.closed
        && normalAppearance.failsAt == io.writeFailsAt
        && normalAppearance.ops == Written(Program(annotation, border), io.writeFailsAt)
        && (errorLogged <==> Interrupted(Program(annotation, border), io.writeFailsAt))
    {
      errorLogged := false;
      var color := annotation.color;
      if color.None? || |color.value.components| == 0 || Compare(border.width, PositiveZero) == 0 {
        return;
      }
      // try
      if io.openFails {
        // the stream could not be opened: cs stays null and there is nothing to close
        errorLogged := true;
        return;
      }
      var cs := new ContentStream(io.writeFailsAt);
      normalAppearance := cs;
      var ok := EmitProgram(cs);
      // catch
      if !ok {
        errorLogged := true;
      }
      // finally
      cs.Close();
    }

    /** There is no rollover appearance: the slot is left alone. */
    method GenerateRolloverAppearance()
      ensures normalAppearance == old(normalAppearance)
    {
    }

    /** There is no down appearance: the slot is left alone. */
    method GenerateDownAppearance()
      ensures normalAppearance == old(normalAppearance)
    {
    }

    /**
     * Generates the normal, the rollover and the down appearance, in that
     * order; only the first has an effect.
     */
    method GenerateAppearanceStreams(io: Io) returns (errorLogged: bool)
      modifies this
      ensures !ShouldDraw(annotation.color, border.width) ==>
        normalAppearance == old(normalAppearance) && !errorLogged
      ensures ShouldDraw(annotation.color, border.width) && io.openFails ==>
        normalAppearance == old(normalAppearance) && errorLogged
      ensures ShouldDraw(annotation.color, border.width) && !io.openFails ==>
        && normalAppearance != null && fresh(normalAppearance)
        && normalAppearance.closed
        && normalAppearance.ops == Written(Program(annotation, border), io.writeFailsAt)
        && (errorLogged <==> Interrupted(Program(annotation, border), io.writeFailsAt))
    {
      errorLogged := GenerateNormalAppearance(io);
      GenerateRolloverAppearance();
      GenerateDownAppearance();
    }
  }
}
