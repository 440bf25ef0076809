/*
 * ConoscopeAppWorker (ConoscopeLib/ConoscopeApp/ConoscopeAppWorker.cpp):
 * the worker that runs a capture sequence, one capture per filter, and
 * answers cancel requests from the application thread. In emulation the
 * captures are read from files and cropped to the current region of
 * interest.
 *
 * The captures themselves (`_Capturing`, `_ReadCapture`) are oracles: their
 * results are parameters. The cancel request comes from another thread:
 * `cancelAfter` says after how many steps the worker sees the flag.
 */
module AppWorker {
  import C = Common
  import T = ConoscopeTypes

  /** `CaptureSequenceStatus_t::State_t`. */
  datatype SequenceState =
    SequenceNotStarted | Setup | WaitForTemp | AutoExpo | Measure | SequenceProcess | SequenceDone | SequenceError | SequenceCancel

  /** `MeasureStatus_t::State_t`. */
  datatype MeasureState = MeasureNotStarted | MeasureProcess | MeasureDone | MeasureError | MeasureCancel

  /** The filters of a capture sequence, in capture order (lines 220-224). */
  const SequenceFilters: seq<T.Filter> := [T.X, T.Xz, T.Ya, T.Yb, T.Z]

  /** A sequence that is not running: a cancel request is refused (lines 66-69). */
  predicate SequenceIdle(s: SequenceState)
  {
    s == SequenceDone || s == SequenceError || s == SequenceCancel || s == SequenceNotStarted
  }

  /** A measure that is not running (lines 87-90). */
  predicate MeasureIdle(s: MeasureState)
  {
    s == MeasureDone || s == MeasureError || s == MeasureCancel || s == MeasureNotStarted
  }

  /** The state a sequence ends in (lines 362-379): a cancel wins, then the error decides. */
  function FinalState(cancelled: bool, e: C.Error): (s: SequenceState)
    ensures SequenceIdle(s) && s != SequenceNotStarted
    ensures s == SequenceCancel <==> cancelled
    ensures s == SequenceDone <==> !cancelled && e == C.Ok
    ensures s == SequenceError <==> !cancelled && e != C.Ok
  {
    if cancelled then SequenceCancel else if e == C.Ok then SequenceDone else SequenceError
  }

  /**
   * The number of steps a sequence runs from step `i` on: it stops at the end
   * of the list, when the cancel flag is seen, or after a failed step.
   */
  function StepsRun(outcome: seq<C.Error>, cancelAfter: int, i: int): (k: int)
    requires 0 <= i <= |outcome|
    ensures i <= k <= |outcome|
    ensures forall j :: i <= j < k - 1 ==> outcome[j] == C.Ok
    ensures k == |outcome| || k >= cancelAfter || (k > i && outcome[k - 1] != C.Ok)
    ensures k > i ==> k <= cancelAfter
    decreases |outcome| - i
  {
    if i == |outcome| || i >= cancelAfter then i
    else if outcome[i] != C.Ok then i + 1
    else StepsRun(outcome, cancelAfter, i + 1)
  }

  /** The error a sequence of `k` steps leaves: the last step's outcome. */
  function LastOutcome(outcome: seq<C.Error>, k: int): C.Error
    requires 0 <= k <= |outcome|
  {
    if k == 0 then C.Ok else outcome[k - 1]
  }

  /** A sequence never captures past a failed step nor after the cancel is seen, and stops only for a reason. */
  lemma StepsRunStops(outcome: seq<C.Error>, cancelAfter: int)
    requires 0 <= cancelAfter
    ensures var k := StepsRun(outcome, cancelAfter, 0);
      && k <= cancelAfter
      && (LastOutcome(outcome, k) == C.Ok ==> k == |outcome| || k == cancelAfter)
      && ((cancelAfter > |outcome| && forall j :: 0 <= j < |outcome| ==> outcome[j] == C.Ok) ==> k == |outcome|)
  {
  }

  // ---------------------------------------------------------------- the emulated crop

  /** A region of interest in sensor coordinates. */
  datatype Roi = Roi(xLeft: int, xRight: int, yTop: int, yBottom: int)

  function Width(r: Roi): int { r.xRight - r.xLeft }
  function Height(r: Roi): int { r.yBottom - r.yTop }

  /** The test of lines 454-457: every edge of the requested ROI lies within the captured one. */
  predicate RoiInside(inner: Roi, outer: Roi)
  {
    && outer.xLeft <= inner.xLeft <= outer.xRight && outer.xLeft <= inner.xRight <= outer.xRight
    && outer.yTop <= inner.yTop <= outer.yBottom && outer.yTop <= inner.yBottom <= outer.yBottom
  }

  /** An ROI whose right and bottom edges are not before its left and top ones. */
  predicate Ordered(r: Roi)
  {
    r.xLeft <= r.xRight && r.yTop <= r.yBottom
  }

  /**
   * As written, the test of lines 454-457 compares each edge with the
   * captured ROI only: a requested ROI whose left edge lies right of its
   * right edge, both inside the capture, passes, and the crop width that
   * lines 461-462 compute from it is negative.
   */
  lemma ReversedRoiPassesAsWritten()
    ensures var roi, captured := Roi(20, 10, 0, 100), Roi(0, 100, 0, 100);
      && RoiInside(roi, captured) && !Ordered(roi)
      && Width(roi) == -10 && Width(roi) * Height(roi) == -1000
  {
  }

  /** The corrected test: the requested ROI lies within the captured one and is not reversed. */
  predicate RoiAccepted(roi: Roi, captured: Roi)
  {
    RoiInside(roi, captured) && Ordered(roi)
  }

  /** With the corrected test, the size the buffers are resized to is never negative and never exceeds the capture. */
  lemma AcceptedRoiFits(roi: Roi, captured: Roi)
    requires RoiAccepted(roi, captured)
    ensures 0 <= Width(roi) <= Width(captured) && 0 <= Height(roi) <= Height(captured)
    ensures 0 <= Width(roi) * Height(roi) <= Width(captured) * Height(captured)
  {
    var w, h, cw, ch := Width(roi), Height(roi), Width(captured), Height(captured);
    C.MulMonotone(w, h, ch);
    C.MulMonotone(ch, w, cw);
    assert w * ch == ch * w && ch * cw == cw * ch;
  }

  /** A crop inside the captured ROI reads only inside the captured image (lines 494-503). */
  lemma CropIndexInside(inner: Roi, outer: Roi, line: int, column: int)
    requires RoiInside(inner, outer) && Ordered(inner)
    requires 0 <= line < Height(inner) && 0 <= column < Width(inner)
    ensures var ox, oy := inner.xLeft - outer.xLeft, inner.yTop - outer.yTop;
      0 <= (oy + line) * Width(outer) + ox + column < Width(outer) * Height(outer)
  {
    var ox, oy := inner.xLeft - outer.xLeft, inner.yTop - outer.yTop;
    var sw, sh := Width(outer), Height(outer);
    assert 0 <= oy + line < sh && 0 <= ox + column < sw;
    assert (oy + line) * sw + ox + column < (oy + line + 1) * sw;
    assert (oy + line + 1) * sw <= sh * sw;
  }

  /** Source pixel of destination pixel (`column`, `line`). */
  function CropSource(source: seq<int>, inner: Roi, outer: Roi, line: int, column: int): int
    requires RoiInside(inner, outer) && Ordered(inner) && |source| >= Width(outer) * Height(outer)
    requires 0 <= line < Height(inner) && 0 <= column < Width(inner)
  {
    CropIndexInside(inner, outer, line, column);
    source[(inner.yTop - outer.yTop + line) * Width(outer) + inner.xLeft - outer.xLeft + column]
  }

  /** The first `count` pixels of destination line `line`. */
  function CropLine(source: seq<int>, inner: Roi, outer: Roi, line: int, count: int): (pixels: seq<int>)
    requires RoiInside(inner, outer) && Ordered(inner) && |source| >= Width(outer) * Height(outer)
    requires 0 <= line < Height(inner) && 0 <= count <= Width(inner)
    ensures |pixels| == count
    ensures forall c :: 0 <= c < count ==> pixels[c] == CropSource(source, inner, outer, line, c)
  {
    if count == 0 then [] else CropLine(source, inner, outer, line, count - 1) + [CropSource(source, inner, outer, line, count - 1)]
  }

  lemma NextMultiple(k: int, n: int)
    ensures k * n + n == (k + 1) * n
  {
  }

  /** The first `lines` destination lines. */
  function Cropped(source: seq<int>, inner: Roi, outer: Roi, lines: int): (image: seq<int>)
    requires RoiInside(inner, outer) && Ordered(inner) && |source| >= Width(outer) * Height(outer)
    requires 0 <= lines <= Height(inner)
    ensures |image| == lines * Width(inner)
  {
    if lines == 0 then []
    else
      NextMultiple(lines - 1, Width(inner));
      Cropped(source, inner, outer, lines - 1) + CropLine(source, inner, outer, lines - 1, Width(inner))
  }

  /** The crop writes destination `line * width + column` from source `(oy + line) * srcWidth + ox + column`. */
  lemma {:induction false} CroppedAt(source: seq<int>, inner: Roi, outer: Roi, lines: int, line: int, column: int)
    requires RoiInside(inner, outer) && Ordered(inner) && |source| >= Width(outer) * Height(outer)
    requires 0 <= lines <= Height(inner) && 0 <= line < lines && 0 <= column < Width(inner)
    ensures 0 <= line * Width(inner) + column < |Cropped(source, inner, outer, lines)|
    ensures Cropped(source, inner, outer, lines)[line * Width(inner) + column] == CropSource(source, inner, outer, line, column)
  {
    var w := Width(inner);
    var prefix := Cropped(source, inner, outer, lines - 1);
    var last := CropLine(source, inner, outer, lines - 1, w);
    assert Cropped(source, inner, outer, lines) == prefix + last;
    if line < lines - 1 {
      CroppedAt(source, inner, outer, lines - 1, line, column);
    } else {
      assert line * w + column == |prefix| + column;
      assert (prefix + last)[|prefix| + column] == last[column];
    }
  }

  /** A row-major index splits into its line and column. */
  lemma SplitIndex(i: int, width: int, height: int)
    requires width > 0 && 0 <= i < width * height
    ensures 0 <= i / width < height && 0 <= i % width < width && i == (i / width) * width + i % width
  {
    var line, column := i / width, i % width;
    assert i == width * line + column;
    if line >= height {
      C.MulAtLeast(line - height + 1, width);
    }
  }

  /** Cropping to the captured ROI itself gives the captured image back. */
  lemma {:induction false} CropToSameRoi(source: seq<int>, roi: Roi)
    requires Ordered(roi) && |source| == Width(roi) * Height(roi)
    ensures Cropped(source, roi, roi, Height(roi)) == source
  {
    var image := Cropped(source, roi, roi, Height(roi));
    forall i | 0 <= i < |source|
      ensures image[i] == source[i]
    {
      var w := Width(roi);
      SplitIndex(i, w, Height(roi));
      CroppedAt(source, roi, roi, Height(roi), i / w, i % w);
    }
  }

  /** The nested copy loops of lines 494-503, for one buffer. */
  method CropBuffer(source: seq<int>, inner: Roi, outer: Roi) returns (crop: seq<int>)
    requires RoiInside(inner, outer) && Ordered(inner) && |source| >= Width(outer) * Height(outer)
    ensures crop == Cropped(source, inner, outer, Height(inner))
  {
    var cropWidth, cropHeight := inner.xRight - inner.xLeft, inner.yBottom - inner.yTop;
    crop := [];
    var line := 0;
    while line < cropHeight
      invariant 0 <= line <= cropHeight
      invariant crop == Cropped(source, inner, outer, line)
    {
      var pixels: seq<int> := [];
      var column := 0;
      while column < cropWidth
        invariant 0 <= column <= cropWidth
        invariant pixels == CropLine(source, inner, outer, line, column)
      {
        pixels := pixels + [CropSource(source, inner, outer, line, column)];
        column := column + 1;
      }
      crop := crop + pixels;
      line := line + 1;
    }
  }

  /**
   * Lines 471-481 as written: the buffer is resized to the crop size, then
   * the whole capture is copied into it before the crop loops run. The
   * result gives the number of pixels that copy writes and the room it has.
   */
  datatype Staging = Staging(written: int, room: int)

  function StagingCopyAsWritten(captureSize: int, inner: Roi): (s: Staging)
    ensures s.room == Width(inner) * Height(inner) && s.written == captureSize
  {
    Staging(captureSize, Width(inner) * Height(inner))
  }

  /** As written, cropping a 100 × 100 capture to 10 × 10 copies 10000 pixels into room for 100. */
  lemma StagingCopyOverrunsAsWritten()
    ensures var inner, outer := Roi(10, 20, 10, 20), Roi(0, 100, 0, 100);
      && RoiInside(inner, outer)
      && StagingCopyAsWritten(Width(outer) * Height(outer), inner) == Staging(10000, 100)
  {
  }

  /**
   * The filter loop of lines 319-333: one capture per filter while the
   * captures succeed and the cancel flag is clear. `steps` and `filter`
   * are the step number and filter of the last capture started.
   */
  method RunSteps(outcome: seq<C.Error>, cancelAfter: int) returns (e: C.Error, captured: seq<T.Filter>, steps: int, filter: T.Filter, cancel: bool)
    requires |outcome| == |SequenceFilters| && 0 <= cancelAfter
    ensures var k := StepsRun(outcome, cancelAfter, 0);
      && captured == SequenceFilters[..k] && e == LastOutcome(outcome, k) && cancel == (k >= cancelAfter)
      && steps == k && (k > 0 ==> filter == SequenceFilters[k - 1])
  {
    e := C.Ok;
    captured := [];
    var index := 0;
    steps, filter := 0, T.FilterInvalid;
    cancel := index >= cancelAfter;
    while index < |SequenceFilters| && e == C.Ok && !cancel
      invariant 0 <= index <= |SequenceFilters|
      invariant e == LastOutcome(outcome, index) && captured == SequenceFilters[..index]
      invariant cancel == (index >= cancelAfter)
      invariant StepsRun(outcome, cancelAfter, 0) == (if e == C.Ok && !cancel then StepsRun(outcome, cancelAfter, index) else index)
      invariant steps == index && (index > 0 ==> filter == SequenceFilters[index - 1])
    {
      steps, filter := index + 1, SequenceFilters[index];
      e := outcome[index];
      captured := captured + [SequenceFilters[index]];
      index := index + 1;
      cancel := index >= cancelAfter;
    }
  }

  // ---------------------------------------------------------------- the worker

  class Worker {
    var sequenceState: SequenceState
    var measureState: MeasureState
    var cancelRequest: bool
    var nbSteps: int
    var currentSteps: int
    var currentFilter: T.Filter
    /** `bUseRoi` of the library's and of the worker's own settings. */
    var processUseRoi: bool
    var workerUseRoi: bool
    /** `mBuffer1` … `mBuffer5`, by filter. */
    var buffers: map<T.Filter, seq<int>>

    /** The constructor (lines 45-56). */
    constructor ()
      ensures nbSteps == 0 && currentSteps == 0 && sequenceState == SequenceNotStarted
      ensures currentFilter == T.FilterInvalid && measureState == MeasureNotStarted && !cancelRequest
    {
      nbSteps, currentSteps := 0, 0;
      sequenceState := SequenceNotStarted;
      currentFilter := T.FilterInvalid;
      measureState := MeasureNotStarted;
      cancelRequest := false;
      processUseRoi, workerUseRoi := false, false;
      buffers := map[];
    }

    /** `CaptureSequenceCancel` (lines 62-81): refused when no sequence runs, but the flag is set either way. */
    method CaptureSequenceCancel() returns (e: C.Error)
      modifies this
      ensures cancelRequest
      ensures e == (if SequenceIdle(sequenceState) then C.InvalidState else C.Ok)
      ensures sequenceState == old(sequenceState) && measureState == old(measureState)
      ensures nbSteps == old(nbSteps) && currentSteps == old(currentSteps) && currentFilter == old(currentFilter)
      ensures buffers == old(buffers) && processUseRoi == old(processUseRoi) && workerUseRoi == old(workerUseRoi)
    {
      e := C.Ok;
      if sequenceState == SequenceDone || sequenceState == SequenceError
         || sequenceState == SequenceCancel || sequenceState == SequenceNotStarted {
        e := C.InvalidState;
      }
      cancelRequest := true;
    }

    /** `MeasureAECancel` (lines 83-98): the same rule for the auto-exposure measure. */
    method MeasureAECancel() returns (e: C.Error)
      modifies this
      ensures cancelRequest
      ensures e == (if MeasureIdle(measureState) then C.InvalidState else C.Ok)
      ensures sequenceState == old(sequenceState) && measureState == old(measureState)
      ensures nbSteps == old(nbSteps) && currentSteps == old(currentSteps) && currentFilter == old(currentFilter)
      ensures buffers == old(buffers) && processUseRoi == old(processUseRoi) && workerUseRoi == old(workerUseRoi)
    {
      e := C.Ok;
      if measureState == MeasureDone || measureState == MeasureError
         || measureState == MeasureCancel || measureState == MeasureNotStarted {
        e := C.InvalidState;
      }
      cancelRequest := true;
    }

    /**
     * The filter loop and the final state of `_CmdCapturingSequence`
     * (lines 205-387): `outcome[i]` is what `_Capturing` returns for the
     * i-th filter. The filters are captured in order while every capture
     * succeeds and no cancel is seen; the result is the last capture's.
     */
    method CaptureSequence(outcome: seq<C.Error>, cancelAfter: int) returns (e: C.Error, captured: seq<T.Filter>)
      requires |outcome| == |SequenceFilters| && 0 <= cancelAfter
      modifies this
      ensures var k := StepsRun(outcome, cancelAfter, 0);
        && captured == SequenceFilters[..k]
        && e == LastOutcome(outcome, k)
        && cancelRequest == (k >= cancelAfter)
        && sequenceState == FinalState(cancelRequest, e)
        && nbSteps == |SequenceFilters|
        && (k > 0 ==> currentSteps == k && currentFilter == SequenceFilters[k - 1])
        && (k == 0 ==> currentSteps == old(currentSteps) && currentFilter == old(currentFilter))
      ensures buffers == old(buffers) && measureState == old(measureState)
      ensures processUseRoi == old(processUseRoi) && workerUseRoi == old(workerUseRoi)
    {
      nbSteps := |SequenceFilters|;
      var steps, filter, cancel;
      e, captured, steps, filter, cancel := RunSteps(outcome, cancelAfter);
      if steps > 0 {
        currentSteps, currentFilter := steps, filter;
      }
      cancelRequest := cancel;
      sequenceState := FinalState(cancelRequest, e);
    }

    /**
     * `_CmdCapturingSequenceEmulate` (lines 389-554): each filter's capture is
     * read from its file (`capture`, with `readOk` whether the read and its
     * conversion factor succeeded; a filter without a file fails), then, when
     * all went well, every buffer is cropped to the library's ROI, which must
     * lie within the captured one; when it does not, the buffers hold the
     * captures as read. The ROI is switched off afterwards in any case.
     */
    method CaptureSequenceEmulate(files: set<T.Filter>, readOk: seq<bool>, capture: map<T.Filter, seq<int>>,
                                  cancelAfter: int, roi: Roi, capturedRoi: Roi) returns (e: C.Error, reversed: bool)
      requires |readOk| == |SequenceFilters| && 0 <= cancelAfter
      requires forall f :: f in SequenceFilters ==> f in capture && |capture[f]| >= Width(capturedRoi) * Height(capturedRoi)
      modifies this
      ensures !processUseRoi && !workerUseRoi
      ensures e == C.InvalidParameter <==> EmulatedReadsOk(files, readOk, cancelAfter) && !RoiInside(roi, capturedRoi)
      ensures e == C.Ok <==> EmulatedReadsOk(files, readOk, cancelAfter) && RoiInside(roi, capturedRoi)
      ensures reversed <==> EmulatedReadsOk(files, readOk, cancelAfter) && RoiInside(roi, capturedRoi) && !Ordered(roi)
      ensures e == C.Ok && !reversed ==> buffers == CropAllSpec(capture, roi, capturedRoi)
      ensures e == C.InvalidParameter ==> buffers == map f | f in SequenceFilters :: capture[f]
      ensures (e != C.Ok && e != C.InvalidParameter) || reversed ==> buffers == old(buffers)
      ensures sequenceState == FinalState(cancelRequest, e)
      ensures var k := StepsRun(EmulatedOutcome(files, readOk), cancelAfter, 0);
        && cancelRequest == (k >= cancelAfter)
        && nbSteps == |SequenceFilters|
        && (k > 0 ==> currentSteps == k && currentFilter == SequenceFilters[k - 1])
        && (k == 0 ==> currentSteps == old(currentSteps) && currentFilter == old(currentFilter))
      ensures measureState == old(measureState)
    {
      var outcome := EmulatedOutcome(files, readOk);
      var captured: seq<T.Filter>;
      e, captured := CaptureSequence(outcome, cancelAfter);
      reversed := false;
      if e == C.Ok {
        e, reversed := StoreCaptured(capture, roi, capturedRoi);
      }
      processUseRoi, workerUseRoi := false, false;
      sequenceState := FinalState(cancelRequest, e);
    }

    /**
     * The emulated sequence's last step (lines 446-510): the captured
     * buffers, cropped when the ROI passes the test of lines 454-457. A
     * reversed ROI passes that test, so the result is `Ok`; the model
     * reports it as `reversed` and leaves the buffers as they were.
     */
    method StoreCaptured(capture: map<T.Filter, seq<int>>, roi: Roi, capturedRoi: Roi) returns (e: C.Error, reversed: bool)
      requires forall f :: f in SequenceFilters ==> f in capture && |capture[f]| >= Width(capturedRoi) * Height(capturedRoi)
      modifies this`buffers
      ensures e == (if RoiInside(roi, capturedRoi) then C.Ok else C.InvalidParameter)
      ensures reversed <==> RoiInside(roi, capturedRoi) && !Ordered(roi)
      ensures buffers == if RoiAccepted(roi, capturedRoi) then CropAllSpec(capture, roi, capturedRoi)
                         else if reversed then old(buffers)
                         else map f | f in SequenceFilters :: capture[f]
    {
      reversed := false;
      if RoiInside(roi, capturedRoi) {
        e := C.Ok;
        if Ordered(roi) {
          buffers := CropAll(capture, roi, capturedRoi);
        } else {
          reversed := true;
        }
      } else {
        buffers := map f | f in SequenceFilters :: capture[f];
        e := C.InvalidParameter;
      }
    }
  }

  /** The buffers after the crop: every filter's capture cropped to `roi`. */
  function CropAllSpec(capture: map<T.Filter, seq<int>>, roi: Roi, capturedRoi: Roi): (buffers: map<T.Filter, seq<int>>)
    requires RoiAccepted(roi, capturedRoi)
    requires forall f :: f in SequenceFilters ==> f in capture && |capture[f]| >= Width(capturedRoi) * Height(capturedRoi)
    ensures buffers.Keys == set f | f in SequenceFilters
    ensures forall f :: f in buffers ==> |buffers[f]| == Width(roi) * Height(roi)
  {
    map f | f in SequenceFilters :: Cropped(capture[f], roi, capturedRoi, Height(roi))
  }

  /** The crop loop over the filters (lines 462-506). */
  method CropAll(capture: map<T.Filter, seq<int>>, roi: Roi, capturedRoi: Roi) returns (buffers: map<T.Filter, seq<int>>)
    requires RoiAccepted(roi, capturedRoi)
    requires forall f :: f in SequenceFilters ==> f in capture && |capture[f]| >= Width(capturedRoi) * Height(capturedRoi)
    ensures buffers == CropAllSpec(capture, roi, capturedRoi)
  {
    buffers := map[];
    var index := 0;
    while index < |SequenceFilters|
      invariant 0 <= index <= |SequenceFilters|
      invariant forall f :: f in buffers <==> f in SequenceFilters[..index]
      invariant forall f :: f in buffers ==> f in capture && buffers[f] == Cropped(capture[f], roi, capturedRoi, Height(roi))
    {
      var f := SequenceFilters[index];
      var crop := CropBuffer(capture[f], roi, capturedRoi);
      assert SequenceFilters[..index + 1] == SequenceFilters[..index] + [f];
      buffers := buffers[f := crop];
      index := index + 1;
    }
    assert SequenceFilters[..index] == SequenceFilters;
  }

  /** What `_ReadCapture` gives for each filter of the sequence: `Ok` or `Failed`; a missing file fails. */
  function EmulatedOutcome(files: set<T.Filter>, readOk: seq<bool>): (outcome: seq<C.Error>)
    requires |readOk| == |SequenceFilters|
    ensures |outcome| == |SequenceFilters|
    ensures forall i :: 0 <= i < |outcome| ==> (outcome[i] == C.Ok <==> SequenceFilters[i] in files && readOk[i])
    ensures forall i :: 0 <= i < |outcome| ==> outcome[i] == C.Ok || outcome[i] == C.Failed
  {
    seq(|SequenceFilters|, i requires 0 <= i < |SequenceFilters| => if SequenceFilters[i] in files && readOk[i] then C.Ok else C.Failed)
  }

  /** The reads of the steps run all succeeded, so the crop is attempted (even when a cancel stopped the loop). */
  predicate EmulatedReadsOk(files: set<T.Filter>, readOk: seq<bool>, cancelAfter: int)
    requires |readOk| == |SequenceFilters|
  {
    var outcome := EmulatedOutcome(files, readOk);
    LastOutcome(outcome, StepsRun(outcome, cancelAfter, 0)) == C.Ok
  }
}
