/*
 * FrameBuffer (ConoscopeDemo/Stream/FrameBuffer.cpp): one slot between the
 * capture and the display. `Fill` takes a signed 16-bit frame only while
 * the slot is free, clamps it in place to the white level and keeps an
 * unsigned copy; `Release` frees the slot again.
 */
module DemoFrameBuffer {

  /** An `int16_t`. */
  type Int16 = x: int | -0x8000 <= x < 0x8000

  /** The conversion of an `int` to `int16_t`: the value modulo 2^16, read as signed. */
  function ToInt16(v: int): (r: Int16)
    ensures (r - v) % 0x1_0000 == 0
    ensures -0x8000 <= v < 0x8000 ==> r == v
  {
    var low := v % 0x1_0000;
    if low < 0x8000 then low else low - 0x1_0000
  }

  /** `memcpy` of an `int16_t` into a `uint16_t`: the same bits read as unsigned. */
  function ToUint16(v: Int16): (r: int)
    ensures 0 <= r < 0x1_0000 && (r - v) % 0x1_0000 == 0
    ensures 0 <= v ==> r == v
  {
    if v < 0 then v + 0x1_0000 else v
  }

  /** The clamp of lines 27-34: negatives become 0, values above the white level become it. */
  function Clamped(v: Int16, whiteLevel: int): (r: Int16)
    ensures 0 <= whiteLevel ==> 0 <= r <= whiteLevel
    ensures 0 <= v <= whiteLevel ==> r == v
    ensures r != v ==> (v < 0 && r == 0) || (v > whiteLevel && r == ToInt16(whiteLevel))
  {
    if v < 0 then 0 else if v > whiteLevel then ToInt16(whiteLevel) else v
  }

  /** Clamping twice changes nothing more. */
  lemma ClampedIdempotent(v: Int16, whiteLevel: int)
    requires 0 <= whiteLevel
    ensures Clamped(Clamped(v, whiteLevel), whiteLevel) == Clamped(v, whiteLevel)
  {
  }

  /** With a white level in range, the unsigned copy of a clamped pixel is the clamped value. */
  lemma CopyWithinWhiteLevel(v: Int16, whiteLevel: int)
    requires 0 <= whiteLevel
    ensures 0 <= ToUint16(Clamped(v, whiteLevel)) <= whiteLevel
    ensures 0 <= v <= whiteLevel ==> ToUint16(Clamped(v, whiteLevel)) == v
  {
  }

  /** `FrameBuffer::State`. */
  datatype State = Free | Filling | ReadyToDisplay | Displaying

  class FrameBuffer {
    var state: State
    var data: seq<int>

    constructor ()
      ensures state == Free && data == []
    {
      state := Free;
      data := [];
    }

    /**
     * `Fill` (lines 12-41): a busy slot ignores the frame; a free one clamps
     * the caller's frame in place, copies it and becomes ready to display.
     */
    method Fill(frame: array<Int16>, whiteLevel: int)
      modifies this, frame
      ensures old(state) != Free ==> state == old(state) && data == old(data) && frame[..] == old(frame[..])
      ensures old(state) == Free ==> state == ReadyToDisplay && |data| == frame.Length
      ensures old(state) == Free ==> forall i :: 0 <= i < frame.Length ==> frame[i] == Clamped(old(frame[i]), whiteLevel)
      ensures old(state) == Free ==> forall i :: 0 <= i < frame.Length ==> data[i] == ToUint16(frame[i])
    {
      if state == Free {
        state := Filling;
        var index := 0;
        while index < frame.Length
          invariant 0 <= index <= frame.Length
          invariant forall i :: 0 <= i < index ==> frame[i] == Clamped(old(frame[i]), whiteLevel)
          invariant forall i :: index <= i < frame.Length ==> frame[i] == old(frame[i])
        {
          if frame[index] < 0 {
            frame[index] := 0;
          } else if frame[index] > whiteLevel {
            frame[index] := ToInt16(whiteLevel);
          }
          index := index + 1;
        }
        var copy: seq<int> := [];
        index := 0;
        while index < frame.Length
          invariant 0 <= index <= frame.Length && |copy| == index
          invariant forall i :: 0 <= i < index ==> copy[i] == ToUint16(frame[i])
        {
          copy := copy + [ToUint16(frame[index])];
          index := index + 1;
        }
        data := copy;
        state := ReadyToDisplay;
      }
    }

    /** `Release` (lines 43-46): the slot is free again; the data stays. */
    method Release()
      modifies this
      ensures state == Free && data == old(data)
    {
      state := Free;
    }
  }

  /** After a fill of a free slot with a white level in range, every stored pixel lies in [0, whiteLevel]. */
  lemma FilledDataWithinWhiteLevel(frame: seq<Int16>, whiteLevel: int, data: seq<int>)
    requires 0 <= whiteLevel && |data| == |frame|
    requires forall i :: 0 <= i < |frame| ==> data[i] == ToUint16(Clamped(frame[i], whiteLevel))
    ensures forall i :: 0 <= i < |data| ==> 0 <= data[i] <= whiteLevel
  {
    forall i | 0 <= i < |data|
      ensures 0 <= data[i] <= whiteLevel
    {
      CopyWithinWhiteLevel(frame[i], whiteLevel);
    }
  }
}
