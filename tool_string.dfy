/*
 * ToolsString (ConoscopeLib/Tools/toolString.cpp): the fixed-width text
 * helpers of the log. A row is a header padded or cut to 30 characters,
 * then ": ", then the message.
 */
module ToolString {

  /** `ROW_LENGTH` and `ROW_SEPARATOR`. */
  const RowLength := 30
  const RowSeparator := ": "

  /** `QString(n, ' ')`: `n` spaces, none for a negative `n`. */
  function Spaces(n: int): (s: string)
    ensures |s| == if n < 0 then 0 else n
    ensures forall i :: 0 <= i < |s| ==> s[i] == ' '
    decreases n
  {
    if n <= 0 then "" else Spaces(n - 1) + " "
  }

  /** `QString::truncate`: the first `n` characters; nothing for a negative `n`. */
  function Truncate(s: string, n: int): (r: string)
    ensures |r| == if n < 0 then 0 else if n < |s| then n else |s|
    ensures r <= s
  {
    if n < 0 then "" else if n < |s| then s[..n] else s
  }

  /**
   * `FixedLength` (lines 15-23): the input followed by `length` spaces, cut
   * to `length` characters.
   */
  function FixedLength(input: string, length: int): (r: string)
    ensures |r| == if length < 0 then 0 else length
    ensures forall i :: 0 <= i < |r| ==> r[i] == if i < |input| then input[i] else ' '
  {
    Truncate(input + Spaces(length), length)
  }

  /** `FormatText` (lines 3-13): the header fitted to 30 characters, ": ", then the input. */
  function FormatText(header: string, input: string): (r: string)
    ensures |r| == RowLength + |RowSeparator| + |input|
    ensures forall i :: 0 <= i < RowLength ==> r[i] == if i < |header| then header[i] else ' '
    ensures r[RowLength..RowLength + |RowSeparator|] == RowSeparator
    ensures r[RowLength + |RowSeparator|..] == input
  {
    Truncate(header + Spaces(RowLength), RowLength) + RowSeparator + input
  }

  /** A header that fits starts the row, and a longer one is cut to its first 30 characters. */
  lemma FormatTextHeader(header: string, input: string)
    ensures |header| <= RowLength ==> header <= FormatText(header, input)
    ensures |header| >= RowLength ==> FormatText(header, input)[..RowLength] == header[..RowLength]
  {
    var r := FormatText(header, input);
    if |header| <= RowLength {
      assert forall i :: 0 <= i < |header| ==> r[i] == header[i];
    } else {
      assert forall i :: 0 <= i < RowLength ==> r[i] == header[i];
    }
  }

  /** A fitted text of the exact length is left as it is. */
  lemma FixedLengthExact(input: string)
    ensures FixedLength(input, |input|) == input
  {
  }

  /** Fitting twice to the same length is fitting once. */
  lemma FixedLengthIdempotent(input: string, length: int)
    ensures FixedLength(FixedLength(input, length), length) == FixedLength(input, length)
  {
  }

  /** A longer input is cut to its prefix, a shorter one keeps all of itself, then spaces. */
  lemma FixedLengthPrefix(input: string, length: int)
    requires 0 <= length
    ensures length <= |input| ==> FixedLength(input, length) == input[..length]
    ensures |input| < length ==> FixedLength(input, length) == input + Spaces(length - |input|)
  {
  }
}
