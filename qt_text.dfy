/*
 * The QString operations the Conoscope library relies on, on `seq<char>`:
 * searching for a character and replacing every occurrence of a pattern.
 */
module QtText {
  import C = Common

  /** `QString::indexOf` of a character: its first position, or -1. */
  function IndexOf(s: string, c: char): (i: int)
    ensures -1 <= i < |s|
    ensures i == -1 <==> c !in s
    ensures i >= 0 ==> s[i] == c && c !in s[..i]
  {
    if |s| == 0 then -1
    else if s[0] == c then 0
    else
      var j := IndexOf(s[1..], c);
      assert s[1..][..if j < 0 then 0 else j] == s[1..if j < 0 then 1 else j + 1];
      if j == -1 then -1 else j + 1
  }

  /** `QString::replace(before, after)`: every non-overlapping occurrence, scanning left to right. */
  function ReplaceAll(s: string, before: string, after: string): string
    requires |before| > 0
    decreases |s|
  {
    if |s| < |before| then s
    else if s[..|before|] == before then after + ReplaceAll(s[|before|..], before, after)
    else [s[0]] + ReplaceAll(s[1..], before, after)
  }

  /** Without an occurrence of the pattern nothing changes. */
  lemma {:induction false} ReplaceAbsent(s: string, before: string, after: string)
    requires |before| > 0 && !C.Contains(s, before)
    ensures ReplaceAll(s, before, after) == s
    decreases |s|
  {
    if |s| >= |before| {
      ReplaceAbsent(s[1..], before, after);
    }
  }

  /** A replacement no longer than the pattern never lengthens the text, and shortens it when the pattern occurs. */
  lemma {:induction false} ReplaceShortens(s: string, before: string, after: string)
    requires |before| > 0 && |after| <= |before|
    ensures |ReplaceAll(s, before, after)| <= |s|
    ensures |after| < |before| && C.Contains(s, before) ==> |ReplaceAll(s, before, after)| < |s|
    decreases |s|
  {
    if |s| >= |before| {
      if s[..|before|] == before {
        ReplaceShortens(s[|before|..], before, after);
      } else {
        ReplaceShortens(s[1..], before, after);
      }
    }
  }

  /** Every character of the result comes from the text or from the replacement. */
  lemma {:induction false} ReplaceChars(s: string, before: string, after: string)
    requires |before| > 0
    ensures forall x :: x in ReplaceAll(s, before, after) ==> x in s || x in after
    decreases |s|
  {
    if |s| >= |before| {
      if s[..|before|] == before {
        ReplaceChars(s[|before|..], before, after);
        forall x | x in s[|before|..] ensures x in s {
          var k :| 0 <= k < |s[|before|..]| && s[|before|..][k] == x;
          assert s[|before| + k] == x;
        }
      } else {
        ReplaceChars(s[1..], before, after);
        forall x | x in s[1..] ensures x in s {
          var k :| 0 <= k < |s[1..]| && s[1..][k] == x;
          assert s[1 + k] == x;
        }
      }
    }
  }

  /** Replacing a character by nothing removes every occurrence of it. */
  lemma {:induction false} RemoveChar(s: string, c: char)
    ensures c !in ReplaceAll(s, [c], "")
    decreases |s|
  {
    if |s| >= 1 {
      RemoveChar(s[1..], c);
      if s[..1] != [c] {
        assert s[0] != c;
      }
    }
  }

  /** A one-character pattern occurs exactly when the character does. */
  lemma {:induction false} ContainsChar(s: string, c: char)
    ensures C.Contains(s, [c]) <==> c in s
    decreases |s|
  {
    if |s| >= 1 {
      ContainsChar(s[1..], c);
      assert s == [s[0]] + s[1..];
    }
  }

  /** `QString::indexOf(c, from)`: the first position at or after `from`, or -1. */
  function IndexFrom(s: string, c: char, from: int): (i: int)
    requires 0 <= from <= |s|
    ensures i == -1 <==> c !in s[from..]
    ensures i != -1 ==> from <= i < |s| && s[i] == c
  {
    var j := IndexOf(s[from..], c);
    if j == -1 then -1 else from + j
  }

  /** The number of times `c` occurs in `s`. */
  function Occurrences(s: string, c: char): nat
  {
    if |s| == 0 then 0 else (if s[0] == c then 1 else 0) + Occurrences(s[1..], c)
  }

  /**
   * `QString::split(c)` with empty parts kept: the pieces between the
   * occurrences of `c`. Even the empty string gives one (empty) piece.
   */
  function Split(s: string, c: char): (parts: seq<string>)
    ensures |parts| == Occurrences(s, c) + 1
    ensures forall i :: 0 <= i < |parts| ==> c !in parts[i]
    decreases |s|
  {
    if |s| == 0 then [""]
    else
      var rest := Split(s[1..], c);
      if s[0] == c then [""] + rest else [[s[0]] + rest[0]] + rest[1..]
  }

  /** `QStringList::join(c)`. */
  function Join(parts: seq<string>, c: char): string
    requires |parts| > 0
    decreases |parts|
  {
    if |parts| == 1 then parts[0] else parts[0] + [c] + Join(parts[1..], c)
  }

  /** Joining the pieces with the separator gives the string back. */
  lemma {:induction false} JoinSplit(s: string, c: char)
    ensures Join(Split(s, c), c) == s
    decreases |s|
  {
    if |s| > 0 {
      var rest := Split(s[1..], c);
      JoinSplit(s[1..], c);
      if s[0] == c {
        assert Split(s, c)[1..] == rest;
      } else if |rest| > 1 {
        assert Split(s, c)[1..] == rest[1..];
        assert Join(rest, c) == rest[0] + [c] + Join(rest[1..], c);
      }
      assert s == [s[0]] + s[1..];
    }
  }

  /** Without the separator the whole string is the only piece. */
  lemma {:induction false} SplitAbsent(s: string, c: char)
    requires c !in s
    ensures Split(s, c) == [s]
    decreases |s|
  {
    if |s| > 0 {
      assert c !in s[1..];
      SplitAbsent(s[1..], c);
      assert s == [s[0]] + s[1..];
    }
  }
}
