/**
 * Segments, the unit that endpoints exchange through the simulated network,
 * and the string conventions the endpoints and the base classes rely on.
 */
module Segments {

  /** Routing target of a segment (the source's strings 'sender' and 'receiver'). */
  datatype Dest = ToSender | ToReceiver

  /**
   * A segment: its message, its destination and its alternating bit.
   * The alternating-bit sender re-sends the very segment object it stored.
   * Here segments are values, which agrees with that only as long as nothing
   * changes a segment after it has been sent.
   */
  datatype Segment = Segment(msg: string, dst: Dest, altBit: bool)

  /** Message of a pure acknowledgement. */
  const ACK: string := "<ACK>"
  /** Marker the network puts into a segment it corrupts. */
  const CORRUPTED: string := "<CORRUPTED>"
  /** What a receiver reports for a tick in which nothing reached its application. */
  const NOTHING: string := "<NOTHING>"

  /** `pat` occurs in `s` starting at index `i`. */
  predicate OccursAt(s: string, pat: string, i: int) {
    0 <= i && i + |pat| <= |s| && s[i..i + |pat|] == pat
  }

  /** Python's `pat in s` on strings: `pat` occurs in `s` as a contiguous substring. */
  predicate Contains(s: string, pat: string) {
    exists i | 0 <= i <= |s| :: OccursAt(s, pat, i)
  }

  /** A segment's message is corrupted when it contains the marker. */
  predicate IsCorrupted(msg: string): (r: bool)
    ensures r ==> |msg| >= |CORRUPTED|
  {
    Contains(msg, CORRUPTED)
  }

  /** What a corrupting network produces: the marker anywhere in the original text. */
  lemma MarkedIsCorrupted(prefix: string, suffix: string)
    ensures IsCorrupted(prefix + CORRUPTED + suffix)
  {
    var s := prefix + CORRUPTED + suffix;
    assert s[|prefix|..|prefix| + |CORRUPTED|] == CORRUPTED;
    assert OccursAt(s, CORRUPTED, |prefix|);
  }

  /** Every corrupted message is of the form a corrupting network produces. */
  lemma CorruptedIsMarked(msg: string) returns (prefix: string, suffix: string)
    requires IsCorrupted(msg)
    ensures msg == prefix + CORRUPTED + suffix
  {
    var i :| 0 <= i <= |msg| && OccursAt(msg, CORRUPTED, i);
    prefix, suffix := msg[..i], msg[i + |CORRUPTED|..];
    assert msg == msg[..i] + msg[i..i + |CORRUPTED|] + msg[i + |CORRUPTED|..];
  }

  /** A string without '<' cannot contain the marker, which starts with '<'. */
  lemma NoOpenBracketNotCorrupted(s: string)
    requires forall k :: 0 <= k < |s| ==> s[k] != '<'
    ensures !IsCorrupted(s)
  {
    forall i | 0 <= i <= |s| ensures !OccursAt(s, CORRUPTED, i) {
      if i + |CORRUPTED| <= |s| {
        assert s[i..i + |CORRUPTED|][0] == s[i];
      }
    }
  }

  /** Acknowledgements are never corrupted by the endpoints themselves. */
  lemma AckNotCorrupted()
    ensures !IsCorrupted(ACK)
  {
    forall i | 0 <= i <= |ACK| ensures !OccursAt(ACK, CORRUPTED, i) {
    }
  }

  predicate IsDigit(c: char) {
    '0' <= c <= '9'
  }

  function DigitChar(d: nat): (c: char)
    requires d < 10
    ensures IsDigit(c) && c as int - '0' as int == d
  {
    ('0' as int + d) as char
  }

  /** Decimal notation of a natural number, as Python's `str.format` writes it. */
  function Decimal(n: nat): (s: string)
    ensures |s| >= 1
    ensures forall k :: 0 <= k < |s| ==> IsDigit(s[k])
    decreases n
  {
    if n < 10 then [DigitChar(n)] else Decimal(n / 10) + [DigitChar(n % 10)]
  }

  /** The value of a string of decimal digits (the inverse of Decimal). */
  function ParseDecimal(s: string): int
    requires forall k :: 0 <= k < |s| ==> IsDigit(s[k])
  {
    if |s| == 0 then 0
    else ParseDecimal(s[..|s| - 1]) * 10 + (s[|s| - 1] as int - '0' as int)
  }

  lemma {:induction false} DecimalRoundTrip(n: nat)
    ensures ParseDecimal(Decimal(n)) == n
    decreases n
  {
    var s := Decimal(n);
    if n < 10 {
      assert s[..|s| - 1] == [];
    } else {
      assert s[..|s| - 1] == Decimal(n / 10);
      DecimalRoundTrip(n / 10);
    }
  }

  /** The message the application layer generates for its n-th message ('message n'). */
  function MessageText(n: nat): (s: string)
    ensures |s| > 8 && s[..8] == "message "
    ensures forall k :: 8 <= k < |s| ==> IsDigit(s[k])
  {
    "message " + Decimal(n)
  }

  /** Distinct message numbers give distinct message texts. */
  lemma MessageTextInjective(a: nat, b: nat)
    ensures MessageText(a) == MessageText(b) <==> a == b
  {
    if MessageText(a) == MessageText(b) {
      assert Decimal(a) == MessageText(a)[8..];
      assert Decimal(b) == MessageText(b)[8..];
      DecimalRoundTrip(a);
      DecimalRoundTrip(b);
    }
  }

  /** A generated application message never looks corrupted. */
  lemma MessageTextNotCorrupted(n: nat)
    ensures !IsCorrupted(MessageText(n))
  {
    var s := MessageText(n);
    forall k | 0 <= k < |s| ensures s[k] != '<' {
      if k >= 8 {
        assert s[k] == Decimal(n)[k - 8];
      }
    }
    NoOpenBracketNotCorrupted(s);
  }

  /** The special message the application layer sends for a TCP status ('<status>'). */
  function StatusText(status: string): (s: string)
    ensures |s| == |status| + 2 && s[0] == '<' && s[|s| - 1] == '>' && s[1..|s| - 1] == status
    ensures forall n: nat :: s != MessageText(n)
  {
    "<" + status + ">"
  }
}
