/** `lpad` and `rpad` on `String`: pad to a minimum length with a repeated
    character. */
module StringExtensions {

  /** `String(repeating:count:)`. */
  function Repeat(pad: char, count: nat): (r: string)
    ensures |r| == count
    ensures forall i :: 0 <= i < count ==> r[i] == pad
  {
    if count == 0 then [] else Repeat(pad, count - 1) + [pad]
  }

  /** `lpad(_:_:)`: pads on the left up to `length`; a string already that
      long is returned as it is. */
  function LPad(s: string, length: int, pad: char := ' '): (r: string)
    ensures |s| >= length ==> r == s
    ensures |r| == if |s| < length then length else |s|
    ensures r[|r| - |s|..] == s
    ensures forall i :: 0 <= i < |r| - |s| ==> r[i] == pad
  {
    if |s| < length then Repeat(pad, length - |s|) + s else s
  }

  /** `rpad(_:_:)`: pads on the right up to `length`. */
  function RPad(s: string, length: int, pad: char := ' '): (r: string)
    ensures |s| >= length ==> r == s
    ensures |r| == if |s| < length then length else |s|
    ensures r[..|s|] == s
    ensures forall i :: |s| <= i < |r| ==> r[i] == pad
  {
    if |s| < length then s + Repeat(pad, length - |s|) else s
  }

  // ---------------------------------------------------------------------------
  // Properties

  /** Padding again to the same length changes nothing. */
  lemma PadIdempotent(s: string, length: int, pad: char)
    ensures LPad(LPad(s, length, pad), length, pad) == LPad(s, length, pad)
    ensures RPad(RPad(s, length, pad), length, pad) == RPad(s, length, pad)
  {
  }

  /** Left padding is right padding read backwards. */
  lemma {:induction false} LPadMirrorsRPad(s: string, length: int, pad: char)
    ensures LPad(s, length, pad) == Reverse(RPad(Reverse(s), length, pad))
  {
    ReverseLength(s);
    if |s| < length {
      var p := Repeat(pad, length - |s|);
      ReverseAppend(Reverse(s), p);
      ReverseInvolution(s);
      ReverseRepeat(pad, length - |s|);
    } else {
      ReverseInvolution(s);
    }
  }

  function Reverse(s: string): string {
    if s == [] then [] else Reverse(s[1..]) + [s[0]]
  }

  lemma {:induction false} ReverseLength(s: string)
    ensures |Reverse(s)| == |s|
  {
    if s != [] { ReverseLength(s[1..]); }
  }

  lemma {:induction false} ReverseAppend(a: string, b: string)
    ensures Reverse(a + b) == Reverse(b) + Reverse(a)
  {
    if a == [] {
      assert a + b == b;
    } else {
      assert (a + b)[1..] == a[1..] + b;
      ReverseAppend(a[1..], b);
    }
  }

  lemma {:induction false} ReverseInvolution(s: string)
    ensures Reverse(Reverse(s)) == s
  {
    if s != [] {
      ReverseInvolution(s[1..]);
      ReverseAppend(Reverse(s[1..]), [s[0]]);
      assert Reverse([s[0]]) == [s[0]];
    }
  }

  lemma ReverseRepeat(pad: char, count: nat)
    ensures Reverse(Repeat(pad, count)) == Repeat(pad, count)
  {
    ReverseLength(Repeat(pad, count));
    forall i | 0 <= i < count ensures Reverse(Repeat(pad, count))[i] == pad {
      ReverseIndex(Repeat(pad, count), i);
    }
  }

  lemma {:induction false} ReverseIndex(s: string, i: int)
    requires 0 <= i < |s|
    ensures |Reverse(s)| == |s| && Reverse(s)[i] == s[|s| - 1 - i]
  {
    ReverseLength(s);
    ReverseLength(s[1..]);
    if i < |s| - 1 {
      ReverseIndex(s[1..], i);
    }
  }
}
