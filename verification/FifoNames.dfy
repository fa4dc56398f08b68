/** The names of the user pipes' FIFO files: the two ids are written side by side, so two
    pairs of clients can share a file. */
module FifoNames {
  import opened Text
  import opened CommandTable

  /** The number c begins with the digits of a, and the digits that are left over stand at
      the front of b, before those of d. */
  ghost predicate Shifted(a: nat, b: nat, c: nat, d: nat) {
    exists x: string :: x != [] && Decimal(c) == Decimal(a) + x && Decimal(b) == x + Decimal(d)
  }

  ghost predicate SameFile(a: nat, b: nat, c: nat, d: nat) {
    (a == c && b == d) || Shifted(a, b, c, d) || Shifted(c, d, a, b)
  }

  lemma {:induction false} DecimalApart(a: nat, c: nat)
    ensures Decimal(a) == Decimal(c) <==> a == c
  {
    ValueDecimal(a);
    ValueDecimal(c);
  }

  /** The shorter sender is the front of the longer one. */
  lemma {:induction false} ShiftedIff(a: nat, b: nat, c: nat, d: nat)
    requires |Decimal(a)| < |Decimal(c)|
    ensures Decimal(a) + Decimal(b) == Decimal(c) + Decimal(d) <==> Shifted(a, b, c, d)
  {
    var p, q, r, s := Decimal(a), Decimal(b), Decimal(c), Decimal(d);
    if p + q == r + s {
      var x := r[|p|..];
      assert p == (p + q)[..|p|] == (r + s)[..|p|] == r[..|p|];
      assert r == p + x;
      assert q == (p + q)[|p|..] == (r + s)[|p|..] == x + s;
    }
    if Shifted(a, b, c, d) {
      var x: string :| x != [] && r == p + x && q == x + s;
      assert p + (x + s) == (p + x) + s;
    }
  }

  /** Two pairs have the same FIFO exactly when they are the same pair or the digits shift. */
  lemma {:induction false} NamesIff(a: nat, b: nat, c: nat, d: nat)
    ensures FifoName(a, b) == FifoName(c, d) <==> SameFile(a, b, c, d)
  {
    hide Decimal, Shifted;
    var front, p, q, r, s := "./user_pipe/userpipe", Decimal(a), Decimal(b), Decimal(c), Decimal(d);
    assert FifoName(a, b) == front + (p + q) && FifoName(c, d) == front + (r + s);
    assert (front + (p + q))[|front|..] == p + q && (front + (r + s))[|front|..] == r + s;
    DecimalApart(a, c);
    DecimalApart(b, d);
    if |p| < |r| {
      ShiftedIff(a, b, c, d);
      ShiftsForward(c, d, a, b);
    } else if |r| < |p| {
      ShiftedIff(c, d, a, b);
      ShiftsForward(a, b, c, d);
    } else {
      assert p + q == r + s ==> p == (p + q)[..|p|] == (r + s)[..|p|] == r && q == (p + q)[|p|..] == (r + s)[|p|..] == s;
      ShiftsForward(a, b, c, d);
      ShiftsForward(c, d, a, b);
    }
  }

  lemma {:induction false} ShiftsForward(a: nat, b: nat, c: nat, d: nat)
    ensures Shifted(a, b, c, d) ==> |Decimal(a)| < |Decimal(c)|
  {
  }

  /** Senders whose ids have equally many digits never share a file with different pairs. */
  lemma {:induction false} NamesApart(a: nat, b: nat, c: nat, d: nat)
    requires |Decimal(a)| == |Decimal(c)|
    ensures FifoName(a, b) == FifoName(c, d) <==> a == c && b == d
  {
    NamesIff(a, b, c, d);
    ShiftsForward(a, b, c, d);
    ShiftsForward(c, d, a, b);
  }

  /** The pipe from 1 to 12 and the pipe from 11 to 2 are one file. */
  lemma {:induction false} NamesClash()
    ensures FifoName(1, 12) == FifoName(11, 2) == "./user_pipe/userpipe112"
  {
    assert Decimal(1) == "1" && Decimal(2) == "2" && Decimal(12) == "12" && Decimal(11) == "11";
  }
}
