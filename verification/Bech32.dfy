/**
 Checksum registers that are linear over exclusive-or: a step shifts the register, adds the next
 symbol and adds a generator for every bit shifted out. What follows holds for any such code.
 */
module LinearChecksum {

  datatype Code<!V(!new)> = Code(
    xor: (V, V) -> V,
    zero: V,
    shift: V -> V,          // the register moved up, without what falls out
    out: (V, nat) -> bool,  // the bits that fall out
    gens: seq<V>,
    room: (V, nat) -> bool, // the register could hold this after n symbols into an empty one
    symbol: V -> bool)
  {
    /** `base` with the first `n` generators that apply added. */
    function Feedback(base: V, chk: V, n: nat): V
      requires n <= |gens|
    {
      if n == 0 then base
      else if out(chk, n - 1) then xor(Feedback(base, chk, n - 1), gens[n - 1])
      else Feedback(base, chk, n - 1)
    }

    function Step(chk: V, v: V): V {
      Feedback(xor(shift(chk), v), chk, |gens|)
    }

    function Polymod(chk: V, values: seq<V>): V
      decreases |values|
    {
      if values == [] then chk else Polymod(Step(chk, values[0]), values[1..])
    }

    ghost predicate Associates(a: V, b: V, c: V) {
      xor(xor(a, b), c) == xor(a, xor(b, c))
    }

    ghost predicate Commutes(a: V, b: V) {
      xor(a, b) == xor(b, a)
    }

    ghost predicate Cancels(a: V, b: V) {
      && xor(a, a) == zero
      && xor(a, zero) == a
      && xor(zero, a) == a
      && (xor(a, b) == zero <==> a == b)
    }

    ghost predicate Splits(a: V, b: V) {
      && shift(xor(a, b)) == xor(shift(a), shift(b))
      && (forall i :: 0 <= i < |gens| ==> (out(xor(a, b), i) <==> out(a, i) != out(b, i)))
    }

    /** A zero symbol leaves a difference of a full register a difference. */
    ghost predicate Keeps(window: nat, d: V) {
      room(d, window) ==> room(Step(d, zero), window) && (Step(d, zero) == zero <==> d == zero)
    }

    /** A symbol shifted into a register that has room stays visible. */
    ghost predicate Enters(window: nat, d: V, n: nat, v: V) {
      n < window && room(d, n) && symbol(v) ==>
        room(Step(d, v), n + 1) && (Step(d, v) == zero ==> d == zero && v == zero)
    }

    ghost predicate Wider(window: nat, d: V, n: nat) {
      n <= window && room(d, n) ==> room(d, window)
    }

    ghost predicate Symbols(values: seq<V>) {
      forall i :: 0 <= i < |values| ==> symbol(values[i])
    }

    ghost predicate SymbolDifference(a: V, b: V) {
      symbol(a) && symbol(b) ==> symbol(xor(a, b))
    }

    ghost predicate Linear() {
      && (forall a, b, c :: Associates(a, b, c))
      && (forall a, b :: Commutes(a, b))
      && (forall a, b :: Cancels(a, b))
      && (forall a, b :: Splits(a, b))
    }

    /** No difference within `window` symbols gets lost. */
    ghost predicate Detects(window: nat) {
      && Linear()
      && room(zero, 0)
      && (forall d :: Keeps(window, d))
      && (forall d, n, v :: Enters(window, d, n, v))
      && (forall d, n :: Wider(window, d, n))
      && (forall a, b :: SymbolDifference(a, b))
    }

    lemma Pairs(a: V, b: V, c: V, d: V)
      requires Linear()
      ensures xor(xor(a, b), xor(c, d)) == xor(xor(a, c), xor(b, d))
    {
      assert Associates(a, b, xor(c, d)) && Associates(b, c, d) && Commutes(b, c) && Associates(c, b, d);
      assert Associates(a, c, xor(b, d));
    }

    lemma Swaps(a: V, b: V, c: V)
      requires Linear()
      ensures xor(xor(a, c), b) == xor(xor(a, b), c)
    {
      assert Associates(a, c, b) && Commutes(c, b) && Associates(a, b, c);
    }

    lemma {:induction false} FeedbackIsLinear(p: V, q: V, a: V, b: V, n: nat)
      requires Linear() && n <= |gens|
      ensures Feedback(xor(p, q), xor(a, b), n) == xor(Feedback(p, a, n), Feedback(q, b, n))
    {
      if n > 0 {
        FeedbackIsLinear(p, q, a, b, n - 1);
        assert Splits(a, b);
        var f, g, h := Feedback(p, a, n - 1), Feedback(q, b, n - 1), gens[n - 1];
        if out(a, n - 1) && out(b, n - 1) {
          Pairs(f, h, g, h);
          assert Cancels(h, h) && Cancels(xor(f, g), h);
        } else if out(a, n - 1) {
          Swaps(f, g, h);
        } else if out(b, n - 1) {
          Pairs(f, zero, g, h);
          assert Cancels(f, zero) && Cancels(h, zero);
        }
      }
    }

    lemma StepIsLinear(a: V, b: V, u: V, v: V)
      requires Linear()
      ensures Step(xor(a, b), xor(u, v)) == xor(Step(a, u), Step(b, v))
    {
      assert Splits(a, b);
      Pairs(shift(a), shift(b), u, v);
      FeedbackIsLinear(xor(shift(a), u), xor(shift(b), v), a, b, |gens|);
    }

    function Difference(a: seq<V>, b: seq<V>): (x: seq<V>)
      requires |a| == |b|
      ensures |x| == |a|
    {
      seq(|a|, i requires 0 <= i < |a| => xor(a[i], b[i]))
    }

    lemma {:induction false} PolymodIsLinear(c: V, d: V, a: seq<V>, b: seq<V>)
      requires Linear() && |a| == |b|
      ensures Polymod(xor(c, d), Difference(a, b)) == xor(Polymod(c, a), Polymod(d, b))
      decreases |a|
    {
      if a != [] {
        StepIsLinear(c, d, a[0], b[0]);
        PolymodIsLinear(Step(c, a[0]), Step(d, b[0]), a[1..], b[1..]);
        assert Difference(a, b)[1..] == Difference(a[1..], b[1..]);
      }
    }

    lemma {:induction false} PolymodConcat(chk: V, a: seq<V>, b: seq<V>)
      ensures Polymod(chk, a + b) == Polymod(Polymod(chk, a), b)
      decreases |a|
    {
      if a == [] {
        assert a + b == b;
      } else {
        PolymodConcat(Step(chk, a[0]), a[1..], b);
        assert (a + b)[1..] == a[1..] + b;
      }
    }

    /** A register difference survives symbols that do not differ. */
    lemma {:induction false} DifferenceSurvives(window: nat, d: V, z: seq<V>)
      requires Detects(window) && room(d, window) && (forall i :: 0 <= i < |z| ==> z[i] == zero)
      ensures Polymod(d, z) == zero <==> d == zero
      decreases |z|
    {
      if z != [] {
        assert Keeps(window, d);
        DifferenceSurvives(window, Step(d, zero), z[1..]);
      }
    }

    /** Up to `window` differing symbols leave a difference in the register. */
    lemma {:induction false} BurstShows(window: nat, d: V, n: nat, w: seq<V>)
      requires Detects(window) && n + |w| <= window && room(d, n) && Symbols(w)
      ensures room(Polymod(d, w), window)
      ensures Polymod(d, w) == zero ==> d == zero && forall i :: 0 <= i < |w| ==> w[i] == zero
      decreases |w|
    {
      assert Wider(window, d, n);
      if w != [] {
        assert Enters(window, d, n, w[0]);
        BurstShows(window, Step(d, w[0]), n + 1, w[1..]);
        if Polymod(d, w) == zero {
          forall i | 0 <= i < |w|
            ensures w[i] == zero
          {
            assert i > 0 ==> w[i] == w[1..][i - 1];
          }
        }
      }
    }

    /** A difference confined to one window that leaves the empty register empty is none. */
    lemma NoBurstCancels(window: nat, x: seq<V>, lo: nat, hi: nat)
      requires Detects(window) && Symbols(x) && lo <= hi <= |x| && hi - lo <= window
      requires forall i :: 0 <= i < |x| && !(lo <= i < hi) ==> x[i] == zero
      requires Polymod(zero, x) == zero
      ensures forall i :: 0 <= i < |x| ==> x[i] == zero
    {
      var head, burst, tail := x[..lo], x[lo..hi], x[hi..];
      assert x == head + (burst + tail);
      assert Wider(window, zero, 0);
      PolymodConcat(zero, head, burst + tail);
      DifferenceSurvives(window, zero, head);
      PolymodConcat(zero, burst, tail);
      BurstShows(window, zero, 0, burst);
      DifferenceSurvives(window, Polymod(zero, burst), tail);
      forall i | 0 <= i < |x|
        ensures x[i] == zero
      {
        assert lo <= i < hi ==> x[i] == burst[i - lo];
      }
    }

    /** Words with the same checksum that differ in one window only are the same word. */
    lemma SameChecksumSameWord(window: nat, chk: V, a: seq<V>, b: seq<V>, k: nat)
      requires Detects(window) && |a| == |b| && Symbols(a) && Symbols(b)
      requires forall i :: 0 <= i < |a| && !(k <= i < k + window) ==> a[i] == b[i]
      requires Polymod(chk, a) == Polymod(chk, b)
      ensures a == b
    {
      var x := Difference(a, b);
      forall i | 0 <= i < |x|
        ensures symbol(x[i]) && (x[i] == zero <==> a[i] == b[i])
      {
        assert SymbolDifference(a[i], b[i]) && Cancels(a[i], b[i]);
      }
      PolymodIsLinear(chk, chk, a, b);
      assert Cancels(chk, chk) && Cancels(Polymod(chk, a), Polymod(chk, a));
      var lo := if k < |x| then k else |x|;
      var hi := if k + window < |x| then k + window else |x|;
      NoBurstCancels(window, x, lo, hi);
    }
  }
}

/** The bech32 checksum that isNpub verifies, section "Bech32" of BIP-173. */
module Bech32 {
  import opened Bytes
  import opened LinearChecksum

  const CHARSET: string := "qpzry9x8gf2tvdw0s3jn54khce6mua7l"
  const PREFIX: string := "npub1"
  const LENGTH: nat := 63

  /** Six symbols of five bits fill the 30-bit register. */
  const WINDOW: nat := 6

  const GEN: seq<bv32> := [0x3b6a57b2, 0x26508e6d, 0x1ea119fa, 0x3d4233dd, 0x2a1462b3]

  function Xor(a: bv32, b: bv32): bv32 { a ^ b }

  function Shift(chk: bv32): bv32 { (chk & 0x1ffffff) << 5 }

  /** Bit `i` of the five on top of the register. */
  predicate Out(chk: bv32, i: nat) {
    match i
    case 0 => (chk >> 25) & 1 == 1
    case 1 => ((chk >> 25) >> 1) & 1 == 1
    case 2 => ((chk >> 25) >> 2) & 1 == 1
    case 3 => ((chk >> 25) >> 3) & 1 == 1
    case 4 => ((chk >> 25) >> 4) & 1 == 1
    case _ => false
  }

  /** Registers that `n` symbols can leave behind. */
  predicate Room(chk: bv32, n: nat) {
    match n
    case 0 => chk == 0
    case 1 => chk < 0x20
    case 2 => chk < 0x400
    case 3 => chk < 0x8000
    case 4 => chk < 0x10_0000
    case 5 => chk < 0x200_0000
    case _ => chk < 0x4000_0000
  }

  predicate IsSymbol(v: bv32) { v < 0x20 }

  const BECH32 := Code(Xor, 0, Shift, Out, GEN, Room, IsSymbol)

  // ---------------------------------------------------------------------------------
  // The code is linear
  // ---------------------------------------------------------------------------------

  lemma XorAt(a: bv32, b: bv32) returns (x: bv32)
    ensures x == a ^ b && x == BECH32.xor(a, b)
  {
    x := Xor(a, b);
  }

  /** Every intermediate result has a name, so that the equation stays one between words. */
  lemma XorAssociates(a: bv32, b: bv32, c: bv32, ab: bv32, bc: bv32, l: bv32, r: bv32)
    requires ab == a ^ b && bc == b ^ c && l == ab ^ c && r == a ^ bc
    ensures l == r
  {
  }

  lemma XorCommutes(a: bv32, b: bv32, ab: bv32, ba: bv32)
    requires ab == a ^ b && ba == b ^ a
    ensures ab == ba
  {
  }

  lemma XorCancels(a: bv32, b: bv32)
    ensures a ^ a == 0 && a ^ 0 == a && 0 ^ a == a
    ensures a ^ b == 0 <==> a == b
  {
  }

  lemma OutSplits(a: bv32, b: bv32, i: nat)
    ensures Out(a ^ b, i) <==> Out(a, i) != Out(b, i)
  {
  }

  lemma ShiftSplits(a: bv32, b: bv32)
    ensures ((a ^ b) & 0x1ffffff) << 5 == ((a & 0x1ffffff) << 5) ^ ((b & 0x1ffffff) << 5)
  {
  }

  lemma AssociatesAt(a: bv32, b: bv32, c: bv32)
    ensures BECH32.Associates(a, b, c)
  {
    var ab := XorAt(a, b);
    var bc := XorAt(b, c);
    var l := XorAt(ab, c);
    var r := XorAt(a, bc);
    XorAssociates(a, b, c, ab, bc, l, r);
  }

  lemma CommutesAt(a: bv32, b: bv32)
    ensures BECH32.Commutes(a, b)
  {
    var ab := XorAt(a, b);
    var ba := XorAt(b, a);
    XorCommutes(a, b, ab, ba);
  }

  lemma CancelsAt(a: bv32, b: bv32)
    ensures BECH32.Cancels(a, b)
  {
    XorCancels(a, b);
  }

  lemma SplitsAt(a: bv32, b: bv32)
    ensures BECH32.Splits(a, b)
  {
    ShiftSplits(a, b);
    forall i | 0 <= i < |GEN|
      ensures BECH32.out(BECH32.xor(a, b), i) <==> BECH32.out(a, i) != BECH32.out(b, i)
    {
      OutSplits(a, b, i);
    }
  }

  lemma IsLinear()
    ensures BECH32.Linear()
  {
    forall a: bv32, b: bv32, c: bv32 { AssociatesAt(a, b, c); }
    forall a: bv32, b: bv32 { CommutesAt(a, b); }
    forall a: bv32, b: bv32 { CancelsAt(a, b); }
    forall a: bv32, b: bv32 { SplitsAt(a, b); }
  }

  // ---------------------------------------------------------------------------------
  // Nothing gets lost in six symbols
  // ---------------------------------------------------------------------------------

  /** The five generators are independent where it counts: on 30-bit registers a step has no kernel. */
  lemma NoKernel(d: bv32, f0: bv32, f1: bv32, f2: bv32, f3: bv32, f4: bv32, f5: bv32)
    requires d < 0x4000_0000 && f0 == (d & 0x1ffffff) << 5
    requires f1 == if (d >> 25) & 1 == 1 then f0 ^ 0x3b6a57b2 else f0
    requires f2 == if ((d >> 25) >> 1) & 1 == 1 then f1 ^ 0x26508e6d else f1
    requires f3 == if ((d >> 25) >> 2) & 1 == 1 then f2 ^ 0x1ea119fa else f2
    requires f4 == if ((d >> 25) >> 3) & 1 == 1 then f3 ^ 0x3d4233dd else f3
    requires f5 == if ((d >> 25) >> 4) & 1 == 1 then f4 ^ 0x2a1462b3 else f4
    ensures f5 < 0x4000_0000
    ensures f5 == 0 <==> d == 0
  {
  }

  lemma FeedbackStep(base: bv32, chk: bv32, n: nat)
    requires n < 5
    ensures BECH32.Feedback(base, chk, n + 1)
         == if Out(chk, n) then Xor(BECH32.Feedback(base, chk, n), GEN[n]) else BECH32.Feedback(base, chk, n)
  {
  }

  lemma Feedback1(base: bv32, d: bv32, f: bv32) returns (g: bv32)
    requires f == BECH32.Feedback(base, d, 0)
    ensures g == BECH32.Feedback(base, d, 1) && g == if (d >> 25) & 1 == 1 then f ^ 0x3b6a57b2 else f
  {
    FeedbackStep(base, d, 0);
    g := BECH32.Feedback(base, d, 1);
  }

  lemma Feedback2(base: bv32, d: bv32, f: bv32) returns (g: bv32)
    requires f == BECH32.Feedback(base, d, 1)
    ensures g == BECH32.Feedback(base, d, 2) && g == if ((d >> 25) >> 1) & 1 == 1 then f ^ 0x26508e6d else f
  {
    FeedbackStep(base, d, 1);
    g := BECH32.Feedback(base, d, 2);
  }

  lemma Feedback3(base: bv32, d: bv32, f: bv32) returns (g: bv32)
    requires f == BECH32.Feedback(base, d, 2)
    ensures g == BECH32.Feedback(base, d, 3) && g == if ((d >> 25) >> 2) & 1 == 1 then f ^ 0x1ea119fa else f
  {
    FeedbackStep(base, d, 2);
    g := BECH32.Feedback(base, d, 3);
  }

  lemma Feedback4(base: bv32, d: bv32, f: bv32) returns (g: bv32)
    requires f == BECH32.Feedback(base, d, 3)
    ensures g == BECH32.Feedback(base, d, 4) && g == if ((d >> 25) >> 3) & 1 == 1 then f ^ 0x3d4233dd else f
  {
    FeedbackStep(base, d, 3);
    g := BECH32.Feedback(base, d, 4);
  }

  lemma Feedback5(base: bv32, d: bv32, f: bv32) returns (g: bv32)
    requires f == BECH32.Feedback(base, d, 4)
    ensures g == BECH32.Feedback(base, d, 5) && g == if ((d >> 25) >> 4) & 1 == 1 then f ^ 0x2a1462b3 else f
  {
    FeedbackStep(base, d, 4);
    g := BECH32.Feedback(base, d, 5);
  }

  /** A step on a zero symbol starts from the shifted register. */
  lemma StepStart(d: bv32) returns (f0: bv32)
    ensures f0 == (d & 0x1ffffff) << 5 && f0 == BECH32.Feedback(f0, d, 0)
    ensures BECH32.Step(d, 0) == BECH32.Feedback(f0, d, 5)
  {
    f0 := Shift(d);
    XorCancels(f0, 0);
    assert BECH32.xor(BECH32.shift(d), 0) == f0;
  }

  lemma KeepsAt(d: bv32)
    ensures BECH32.Keeps(WINDOW, d)
  {
    if BECH32.room(d, WINDOW) {
      var f0 := StepStart(d);
      var f1 := Feedback1(f0, d, f0);
      var f2 := Feedback2(f0, d, f1);
      var f3 := Feedback3(f0, d, f2);
      var f4 := Feedback4(f0, d, f3);
      var f5 := Feedback5(f0, d, f4);
      NoKernel(d, f0, f1, f2, f3, f4, f5);
    }
  }

  lemma NothingOut(d: bv32, i: nat)
    requires d < 0x200_0000
    ensures !Out(d, i)
  {
  }

  lemma {:induction false} NoFeedback(base: bv32, d: bv32, n: nat)
    requires d < 0x200_0000 && n <= 5
    ensures BECH32.Feedback(base, d, n) == base
  {
    if n > 0 {
      NothingOut(d, n - 1);
      NoFeedback(base, d, n - 1);
    }
  }

  lemma RoomBelow(d: bv32, n: nat)
    requires n < WINDOW && Room(d, n)
    ensures d < 0x200_0000
  {
  }

  lemma ShiftedIn(d: bv32, n: nat, v: bv32, r: bv32)
    requires n < WINDOW && Room(d, n) && v < 0x20 && r == ((d & 0x1ffffff) << 5) ^ v
    ensures Room(r, n + 1) && (r == 0 ==> d == 0 && v == 0)
  {
  }

  lemma EntersAt(d: bv32, n: nat, v: bv32)
    ensures BECH32.Enters(WINDOW, d, n, v)
  {
    if n < WINDOW && BECH32.room(d, n) && BECH32.symbol(v) {
      RoomBelow(d, n);
      var r := Xor(Shift(d), v);
      NoFeedback(r, d, 5);
      ShiftedIn(d, n, v, r);
      assert BECH32.xor(BECH32.shift(d), v) == r;
      assert BECH32.Step(d, v) == r;
    }
  }

  lemma WiderAt(d: bv32, n: nat)
    ensures BECH32.Wider(WINDOW, d, n)
  {
  }

  lemma XorOfSymbols(a: bv32, b: bv32)
    requires a < 0x20 && b < 0x20
    ensures a ^ b < 0x20
  {
  }

  lemma SymbolDifferenceAt(a: bv32, b: bv32)
    ensures BECH32.SymbolDifference(a, b)
  {
    if IsSymbol(a) && IsSymbol(b) {
      XorOfSymbols(a, b);
    }
  }

  lemma DetectsBursts()
    ensures BECH32.Detects(WINDOW)
  {
    IsLinear();
    forall d: bv32 { KeepsAt(d); }
    forall d: bv32, n, v: bv32 { EntersAt(d, n, v); }
    forall d: bv32, n { WiderAt(d, n); }
    forall a: bv32, b: bv32 { SymbolDifferenceAt(a, b); }
  }

  // ---------------------------------------------------------------------------------
  // isNpub
  // ---------------------------------------------------------------------------------

  /** Index of the first `c` in `s`, if there is one. */
  function IndexOf(s: string, c: char): (i: Option<nat>)
    ensures i.Some? ==> i.value < |s| && s[i.value] == c
    ensures i.None? ==> c !in s
  {
    if s == "" then None
    else if s[0] == c then Some(0)
    else
      var rest := IndexOf(s[1..], c);
      if rest.None? then None else Some(rest.value + 1)
  }

  /** The human-readable part "npub" expanded: high bits, zero, low bits. */
  const HRP_VALUES: seq<bv32> := [3, 3, 3, 3, 0, 14, 16, 21, 2]

  predicate InCharset(s: string) {
    forall i :: 0 <= i < |s| ==> IndexOf(CHARSET, s[i]).Some?
  }

  function Symbol(c: char): (v: bv32)
    requires IndexOf(CHARSET, c).Some?
  {
    IndexOf(CHARSET, c).value as bv32
  }

  function DataValues(s: string): (values: seq<bv32>)
    requires InCharset(s)
    ensures |values| == |s|
  {
    seq(|s|, i requires 0 <= i < |s| => Symbol(s[i]))
  }

  predicate IsNpub(s: string) {
    && |s| == LENGTH
    && s[..5] == PREFIX
    && InCharset(s[5..])
    && BECH32.Polymod(1, HRP_VALUES + DataValues(s[5..])) == 1
  }

  lemma SmallSymbol(i: nat)
    requires i < 32
    ensures i as bv32 < 0x20 && (i as bv32) as int == i
  {
  }

  lemma SymbolsAreSmall(c: char)
    requires IndexOf(CHARSET, c).Some?
    ensures IsSymbol(Symbol(c))
  {
    SmallSymbol(IndexOf(CHARSET, c).value);
  }

  lemma SymbolsTellCharsApart(c: char, d: char)
    requires IndexOf(CHARSET, c).Some? && IndexOf(CHARSET, d).Some?
    requires Symbol(c) == Symbol(d)
    ensures c == d
  {
    SmallSymbol(IndexOf(CHARSET, c).value);
    SmallSymbol(IndexOf(CHARSET, d).value);
  }

  lemma DataSymbols(s: string)
    requires InCharset(s)
    ensures BECH32.Symbols(DataValues(s))
  {
    forall i | 0 <= i < |s|
      ensures BECH32.symbol(DataValues(s)[i])
    {
      SymbolsAreSmall(s[i]);
    }
  }

  lemma SameValuesSameText(s: string, t: string)
    requires InCharset(s) && InCharset(t) && DataValues(s) == DataValues(t)
    ensures s == t
  {
    assert |s| == |DataValues(s)| == |t|;
    forall i | 0 <= i < |s|
      ensures s[i] == t[i]
    {
      assert DataValues(s)[i] == DataValues(t)[i];
      SymbolsTellCharsApart(s[i], t[i]);
    }
  }

  /** Words with the same checksum over the same prefix that differ in six consecutive symbols only are the same. */
  lemma ValuesBurst(prefix: seq<bv32>, v: seq<bv32>, w: seq<bv32>, k: nat)
    requires |v| == |w| && BECH32.Symbols(v) && BECH32.Symbols(w)
    requires forall i :: 0 <= i < |v| && !(k <= i < k + WINDOW) ==> v[i] == w[i]
    ensures BECH32.Polymod(1, prefix + v) == BECH32.Polymod(1, prefix + w) ==> v == w
  {
    var chk := BECH32.Polymod(1, prefix);
    BECH32.PolymodConcat(1, prefix, v);
    BECH32.PolymodConcat(1, prefix, w);
    if BECH32.Polymod(chk, v) == BECH32.Polymod(chk, w) {
      DetectsBursts();
      BECH32.SameChecksumSameWord(WINDOW, chk, v, w, k);
    }
  }

  /** The same of the characters that spell them. */
  lemma DataBurst(s: string, t: string, k: nat)
    requires |s| == |t| && InCharset(s) && InCharset(t)
    requires forall i :: 0 <= i < |s| && !(k <= i < k + WINDOW) ==> s[i] == t[i]
    ensures BECH32.Polymod(1, HRP_VALUES + DataValues(s)) == BECH32.Polymod(1, HRP_VALUES + DataValues(t)) ==> s == t
  {
    var v, w := DataValues(s), DataValues(t);
    DataSymbols(s);
    DataSymbols(t);
    assert forall i :: 0 <= i < |v| && s[i] == t[i] ==> v[i] == w[i];
    ValuesBurst(HRP_VALUES, v, w, k);
    if v == w {
      SameValuesSameText(s, t);
    }
  }

  /** No two accepted strings differ only within six consecutive characters. */
  lemma BurstsAreDetected(s: string, t: string, k: nat)
    requires IsNpub(s) && IsNpub(t)
    requires forall i :: 0 <= i < LENGTH && !(k <= i < k + WINDOW) ==> s[i] == t[i]
    ensures s == t
  {
    var from := if k < 5 then 0 else k - 5;
    forall i | 0 <= i < LENGTH - 5 && !(from <= i < from + WINDOW)
      ensures s[5..][i] == t[5..][i]
    {
      assert s[i + 5] == t[i + 5];
    }
    DataBurst(s[5..], t[5..], from);
    assert s == s[..5] + s[5..] && t == t[..5] + t[5..];
  }

  lemma PolymodAppend(chk: bv32, values: seq<bv32>, v: bv32)
    ensures BECH32.Polymod(chk, values + [v]) == BECH32.Step(BECH32.Polymod(chk, values), v)
  {
    BECH32.PolymodConcat(chk, values, [v]);
    var r := BECH32.Polymod(chk, values);
    assert BECH32.Polymod(r, [v]) == BECH32.Polymod(BECH32.Step(r, v), []);
  }

  /** The inner loop of isNpub: the generators of the bits on top of `chk` added to `base`. */
  method AddGenerators(chk: bv32, base: bv32) returns (r: bv32)
    ensures r == BECH32.Feedback(base, chk, 5)
  {
    r := base;
    for i := 0 to 5
      invariant r == BECH32.Feedback(base, chk, i)
    {
      if Out(chk, i) {
        r := Xor(r, GEN[i]);
      }
    }
  }

  method Checksum(values: seq<bv32>) returns (chk: bv32)
    ensures chk == BECH32.Polymod(1, values)
  {
    chk := 1;
    for k := 0 to |values|
      invariant chk == BECH32.Polymod(1, values[..k])
    {
      PolymodAppend(1, values[..k], values[k]);
      assert values[..k + 1] == values[..k] + [values[k]];
      chk := AddGenerators(chk, Xor(Shift(chk), values[k]));
    }
    assert values[..|values|] == values;
  }

  method CheckNpub(s: string) returns (ok: bool)
    ensures ok <==> IsNpub(s)
  {
    if |s| != LENGTH || s[..5] != PREFIX {
      return false;
    }
    var text := s[5..];
    var data: seq<bv32> := [];
    for i := 0 to |text|
      invariant InCharset(text[..i]) && data == DataValues(text[..i])
    {
      var index := IndexOf(CHARSET, text[i]);
      assert text[..i + 1] == text[..i] + [text[i]];
      if index.None? {
        return false;
      }
      data := data + [index.value as bv32];
    }
    assert text[..|text|] == text;
    var chk := Checksum(HRP_VALUES + data);
    ok := chk == 1;
  }
}
