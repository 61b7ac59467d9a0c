/** Feedback registers whose step is linear over exclusive or, for any word type. */
module LinearRegister {

  /** Clocking shifts the register and mixes the feedback back in. */
  datatype Register<!W> = Register(shift: W -> W, feedback: W -> W, xor: (W, W) -> W, zero: W)
  {
    function Step(w: W): W { xor(shift(w), feedback(w)) }
  }

  function Clock<W>(r: Register<W>, w: W, n: nat): W {
    if n == 0 then w else Clock(r, r.Step(w), n - 1)
  }

  function AbsorbWord<W>(r: Register<W>, w: W, input: W): W {
    Clock(r, r.xor(w, input), 8)
  }

  function Absorb<W>(r: Register<W>, w: W, inputs: seq<W>): W {
    if inputs == [] then w else Absorb(r, AbsorbWord(r, w, inputs[0]), inputs[1..])
  }

  ghost predicate Medial<W(!new)>(r: Register<W>) {
    forall a, b, c, d :: r.xor(r.xor(a, b), r.xor(c, d)) == r.xor(r.xor(a, c), r.xor(b, d))
  }

  /** Zero is neutral, and equal words are exactly those that cancel. */
  ghost predicate Cancelling<W(!new)>(r: Register<W>) {
    && (forall a, b :: r.xor(a, b) == r.zero <==> a == b)
    && (forall a :: r.xor(a, r.zero) == a)
  }

  ghost predicate XorLaws<W(!new)>(r: Register<W>) {
    Medial(r) && Cancelling(r)
  }

  ghost predicate Linear<W(!new)>(r: Register<W>) {
    forall a, b :: r.Step(r.xor(a, b)) == r.xor(r.Step(a), r.Step(b))
  }

  ghost predicate Invertible<W(!new)>(r: Register<W>) {
    forall a, b :: r.Step(a) == r.Step(b) ==> a == b
  }

  lemma StepLinear<W(!new)>(r: Register<W>)
    requires XorLaws(r)
    requires forall a, b :: r.shift(r.xor(a, b)) == r.xor(r.shift(a), r.shift(b))
    requires forall a, b :: r.feedback(r.xor(a, b)) == r.xor(r.feedback(a), r.feedback(b))
    ensures Linear(r)
  {}

  /** A linear step that sends only zero to zero is invertible. */
  lemma TrivialKernel<W(!new)>(r: Register<W>)
    requires XorLaws(r) && Linear(r)
    requires forall a :: r.Step(a) == r.zero ==> a == r.zero
    ensures Invertible(r)
  {
    forall a, b | r.Step(a) == r.Step(b) ensures a == b {
      assert r.Step(r.xor(a, b)) == r.xor(r.Step(a), r.Step(b)) == r.zero;
    }
  }

  lemma {:induction false} ClockLinear<W(!new)>(r: Register<W>, a: W, b: W, n: nat)
    requires Linear(r)
    ensures Clock(r, r.xor(a, b), n) == r.xor(Clock(r, a, n), Clock(r, b, n))
  {
    if n != 0 { ClockLinear(r, r.Step(a), r.Step(b), n - 1); }
  }

  lemma {:induction false} ClockInjective<W(!new)>(r: Register<W>, a: W, b: W, n: nat)
    requires Invertible(r) && Clock(r, a, n) == Clock(r, b, n)
    ensures a == b
  {
    if n != 0 { ClockInjective(r, r.Step(a), r.Step(b), n - 1); }
  }

  lemma {:induction false} AbsorbAppend<W>(r: Register<W>, w: W, a: seq<W>, b: seq<W>)
    ensures Absorb(r, w, a + b) == Absorb(r, Absorb(r, w, a), b)
  {
    if a == [] {
      assert a + b == b;
    } else {
      assert (a + b)[1..] == a[1..] + b;
      AbsorbAppend(r, AbsorbWord(r, w, a[0]), a[1..], b);
    }
  }

  function Difference<W>(r: Register<W>, a: seq<W>, b: seq<W>): (d: seq<W>)
    requires |a| == |b|
    ensures |d| == |a| && forall i :: 0 <= i < |d| ==> d[i] == r.xor(a[i], b[i])
  {
    seq(|a|, i requires 0 <= i < |a| => r.xor(a[i], b[i]))
  }

  lemma AbsorbWordDifference<W(!new)>(r: Register<W>, s: W, t: W, a: W, b: W)
    requires XorLaws(r) && Linear(r)
    ensures r.xor(AbsorbWord(r, s, a), AbsorbWord(r, t, b)) == AbsorbWord(r, r.xor(s, t), r.xor(a, b))
  {
    ClockLinear(r, r.xor(s, a), r.xor(t, b), 8);
  }

  /** Two runs differ by exactly what the difference of their inputs does to the difference of
      their states. */
  lemma {:induction false} AbsorbDifference<W(!new)>(r: Register<W>, s: W, t: W, a: seq<W>, b: seq<W>)
    requires XorLaws(r) && Linear(r) && |a| == |b|
    ensures r.xor(Absorb(r, s, a), Absorb(r, t, b)) == Absorb(r, r.xor(s, t), Difference(r, a, b))
    decreases |a|
  {
    if a != [] {
      AbsorbWordDifference(r, s, t, a[0], b[0]);
      assert Difference(r, a, b)[1..] == Difference(r, a[1..], b[1..]);
      AbsorbDifference(r, AbsorbWord(r, s, a[0]), AbsorbWord(r, t, b[0]), a[1..], b[1..]);
    }
  }

  lemma XorCancels<W(!new)>(r: Register<W>, s: W, t: W, p: W)
    requires XorLaws(r) && r.xor(s, p) == r.xor(t, p)
    ensures s == t
  {
    assert r.xor(r.xor(s, p), r.xor(t, p)) == r.zero;
    assert r.xor(p, p) == r.zero;
    assert r.xor(r.xor(s, t), r.xor(p, p)) == r.zero;
  }

  /** For a fixed input the final state determines the initial one. */
  lemma {:induction false} AbsorbInjective<W(!new)>(r: Register<W>, s: W, t: W, inputs: seq<W>)
    requires XorLaws(r) && Invertible(r) && Absorb(r, s, inputs) == Absorb(r, t, inputs)
    ensures s == t
    decreases |inputs|
  {
    if inputs != [] {
      var p := inputs[0];
      AbsorbInjective(r, AbsorbWord(r, s, p), AbsorbWord(r, t, p), inputs[1..]);
      ClockInjective(r, r.xor(s, p), r.xor(t, p), 8);
      XorCancels(r, s, t, p);
    }
  }
}

/** The CRC-32 of src/cli/skills.rs, the table-driven CRC of section 8 of RFC 1952, and the
    errors the checksum is certain to expose. */
module Crc32 {
  import opened LinearRegister

  type Bytes = seq<bv8>

  // ---------------------------------------------------------------- the source's arithmetic

  function Xor(a: bv32, b: bv32): bv32 { a ^ b }

  function Shift(crc: bv32): bv32 { crc >> 1 }

  /** The polynomial masked by the outgoing bit, without a branch. */
  function Feedback(crc: bv32): bv32 { 0xedb8_8320 & (0 - (crc & 1)) }

  function Load(byte: bv8): bv32 { byte as bv32 }

  function Complement(crc: bv32): bv32 { !crc }

  const CRC_REGISTER: Register<bv32> := Register(Shift, Feedback, Xor, 0)

  function LoadAll(bytes: Bytes): (words: seq<bv32>)
    ensures |words| == |bytes| && forall i :: 0 <= i < |words| ==> words[i] == Load(bytes[i])
  {
    seq(|bytes|, i requires 0 <= i < |bytes| => Load(bytes[i]))
  }

  function Checksum(bytes: Bytes): bv32 {
    Complement(Absorb(CRC_REGISTER, 0xffff_ffff, LoadAll(bytes)))
  }

  /** The two nested loops of the source. */
  method ComputeChecksum(bytes: Bytes) returns (crc: bv32)
    ensures crc == Checksum(bytes) == TableChecksum(bytes)
  {
    crc := 0xffff_ffff;
    ghost var words := LoadAll(bytes);
    for i := 0 to |bytes|
      invariant Absorb(CRC_REGISTER, crc, words[i..]) == Absorb(CRC_REGISTER, 0xffff_ffff, words)
    {
      ghost var before := crc;
      crc := Xor(crc, Load(bytes[i]));
      ghost var mixed := crc;
      for k := 0 to 8
        invariant Clock(CRC_REGISTER, crc, 8 - k) == Clock(CRC_REGISTER, mixed, 8)
      {
        crc := Xor(Shift(crc), Feedback(crc));
      }
      assert crc == AbsorbWord(CRC_REGISTER, before, words[i]);
      assert words[i..][1..] == words[i + 1..];
    }
    crc := Complement(crc);
    ChecksumIsTableDriven(bytes);
  }

  // ---------------------------------------------------------------- RFC 1952, section 8

  /** `make_crc_table`: the conditional step, applied `k` times to a table index. */
  function TableEntry(c: bv32, k: nat): bv32
    decreases k
  {
    if k == 0 then c
    else TableEntry(if c & 1 != 0 then 0xedb8_8320 ^ (c >> 1) else c >> 1, k - 1)
  }

  /** `update_crc` without its two complements. */
  function TableAbsorb(crc: bv32, words: seq<bv32>): bv32
    decreases |words|
  {
    if words == [] then crc
    else TableAbsorb(Xor(TableEntry(Xor(crc, words[0]) & 0xff, 8), crc >> 8), words[1..])
  }

  function TableChecksum(bytes: Bytes): bv32 {
    Xor(TableAbsorb(Xor(0, 0xffff_ffff), LoadAll(bytes)), 0xffff_ffff)
  }

  // ---------------------------------------------------------------- bit-vector facts

  lemma LowBit(c: bv32)
    ensures c & 1 == 0 || c & 1 == 1
  {}

  lemma FeedbackSelects(c: bv32)
    ensures Feedback(c) == if c & 1 == 1 then 0xedb8_8320 else 0
  {
    LowBit(c);
  }

  lemma Parity(a: bv32, b: bv32, c: bv32)
    requires c == a ^ b
    ensures a & 1 == b & 1 ==> c & 1 == 0
    ensures a & 1 != b & 1 ==> c & 1 == 1
  {}

  lemma FeedbackLinear(a: bv32, b: bv32)
    ensures Feedback(Xor(a, b)) == Xor(Feedback(a), Feedback(b))
  {
    FeedbackSelects(a);
    FeedbackSelects(b);
    FeedbackSelects(Xor(a, b));
    Parity(a, b, Xor(a, b));
    LowBit(a);
    LowBit(b);
  }

  lemma ShiftLinear(a: bv32, b: bv32)
    ensures Shift(Xor(a, b)) == Xor(Shift(a), Shift(b))
  {}

  lemma XorAssociative(a: bv32, b: bv32, c: bv32)
    ensures Xor(Xor(a, b), c) == Xor(a, Xor(b, c))
  {}

  lemma XorCommutative(a: bv32, b: bv32)
    ensures Xor(a, b) == Xor(b, a)
  {}

  lemma XorDetects(a: bv32, b: bv32)
    ensures Xor(a, b) == 0 <==> a == b
  {}

  lemma XorZero(a: bv32)
    ensures Xor(a, 0) == a
  {}

  lemma StepKernel(c: bv32, d: bv32)
    requires d == Xor(Shift(c), Feedback(c)) && d == 0
    ensures c == 0
  {
    FeedbackSelects(c);
    LowBit(c);
  }

  lemma XorMedial(a: bv32, b: bv32, c: bv32, d: bv32)
    ensures Xor(Xor(a, b), Xor(c, d)) == Xor(Xor(a, c), Xor(b, d))
  {
    XorAssociative(a, b, Xor(c, d));
    XorAssociative(b, c, d);
    XorCommutative(b, c);
    XorAssociative(c, b, d);
    XorAssociative(a, c, Xor(b, d));
  }

  lemma CrcRegisterMedial()
    ensures Medial(CRC_REGISTER)
  {
    forall a, b, c, d ensures Xor(Xor(a, b), Xor(c, d)) == Xor(Xor(a, c), Xor(b, d)) {
      XorMedial(a, b, c, d);
    }
  }

  lemma CrcRegisterCancelling()
    ensures Cancelling(CRC_REGISTER)
  {
    forall a, b ensures Xor(a, b) == 0 <==> a == b { XorDetects(a, b); }
    forall a ensures Xor(a, 0) == a { XorZero(a); }
  }

  /** The CRC register is linear, and every bit step permutes the 32-bit states. */
  lemma CrcRegisterLaws()
    ensures XorLaws(CRC_REGISTER) && Linear(CRC_REGISTER) && Invertible(CRC_REGISTER)
  {
    var r := CRC_REGISTER;
    CrcRegisterMedial();
    CrcRegisterCancelling();
    forall a, b ensures r.shift(r.xor(a, b)) == r.xor(r.shift(a), r.shift(b)) { ShiftLinear(a, b); }
    forall a, b ensures r.feedback(r.xor(a, b)) == r.xor(r.feedback(a), r.feedback(b)) {
      FeedbackLinear(a, b);
    }
    StepLinear(r);
    forall a | r.Step(a) == r.zero ensures a == r.zero { StepKernel(a, r.Step(a)); }
    TrivialKernel(r);
  }

  lemma EvenChain(c: bv32, c1: bv32, c2: bv32, c3: bv32, c4: bv32, c5: bv32, c6: bv32, c7: bv32)
    requires c & 0xff == 0
    requires c1 == c >> 1 && c2 == c1 >> 1 && c3 == c2 >> 1 && c4 == c3 >> 1
    requires c5 == c4 >> 1 && c6 == c5 >> 1 && c7 == c6 >> 1
    ensures c & 1 == 0 && c1 & 1 == 0 && c2 & 1 == 0 && c3 & 1 == 0
    ensures c4 & 1 == 0 && c5 & 1 == 0 && c6 & 1 == 0 && c7 & 1 == 0
    ensures c7 >> 1 == c >> 8
  {}

  /** A word whose low byte is clear is only shifted by eight steps. */
  lemma EightStepsShift(c: bv32)
    requires c & 0xff == 0
    ensures Clock(CRC_REGISTER, c, 8) == c >> 8
  {
    var c1 := c >> 1;
    var c2 := c1 >> 1;
    var c3 := c2 >> 1;
    var c4 := c3 >> 1;
    var c5 := c4 >> 1;
    var c6 := c5 >> 1;
    var c7 := c6 >> 1;
    EvenChain(c, c1, c2, c3, c4, c5, c6, c7);
    FourEvenSteps(c, c1, c2, c3, 4);
    FourEvenSteps(c4, c5, c6, c7, 0);
  }

  lemma FourEvenSteps(c: bv32, c1: bv32, c2: bv32, c3: bv32, n: nat)
    requires c1 == c >> 1 && c2 == c1 >> 1 && c3 == c2 >> 1
    requires c & 1 == 0 && c1 & 1 == 0 && c2 & 1 == 0 && c3 & 1 == 0
    ensures Clock(CRC_REGISTER, c, n + 4) == Clock(CRC_REGISTER, c3 >> 1, n)
  {
    EvenStep(c, n + 3);
    EvenStep(c1, n + 2);
    EvenStep(c2, n + 1);
    EvenStep(c3, n);
  }

  lemma EvenStep(c: bv32, n: nat)
    requires c & 1 == 0
    ensures Clock(CRC_REGISTER, c, n + 1) == Clock(CRC_REGISTER, c >> 1, n)
  {
    StepIsConditional(c);
  }

  lemma StepIsConditional(c: bv32)
    ensures CRC_REGISTER.Step(c) == if c & 1 != 0 then 0xedb8_8320 ^ (c >> 1) else c >> 1
  {
    FeedbackSelects(c);
    LowBit(c);
    XorCommutative(Shift(c), Feedback(c));
    XorZero(Shift(c));
  }

  // ---------------------------------------------------------------- agreement with RFC 1952

  lemma {:induction false} TableEntryIsClock(c: bv32, k: nat)
    ensures TableEntry(c, k) == Clock(CRC_REGISTER, c, k)
    decreases k
  {
    if k > 0 {
      StepIsConditional(c);
      TableEntryIsClock(CRC_REGISTER.Step(c), k - 1);
    }
  }

  lemma SplitLowByte(x: bv32, low: bv32, high: bv32)
    requires low == x & 0xff && high == x & 0xffff_ff00
    ensures low ^ high == x && high & 0xff == 0
  {}

  lemma HighPart(crc: bv32, w: bv32, x: bv32, high: bv32)
    requires w <= 0xff && x == crc ^ w && high == x & 0xffff_ff00
    ensures high >> 8 == crc >> 8
  {}

  lemma ClockOfXor(a: bv32, b: bv32, x: bv32)
    requires x == Xor(a, b)
    ensures Clock(CRC_REGISTER, x, 8) == Xor(Clock(CRC_REGISTER, a, 8), Clock(CRC_REGISTER, b, 8))
  {
    CrcRegisterLaws();
    ClockLinear(CRC_REGISTER, a, b, 8);
  }

  lemma ClockIsTableLookup(x: bv32, low: bv32, high: bv32)
    requires low == x & 0xff && high == x & 0xffff_ff00
    ensures Clock(CRC_REGISTER, x, 8) == Xor(TableEntry(low, 8), high >> 8)
  {
    SplitLowByte(x, low, high);
    ClockOfXor(low, high, x);
    EightStepsShift(high);
    TableEntryIsClock(low, 8);
  }

  /** Eight masked bit steps are one table lookup. */
  lemma AbsorbWordIsTableLookup(crc: bv32, w: bv32)
    requires w <= 0xff
    ensures AbsorbWord(CRC_REGISTER, crc, w) == Xor(TableEntry(Xor(crc, w) & 0xff, 8), crc >> 8)
  {
    var x := Xor(crc, w);
    HighPart(crc, w, x, x & 0xffff_ff00);
    ClockIsTableLookup(x, x & 0xff, x & 0xffff_ff00);
  }

  lemma {:induction false} AbsorbIsTableAbsorb(crc: bv32, words: seq<bv32>)
    requires forall i :: 0 <= i < |words| ==> words[i] <= 0xff
    ensures Absorb(CRC_REGISTER, crc, words) == TableAbsorb(crc, words)
    decreases |words|
  {
    if words != [] {
      AbsorbWordIsTableLookup(crc, words[0]);
      AbsorbIsTableAbsorb(AbsorbWord(CRC_REGISTER, crc, words[0]), words[1..]);
    }
  }

  lemma ComplementIsXor(x: bv32)
    ensures Complement(x) == Xor(x, 0xffff_ffff)
  {}

  lemma LoadBound(byte: bv8)
    ensures Load(byte) <= 0xff
  {}

  /** Main result: the masked loops compute the CRC of section 8 of RFC 1952. */
  lemma ChecksumIsTableDriven(bytes: Bytes)
    ensures Checksum(bytes) == TableChecksum(bytes)
  {
    forall i | 0 <= i < |bytes| ensures LoadAll(bytes)[i] <= 0xff { LoadBound(bytes[i]); }
    AbsorbIsTableAbsorb(0xffff_ffff, LoadAll(bytes));
    assert Xor(0, 0xffff_ffff) == 0xffff_ffff;
    ComplementIsXor(TableAbsorb(0xffff_ffff, LoadAll(bytes)));
  }

  // ---------------------------------------------------------------- error detection

  /** Up to four input words read as one little-endian word. */
  function Window(d: seq<bv32>): bv32 {
    if d == [] then 0 else Xor(d[0], Window(d[1..]) << 8)
  }

  lemma WindowStep(low: bv32, rest: bv32, w: bv32)
    requires low <= 0xff && w == low ^ (rest << 8)
    ensures rest == 0 ==> w <= 0xff
    ensures rest <= 0xff ==> w <= 0xffff
    ensures rest <= 0xffff ==> w <= 0xff_ffff
    ensures rest <= 0xff_ffff && w == 0 ==> low == 0 && rest == 0
    ensures (rest << 8) & 0xff == 0
    ensures rest <= 0xff_ffff ==> (rest << 8) >> 8 == rest
  {}

  lemma {:induction false} WindowBound(d: seq<bv32>)
    requires |d| <= 3 && forall i :: 0 <= i < |d| ==> d[i] <= 0xff
    ensures Window(d) <= 0xff_ffff
    ensures |d| <= 2 ==> Window(d) <= 0xffff
    ensures |d| <= 1 ==> Window(d) <= 0xff
  {
    if d != [] {
      WindowBound(d[1..]);
      WindowStep(d[0], Window(d[1..]), Window(d));
    }
  }

  lemma {:induction false} WindowZero(d: seq<bv32>)
    requires |d| <= 4 && forall i :: 0 <= i < |d| ==> d[i] <= 0xff
    requires Window(d) == 0
    ensures forall i :: 0 <= i < |d| ==> d[i] == 0
  {
    if d != [] {
      WindowBound(d[1..]);
      WindowStep(d[0], Window(d[1..]), Window(d));
      WindowZero(d[1..]);
    }
  }

  lemma XorSolve(s: bv32, low: bv32, x: bv32, w: bv32)
    requires Xor(s, low) == x && w == Xor(low, x)
    ensures s == w
  {}

  lemma ClockOrigin(x: bv32, y: bv32, rest: bv32)
    requires y & 0xff == 0 && y >> 8 == rest && Clock(CRC_REGISTER, x, 8) == rest
    ensures x == y
  {
    EightStepsShift(y);
    CrcRegisterLaws();
    ClockInjective(CRC_REGISTER, x, y, 8);
  }

  lemma ShiftedOrigin(s: bv32, low: bv32, rest: bv32, w: bv32)
    requires low <= 0xff && rest <= 0xff_ffff && AbsorbWord(CRC_REGISTER, s, low) == rest
    requires w == Xor(low, rest << 8)
    ensures s == w
  {
    WindowStep(low, rest, low ^ (rest << 8));
    ClockOrigin(Xor(s, low), rest << 8, rest);
    XorSolve(s, low, rest << 8, w);
  }

  /** A window of at most four words drives exactly one state to zero. */
  lemma {:induction false} ZeroOrigin(s: bv32, d: seq<bv32>)
    requires |d| <= 4 && forall i :: 0 <= i < |d| ==> d[i] <= 0xff
    requires Absorb(CRC_REGISTER, s, d) == 0
    ensures s == Window(d)
    decreases |d|
  {
    if d != [] {
      var next := AbsorbWord(CRC_REGISTER, s, d[0]);
      ZeroOrigin(next, d[1..]);
      WindowBound(d[1..]);
      ShiftedOrigin(s, d[0], next, Window(d));
    }
  }

  lemma LoadInjective(p: bv8, q: bv8)
    ensures Load(p) == Load(q) <==> p == q
  {}

  lemma XorBound(a: bv32, b: bv32)
    requires a <= 0xff && b <= 0xff
    ensures Xor(a, b) <= 0xff
  {}

  lemma DifferenceVanishes(s: bv32, a: seq<bv32>, b: seq<bv32>)
    requires |a| == |b| && Absorb(CRC_REGISTER, s, a) == Absorb(CRC_REGISTER, s, b)
    ensures Absorb(CRC_REGISTER, 0, Difference(CRC_REGISTER, a, b)) == 0
  {
    CrcRegisterLaws();
    AbsorbDifference(CRC_REGISTER, s, s, a, b);
  }

  /** Two windows taken from the same state to the same state are equal. */
  lemma EqualWindows(s: bv32, a: seq<bv32>, b: seq<bv32>)
    requires |a| == |b| <= 4
    requires forall i :: 0 <= i < |a| ==> a[i] <= 0xff && b[i] <= 0xff
    requires Absorb(CRC_REGISTER, s, a) == Absorb(CRC_REGISTER, s, b)
    ensures a == b
  {
    var d := Difference(CRC_REGISTER, a, b);
    DifferenceVanishes(s, a, b);
    forall i | 0 <= i < |d| ensures d[i] <= 0xff { XorBound(a[i], b[i]); }
    ZeroOrigin(0, d);
    WindowZero(d);
    forall i | 0 <= i < |a| ensures a[i] == b[i] {
      assert d[i] == 0;
      XorDetects(a[i], b[i]);
    }
  }

  lemma ComplementInjective(x: bv32, y: bv32, z: bv32)
    requires z == Xor(x, 0xffff_ffff) && z == Xor(y, 0xffff_ffff)
    ensures x == y
  {}

  lemma EqualChecksums(u: Bytes, v: Bytes)
    requires Checksum(u) == Checksum(v)
    ensures Absorb(CRC_REGISTER, 0xffff_ffff, LoadAll(u)) == Absorb(CRC_REGISTER, 0xffff_ffff, LoadAll(v))
  {
    var x, y := Absorb(CRC_REGISTER, 0xffff_ffff, LoadAll(u)), Absorb(CRC_REGISTER, 0xffff_ffff, LoadAll(v));
    ComplementIsXor(x);
    ComplementIsXor(y);
    ComplementInjective(x, y, Complement(x));
  }

  /** Runs that agree after a common suffix agree before it. */
  lemma StripSuffix(x: seq<bv32>, y: seq<bv32>, q: seq<bv32>)
    requires Absorb(CRC_REGISTER, 0xffff_ffff, x + q) == Absorb(CRC_REGISTER, 0xffff_ffff, y + q)
    ensures Absorb(CRC_REGISTER, 0xffff_ffff, x) == Absorb(CRC_REGISTER, 0xffff_ffff, y)
  {
    var r, ones: bv32 := CRC_REGISTER, 0xffff_ffff;
    AbsorbAppend(r, ones, x, q);
    AbsorbAppend(r, ones, y, q);
    CrcRegisterLaws();
    AbsorbInjective(r, Absorb(r, ones, x), Absorb(r, ones, y), q);
  }

  lemma WordBursts(p: seq<bv32>, x: seq<bv32>, y: seq<bv32>, q: seq<bv32>)
    requires |x| == |y| <= 4
    requires forall i :: 0 <= i < |x| ==> x[i] <= 0xff && y[i] <= 0xff
    requires Absorb(CRC_REGISTER, 0xffff_ffff, p + x + q) == Absorb(CRC_REGISTER, 0xffff_ffff, p + y + q)
    ensures x == y
  {
    StripSuffix(p + x, p + y, q);
    AbsorbAppend(CRC_REGISTER, 0xffff_ffff, p, x);
    AbsorbAppend(CRC_REGISTER, 0xffff_ffff, p, y);
    EqualWindows(Absorb(CRC_REGISTER, 0xffff_ffff, p), x, y);
  }

  lemma LoadAllInjective(a: Bytes, b: Bytes)
    requires LoadAll(a) == LoadAll(b)
    ensures a == b
  {
    assert |LoadAll(a)| == |a| && |LoadAll(b)| == |b|;
    forall i | 0 <= i < |a| ensures a[i] == b[i] {
      assert LoadAll(a)[i] == LoadAll(b)[i];
      LoadInjective(a[i], b[i]);
    }
  }

  /** Main result: texts that agree outside a window of at most four bytes have equal checksums
      only when they are equal. */
  lemma BurstsAreDetected(prefix: Bytes, a: Bytes, b: Bytes, suffix: Bytes)
    requires |a| == |b| <= 4
    ensures Checksum(prefix + a + suffix) == Checksum(prefix + b + suffix) <==> a == b
  {
    if Checksum(prefix + a + suffix) == Checksum(prefix + b + suffix) {
      var p, x, y, q := LoadAll(prefix), LoadAll(a), LoadAll(b), LoadAll(suffix);
      EqualChecksums(prefix + a + suffix, prefix + b + suffix);
      assert LoadAll(prefix + a + suffix) == p + x + q;
      assert LoadAll(prefix + b + suffix) == p + y + q;
      forall i | 0 <= i < |x| ensures x[i] <= 0xff && y[i] <= 0xff {
        LoadBound(a[i]);
        LoadBound(b[i]);
      }
      WordBursts(p, x, y, q);
      LoadAllInjective(a, b);
    }
  }
}
