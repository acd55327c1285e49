/** The gate as the 64-bit word that the map holds, and the bit operations that
  * the protocol applies to it. */
module GateWord {
  import opened Bridge

  const WORD_LIMIT: nat := 0x1_0000_0000_0000_0000

  type uint64 = w: nat | w < 0x1_0000_0000_0000_0000

  // ----- Bitwise operations on naturals -----

  function And(a: nat, b: nat): nat {
    if a == 0 || b == 0 then 0
    else (if a % 2 == 1 && b % 2 == 1 then 1 else 0) + 2 * And(a / 2, b / 2)
  }

  function Or(a: nat, b: nat): nat
    decreases a + b
  {
    if a == 0 then b else if b == 0 then a
    else (if a % 2 == 0 && b % 2 == 0 then 0 else 1) + 2 * Or(a / 2, b / 2)
  }

  function Not(w: uint64): uint64 {
    WORD_LIMIT - 1 - w
  }

  function Pow2(k: nat): (p: nat)
    ensures p >= 1
  {
    if k == 0 then 1 else 2 * Pow2(k - 1)
  }

  function Shl(w: uint64, k: nat): uint64 {
    (w * Pow2(k)) % WORD_LIMIT
  }

  function Shr(w: nat, k: nat): nat {
    if k == 0 then w else Shr(w / 2, k - 1)
  }

  // ----- The helpers of the gate -----

  const ACTIVE_BITS := 20
  const ENABLED: uint64 := 0x8000_0000_0000_0000
  const FINALIZING: uint64 := 0x4000_0000_0000_0000

  function GateForRun(run: uint64): uint64 {
    Shl(run, ACTIVE_BITS)
  }

  function GateRun(gate: uint64): nat {
    And(Shr(gate, ACTIVE_BITS), RUN_MASK)
  }

  function GateActive(gate: uint64): nat {
    And(gate, ACTIVE_MASK)
  }

  predicate GateAllowsRun(gate: uint64, run: nat) {
    And(gate, ENABLED) != 0 && GateRun(gate) == run
  }

  /** The record a word stands for. */
  function Decode(gate: uint64): Gate {
    Gate(And(gate, ENABLED) != 0, And(gate, FINALIZING) != 0, GateRun(gate), GateActive(gate))
  }

  predicate Fits(g: Gate) {
    g.run <= RUN_MASK && g.active <= ACTIVE_MASK
  }

  /** The word that stands for a record. */
  function Encode(g: Gate): uint64
    requires Fits(g)
  {
    (if g.enabled then 0x8000_0000_0000_0000 else 0)
    + (if g.finalizing then 0x4000_0000_0000_0000 else 0)
    + g.run * 0x10_0000 + g.active
  }

  // ----- Bit facts -----

  lemma {:induction false} AndLowMask(w: nat, k: nat)
    ensures And(w, Pow2(k) - 1) == w % Pow2(k)
  {
    if k > 0 {
      AndLowMask(w / 2, k - 1);
      var p := Pow2(k - 1);
      assert (2 * p - 1) / 2 == p - 1 && (2 * p - 1) % 2 == 1;
      ModDouble(w, p);
    }
  }

  lemma ModDouble(w: nat, p: nat)
    requires p >= 1
    ensures w % (2 * p) == w % 2 + 2 * (w / 2 % p)
  {
    var q, r := w / 2 / p, w / 2 % p;
    assert w / 2 == q * p + r;
    assert w == q * (2 * p) + (2 * r + w % 2);
    DivModUnique(w, 2 * p, q, 2 * r + w % 2);
  }

  lemma DivModUnique(w: nat, d: nat, q: nat, r: nat)
    requires r < d && w == q * d + r
    ensures w / d == q && w % d == r
  {
    var q', r' := w / d, w % d;
    assert (q - q') * d == r' - r && (q' - q) * d == r - r';
    if q > q' {
      TimesAtLeast(q - q', d);
    } else if q < q' {
      TimesAtLeast(q' - q, d);
    }
  }

  lemma TimesAtLeast(x: nat, d: nat)
    requires x >= 1
    ensures x * d >= d
  {
  }

  lemma {:induction false} ShrDivides(w: nat, k: nat)
    ensures Shr(w, k) == w / Pow2(k)
  {
    if k > 0 {
      ShrDivides(w / 2, k - 1);
      DivTwice(w, Pow2(k - 1));
    }
  }

  lemma {:induction false} AndBit(w: nat, k: nat)
    ensures And(w, Pow2(k)) == if Shr(w, k) % 2 == 1 then Pow2(k) else 0
  {
    if k == 0 {
      AndOne(w);
    } else {
      AndBit(w / 2, k - 1);
    }
  }

  lemma AndOne(w: nat)
    ensures And(w, 1) == w % 2
  {
    assert And(w / 2, 0) == 0;
  }

  lemma DivTwice(w: nat, p: nat)
    requires p >= 1
    ensures w / (2 * p) == w / 2 / p
  {
    var q, r := w / 2 / p, w / 2 % p;
    assert w / 2 == q * p + r;
    assert w == q * (2 * p) + (2 * r + w % 2);
    DivModUnique(w, 2 * p, q, 2 * r + w % 2);
  }

  /** Masking a word with a mask and with its complement splits the word. */
  lemma {:induction false} AndComplement(a: nat, b: nat, k: nat)
    requires a < Pow2(k) && b < Pow2(k)
    ensures And(a, b) + And(a, Pow2(k) - 1 - b) == a
  {
    if k > 0 && a > 0 {
      AndComplement(a / 2, b / 2, k - 1);
      var c := Pow2(k) - 1 - b;
      assert c / 2 == Pow2(k - 1) - 1 - b / 2 && c % 2 == 1 - b % 2;
      AndStep(a, b);
      AndStep(a, c);
    }
  }

  lemma AndStep(a: nat, b: nat)
    ensures And(a, b) == (if a % 2 == 1 && b % 2 == 1 then 1 else 0) + 2 * And(a / 2, b / 2)
  {
  }

  lemma {:induction false} OrDisjoint(a: nat, b: nat)
    requires And(a, b) == 0
    ensures Or(a, b) == a + b
    decreases a + b
  {
    if a != 0 && b != 0 {
      OrDisjoint(a / 2, b / 2);
    }
  }

  lemma PowTable()
    ensures Pow2(20) == 0x10_0000 && Pow2(42) == 0x400_0000_0000
    ensures Pow2(62) == FINALIZING && Pow2(63) == ENABLED && Pow2(64) == WORD_LIMIT
  {
    assert Pow2(8) == 0x100;
    assert Pow2(16) == 0x1_0000;
    assert Pow2(20) == 0x10_0000;
    assert Pow2(28) == 0x1000_0000;
    assert Pow2(36) == 0x10_0000_0000;
    assert Pow2(42) == 0x400_0000_0000;
    assert Pow2(50) == 0x4_0000_0000_0000;
    assert Pow2(58) == 0x400_0000_0000_0000;
    assert Pow2(62) == 0x4000_0000_0000_0000;
  }

  lemma LowBits(w: nat)
    ensures And(w, ACTIVE_MASK) == w % 0x10_0000
    ensures And(w, RUN_MASK) == w % 0x400_0000_0000
  {
    PowTable();
    AndLowMask(w, 20);
    AndLowMask(w, 42);
  }

  lemma FlagBits(w: nat)
    ensures And(w, ENABLED) == if w / 0x8000_0000_0000_0000 % 2 == 1 then ENABLED else 0
    ensures And(w, FINALIZING) == if w / 0x4000_0000_0000_0000 % 2 == 1 then FINALIZING else 0
  {
    PowTable();
    AndBit(w, 63);
    AndBit(w, 62);
    ShrDivides(w, 63);
    ShrDivides(w, 62);
  }

  lemma Shifted(w: nat)
    ensures Shr(w, 20) == w / 0x10_0000
  {
    PowTable();
    ShrDivides(w, 20);
  }

  lemma ForRun(run: uint64)
    requires run <= RUN_MASK
    ensures GateForRun(run) == run * 0x10_0000
  {
    PowTable();
  }

  /** The fields of a word, in plain arithmetic. */
  lemma Fields(w: uint64)
    ensures GateActive(w) == w % 0x10_0000
    ensures GateRun(w) == w / 0x10_0000 % 0x400_0000_0000
    ensures (And(w, ENABLED) != 0) == (w >= 0x8000_0000_0000_0000)
    ensures (And(w, FINALIZING) != 0) == (w / 0x4000_0000_0000_0000 % 2 == 1)
  {
    LowBits(w);
    Shifted(w);
    LowBits(Shr(w, 20));
    FlagBits(w);
  }

  lemma SplitWord(w: uint64)
    ensures w == (if w >= 0x8000_0000_0000_0000 then 0x8000_0000_0000_0000 else 0)
                 + (w / 0x4000_0000_0000_0000 % 2) * 0x4000_0000_0000_0000
                 + (w / 0x10_0000 % 0x400_0000_0000) * 0x10_0000 + w % 0x10_0000
  {
    var high := w / 0x10_0000;
    var flags := high / 0x400_0000_0000;
    assert w == high * 0x10_0000 + w % 0x10_0000;
    assert high == flags * 0x400_0000_0000 + high % 0x400_0000_0000;
    assert flags < 4;
    assert w / 0x4000_0000_0000_0000 == flags;
  }

  // ----- The word refines the record -----

  /** Packing and unpacking are inverse: every word stands for one record that
    * fits, so a CAS compares words exactly when it compares records. */
  lemma DecodeEncode(g: Gate)
    requires Fits(g)
    ensures Decode(Encode(g)) == g
  {
    var w := Encode(g);
    var flags := (if g.enabled then 2 else 0) + (if g.finalizing then 1 else 0);
    var high := flags * 0x400_0000_0000 + g.run;
    assert w == high * 0x10_0000 + g.active;
    assert w % 0x10_0000 == g.active && w / 0x10_0000 == high;
    assert high % 0x400_0000_0000 == g.run;
    assert w / 0x4000_0000_0000_0000 == flags;
    Fields(w);
  }

  lemma EncodeDecode(w: uint64)
    ensures Fits(Decode(w)) && Encode(Decode(w)) == w
  {
    Fields(w);
    SplitWord(w);
    var bit := w / 0x4000_0000_0000_0000 % 2;
    assert bit == 0 || bit == 1;
  }

  lemma SameWord(v: uint64, w: uint64)
    ensures v == w <==> Decode(v) == Decode(w)
  {
    EncodeDecode(v);
    EncodeDecode(w);
  }

  lemma ForRunIdle(run: uint64)
    requires run <= RUN_MASK
    ensures Decode(GateForRun(run)) == Idle(run)
  {
    ForRun(run);
    DecodeEncode(Idle(run));
  }

  lemma NoFlag(w: uint64, flag: uint64)
    requires w < 0x4000_0000_0000_0000 && (flag == ENABLED || flag == FINALIZING)
    ensures Or(w, flag) == w + flag
  {
    FlagBits(w);
    OrDisjoint(w, flag);
  }

  lemma WithFlag(run: uint64, flag: uint64)
    requires run <= RUN_MASK && (flag == ENABLED || flag == FINALIZING)
    ensures Or(GateForRun(run), flag) == GateForRun(run) + flag < WORD_LIMIT
    ensures flag == ENABLED ==> Decode(GateForRun(run) + flag) == Open(run)
    ensures flag == FINALIZING ==> Decode(GateForRun(run) + flag) == Finalizing(run)
  {
    ForRun(run);
    NoFlag(run * 0x10_0000, flag);
    DecodeEncode(Open(run));
    DecodeEncode(Finalizing(run));
  }

  /** Adding one to a word whose active field is not full touches no other field. */
  lemma Increment(w: uint64)
    requires GateActive(w) != ACTIVE_MASK
    ensures w + 1 < WORD_LIMIT
    ensures Decode(w + 1) == Decode(w).(active := Decode(w).active + 1)
  {
    Fields(w);
    EncodeDecode(w);
    DecodeEncode(Decode(w).(active := Decode(w).active + 1));
  }

  /** Taking one from a word whose active field is not zero touches no other. */
  lemma Decrement(w: uint64)
    requires GateActive(w) != 0
    ensures w >= 1 && Decode(w - 1) == Decode(w).(active := Decode(w).active - 1)
  {
    Fields(w);
    EncodeDecode(w);
    DecodeEncode(Decode(w).(active := Decode(w).active - 1));
  }

  lemma ClearedWord(w: uint64)
    ensures And(w, Not(ENABLED)) == if And(w, ENABLED) != 0 then w - ENABLED else w
  {
    PowTable();
    AndComplement(w, ENABLED, 64);
    FlagBits(w);
  }

  lemma ClearEnabled(w: uint64)
    ensures And(w, Not(ENABLED)) < WORD_LIMIT
    ensures Decode(And(w, Not(ENABLED))) == Decode(w).(enabled := false)
  {
    ClearedWord(w);
    EncodeDecode(w);
    DecodeEncode(Decode(w).(enabled := false));
  }
}
