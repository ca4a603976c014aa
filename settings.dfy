// The mod's diagnostic settings: a set of logging categories held as a
// flags word, and the test that tells whether a category is switched on.

module Settings {

  /** The `LoggingFlag` flags enumeration, as a 32-bit word. */
  type LoggingFlag = bv32

  const None: LoggingFlag := 0
  const System: LoggingFlag := 0x1
  const Attack: LoggingFlag := 0x2
  const All: LoggingFlag := 0xF

  /** Bit `i` of `x` is set. */
  predicate HasBit(x: bv32, i: bv5)
  {
    (x >> i) & 1 == 1
  }

  /** Every bit set in `f` is also set in `l`: `f` is a sub-set of `l`. */
  ghost predicate BitsWithin(f: bv32, l: bv32)
  {
    forall i: bv5 :: HasBit(f, i) ==> HasBit(l, i)
  }

  /** The settings loaded from the mod's settings file. */
  datatype ModSettings = ModSettings(logging: LoggingFlag)
  {
    /** A logging category is enabled when all of its bits are on. */
    function IsLoggingEnabled(flag: LoggingFlag): (r: bool)
      ensures r <==> BitsWithin(flag, logging)
    {
      MaskedIffBits(flag, logging);
      (logging & flag) == flag
    }
  }

  lemma ShiftedBit(x: bv32, j: bv5)
    requires HasBit(x >> 1, j)
    ensures j < 31 && HasBit(x, j + 1)
  {}

  /** A non-zero word has a set bit; the lowest one is found by shifting. */
  lemma {:induction false} NonzeroHasBit(x: bv32) returns (i: bv5)
    requires x != 0
    ensures HasBit(x, i)
    decreases x
  {
    if x & 1 == 1 {
      i := 0;
    } else {
      var j := NonzeroHasBit(x >> 1);
      ShiftedBit(x, j);
      i := j + 1;
    }
  }

  lemma MaskedBit(f: bv32, l: bv32, i: bv5)
    ensures HasBit(f & !l, i) <==> HasBit(f, i) && !HasBit(l, i)
  {}

  /** The mask test `(l & f) == f` is exactly bit-set inclusion. */
  lemma MaskedIffBits(f: bv32, l: bv32)
    ensures (l & f) == f <==> BitsWithin(f, l)
  {
    if (l & f) != f {
      var i := NonzeroHasBit(f & !l);
      MaskedBit(f, l, i);
    } else {
      forall i: bv5 ensures HasBit(f, i) ==> HasBit(l, i) {
        MaskedBit(f, l, i);
      }
    }
  }

  /** `None` has no bits, so it is enabled under any settings. */
  lemma NoneAlwaysEnabled(s: ModSettings)
    ensures s.IsLoggingEnabled(None)
  {}

  /** With every category on, both the system and the attack logs are on. */
  lemma AllEnablesEverything()
    ensures ModSettings(All).IsLoggingEnabled(System)
    ensures ModSettings(All).IsLoggingEnabled(Attack)
  {}

  /** With logging off, neither the system nor the attack log is on. */
  lemma NoneDisablesEverything()
    ensures !ModSettings(None).IsLoggingEnabled(System)
    ensures !ModSettings(None).IsLoggingEnabled(Attack)
  {}

  /** Turning more categories on never disables one that was enabled. */
  lemma EnabledMonotonic(more: ModSettings, fewer: ModSettings, flag: LoggingFlag)
    requires BitsWithin(fewer.logging, more.logging)
    requires fewer.IsLoggingEnabled(flag)
    ensures more.IsLoggingEnabled(flag)
  {}
}
