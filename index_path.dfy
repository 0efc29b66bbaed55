/**
 * The hierarchical index-path codec of the utils package (StringToIndexPath and
 * IndexPathToString). A dotted outline number such as "1.2.10" becomes an int64
 * sort key: level i (counted from 0) is a 6-bit field at bits 54-6i .. 59-6i,
 * so at most 10 levels fit below the sign bit, and every level is in 0..63.
 * Decoding reads the fields from the top and stops at the first zero field.
 */
module IndexPath {
  import opened Wrappers
  import opened Text

  /** Go's int64. */
  type Int64 = x: int | MinInt64 <= x <= MaxInt64

  const MaxDepth: nat := 10
  const MaxLevel: nat := 63

  datatype CodecError = EmptyInput | TooDeep | ParseFailure | OutOfRange

  // ---------------------------------------------------------------------------
  // Shifts on unbounded integers
  // ---------------------------------------------------------------------------

  /** `v << k`: k doublings. */
  function Shl(v: int, k: nat): int
  {
    if k == 0 then v else 2 * Shl(v, k - 1)
  }

  /**
   * `v >> k` on a signed integer: k halvings, each rounding towards minus
   * infinity (Dafny's division by a positive divisor), which is Go's
   * arithmetic right shift, negative values included.
   */
  function Shr(v: int, k: nat): int
    decreases k
  {
    if k == 0 then v else Shr(v / 2, k - 1)
  }

  /** Lowest bit of the field that holds level `i`. */
  function Shift(i: nat): nat
    requires i < MaxDepth
  {
    54 - 6 * i
  }

  /**
   * `(v >> Shift(i)) & 0x3F`. Dafny's remainder modulo 64 is never negative,
   * which is the low six bits of the two's-complement value.
   */
  function Field(v: int, i: nat): (f: nat)
    requires i < MaxDepth
    ensures f <= MaxLevel
  {
    Shr(v, Shift(i)) % 64
  }

  /** `1 << 60`, the first bit above the ten fields; below the sign bit of an int64. */
  const KeyLimit: int := 0x1000_0000_0000_0000

  // ---------------------------------------------------------------------------
  // Paths and their order
  // ---------------------------------------------------------------------------

  /** A path the codec is meant for: 1 to 10 levels, each in 1..63. */
  predicate ValidPath(levels: seq<nat>)
  {
    1 <= |levels| <= MaxDepth && Positive(levels)
  }

  /** Every level fits a six-bit field. */
  predicate InRange(levels: seq<nat>)
  {
    forall j :: 0 <= j < |levels| ==> levels[j] <= MaxLevel
  }

  /** Every level is in 1..63. */
  predicate Positive(levels: seq<nat>)
  {
    forall j :: 0 <= j < |levels| ==> 1 <= levels[j] <= MaxLevel
  }

  /** Every level is a value strconv.Atoi can return. */
  predicate Readable(levels: seq<nat>)
  {
    forall j :: 0 <= j < |levels| ==> levels[j] <= MaxInt64
  }

  /**
   * Depth-first numeric order of outline numbers: the first differing level
   * decides, numerically, and a path comes before its own descendants.
   */
  predicate Before(a: seq<nat>, b: seq<nat>)
  {
    if a == [] then b != []
    else if b == [] then false
    else a[0] < b[0] || (a[0] == b[0] && Before(a[1..], b[1..]))
  }

  /** The dotted form of a path, as IndexPathToString writes it. */
  function Format(levels: seq<nat>): string
  {
    Join(Decimals(levels), '.')
  }

  function Decimals(levels: seq<nat>): (parts: seq<string>)
    ensures |parts| == |levels|
    ensures forall i :: 0 <= i < |levels| ==> parts[i] == Itoa(levels[i])
  {
    if levels == [] then [] else [Itoa(levels[0])] + Decimals(levels[1..])
  }

  /** The levels before the first zero level. */
  function TakeNonZero(levels: seq<nat>): seq<nat>
  {
    if levels == [] || levels[0] == 0 then [] else [levels[0]] + TakeNonZero(levels[1..])
  }

  // ---------------------------------------------------------------------------
  // Encode (StringToIndexPath)
  // ---------------------------------------------------------------------------

  /**
   * The key of `levels` placed from depth `d` on: level j of `levels` shifted
   * to the field of depth d + j, the fields OR-ed together. The fields are
   * disjoint (each value is below 64), so OR is addition here.
   */
  function PackFrom(levels: seq<nat>, d: nat): int
    requires d + |levels| <= MaxDepth
  {
    if levels == [] then 0 else Shl(levels[0], Shift(d)) + PackFrom(levels[1..], d + 1)
  }

  function Pack(levels: seq<nat>): int
    requires |levels| <= MaxDepth
  {
    PackFrom(levels, 0)
  }

  /** One dot-separated part: trimmed, read by strconv.Atoi, checked against 0..63. */
  function ParseLevel(part: string): (r: Result<nat, CodecError>)
    ensures r.Success? ==> r.value <= MaxLevel
    ensures r.Failure? ==> r.error == ParseFailure || r.error == OutOfRange
  {
    match Atoi(TrimSpace(part))
    case None => Failure(ParseFailure)
    case Some(v) => if v < 0 || v > MaxLevel then Failure(OutOfRange) else Success(v)
  }

  /** The parts in order; the first part that fails decides the error. */
  function ParseLevels(parts: seq<string>): (r: Result<seq<nat>, CodecError>)
    ensures r.Success? ==> |r.value| == |parts|
    ensures r.Success? ==> forall i :: 0 <= i < |parts| ==> r.value[i] <= MaxLevel
    ensures r.Failure? ==> r.error == ParseFailure || r.error == OutOfRange
  {
    if parts == [] then Success([])
    else
      match ParseLevel(parts[0])
      case Failure(e) => Failure(e)
      case Success(v) =>
        match ParseLevels(parts[1..])
        case Failure(e) => Failure(e)
        case Success(rest) => Success([v] + rest)
  }

  /**
   * StringToIndexPath. Blank input is EmptyInput; more than 10 dot-separated
   * parts is TooDeep; otherwise the parts are read in order (ParseFailure,
   * OutOfRange) and packed. Go returns 0 together with the error.
   */
  function Encode(s: string): (r: Result<Int64, CodecError>)
    ensures r.Success? ==> 0 <= r.value < KeyLimit
    ensures r == Failure(EmptyInput) <==> TrimSpace(s) == []
    ensures r == Failure(TooDeep) <==> TrimSpace(s) != [] && Count(s, '.') >= MaxDepth
  {
    if TrimSpace(s) == [] then Failure(EmptyInput)
    else
      var parts := Split(s, '.');
      if |parts| > MaxDepth then Failure(TooDeep)
      else
        match ParseLevels(parts)
        case Failure(e) => Failure(e)
        case Success(levels) =>
          PackBelowLimit(levels);
          Success(Pack(levels))
  }

  // ---------------------------------------------------------------------------
  // Decode (IndexPathToString)
  // ---------------------------------------------------------------------------

  /** The fields from level `i` down, stopping at the first zero field. */
  function Fields(v: int, i: nat): seq<nat>
    requires i <= MaxDepth
    decreases MaxDepth - i
  {
    if i == MaxDepth || Field(v, i) == 0 then [] else [Field(v, i)] + Fields(v, i + 1)
  }

  /** IndexPathToString: 0 is "", otherwise the leading non-zero fields joined with ".". */
  function Decode(v: Int64): string
  {
    if v == 0 then [] else Format(Fields(v, 0))
  }

  // ---------------------------------------------------------------------------
  // Shift lemmas
  // ---------------------------------------------------------------------------

  lemma {:induction false} ShlZero(k: nat)
    ensures Shl(0, k) == 0
  {
    if k > 0 {
      ShlZero(k - 1);
    }
  }

  /** Shifting distributes over addition. */
  lemma {:induction false} ShlLinear(a: int, b: int, k: nat)
    ensures Shl(a + b, k) == Shl(a, k) + Shl(b, k)
  {
    if k > 0 {
      ShlLinear(a, b, k - 1);
    }
  }

  lemma {:induction false} ShrZero(k: nat)
    ensures Shr(0, k) == 0
  {
    if k > 0 {
      ShrZero(k - 1);
    }
  }

  lemma {:induction false} ShlGrows(c: int, k: nat)
    requires c >= 0
    ensures Shl(c, k) >= c
  {
    if k > 0 {
      ShlGrows(c, k - 1);
    }
  }

  /** Shifting is monotone, and strictly so. */
  lemma ShlMono(a: int, b: int, k: nat)
    requires a <= b
    ensures Shl(a, k) + (b - a) <= Shl(b, k)
  {
    ShlLinear(a, b - a, k);
    ShlGrows(b - a, k);
  }

  /** Shifting left by k multiplies by 1 << k. */
  lemma {:induction false} ShlScale(v: int, k: nat)
    ensures Shl(v, k) == v * Shl(1, k)
  {
    if k > 0 {
      ShlScale(v, k - 1);
      assert v * (2 * Shl(1, k - 1)) == 2 * (v * Shl(1, k - 1));
    }
  }

  lemma {:induction false} ShlAdd(v: int, a: nat, b: nat)
    ensures Shl(v, a + b) == Shl(Shl(v, a), b)
  {
    if b > 0 {
      ShlAdd(v, a, b - 1);
    }
  }

  lemma ShlSix(v: int)
    ensures Shl(v, 6) == 64 * v
  {
    assert Shl(v, 1) == 2 * v;
    assert Shl(v, 2) == 4 * v;
    assert Shl(v, 3) == 8 * v;
    assert Shl(v, 4) == 16 * v;
    assert Shl(v, 5) == 32 * v;
  }

  /** A shift by 6 + k is a shift by k of 64 times the value. */
  lemma ShlField(v: int, k: nat)
    ensures Shl(v, 6 + k) == Shl(64 * v, k)
  {
    ShlAdd(v, 6, k);
    ShlSix(v);
  }

  /** Shifting right by k undoes shifting left by k, whatever lies in the low k bits. */
  lemma {:induction false} ShrShl(x: int, t: int, k: nat)
    requires 0 <= t < Shl(1, k)
    ensures Shr(Shl(x, k) + t, k) == x
  {
    if k > 0 {
      var a := Shl(x, k - 1);
      assert (2 * a + t) / 2 == a + t / 2;
      ShrShl(x, t / 2, k - 1);
    }
  }

  lemma KeyLimitValue()
    ensures Shl(1, 60) == KeyLimit
  {
    ShlField(1, 54);
    ShlField(64, 48);
    ShlField(4_096, 42);
    ShlField(262_144, 36);
    ShlField(16_777_216, 30);
    ShlField(1_073_741_824, 24);
    ShlField(68_719_476_736, 18);
    ShlField(4_398_046_511_104, 12);
    ShlField(281_474_976_710_656, 6);
    ShlField(18_014_398_509_481_984, 0);
  }

  // ---------------------------------------------------------------------------
  // Packing lemmas
  // ---------------------------------------------------------------------------

  /** The base-64 value of the levels, the first level most significant. */
  function Horner(levels: seq<nat>): nat
  {
    if levels == [] then 0 else Horner(levels[..|levels| - 1]) * 64 + levels[|levels| - 1]
  }

  /** A key placed from depth d lies between its first level's field and the next value of that field. */
  lemma {:induction false} PackBound(levels: seq<nat>, d: nat)
    requires d + |levels| <= MaxDepth && InRange(levels)
    ensures 0 <= PackFrom(levels, d) < Shl(1, 60 - 6 * d)
  {
    if levels != [] {
      var x, s, t := levels[0], Shift(d), PackFrom(levels[1..], d + 1);
      assert 0 <= t < Shl(1, s) by {
        PackBound(levels[1..], d + 1);
        assert 60 - 6 * (d + 1) == s;
      }
      assert Shl(1, 60 - 6 * d) == Shl(64, s) by {
        ShlField(1, s);
        assert 60 - 6 * d == 6 + s;
      }
      ShlMono(0, x, s);
      ShlZero(s);
      ShlMono(x + 1, 64, s);
      ShlLinear(x, 1, s);
    } else {
      ShlGrows(1, 60 - 6 * d);
    }
  }

  /** Every packed key fits in the ten fields, so below the sign bit of an int64. */
  lemma PackBelowLimit(levels: seq<nat>)
    requires |levels| <= MaxDepth && InRange(levels)
    ensures 0 <= Pack(levels) < KeyLimit
  {
    PackBound(levels, 0);
    KeyLimitValue();
  }

  /** The key placed from depth d starts with the field of its first level. */
  lemma PackFromHead(levels: seq<nat>, d: nat)
    requires levels != [] && d + |levels| <= MaxDepth && InRange(levels)
    ensures Shl(levels[0], Shift(d)) <= PackFrom(levels, d) < Shl(levels[0] + 1, Shift(d))
  {
    PackBound(levels[1..], d + 1);
    assert 60 - 6 * (d + 1) == Shift(d);
    ShlLinear(levels[0], 1, Shift(d));
  }

  /** The key is the base-64 value of the first i + 1 levels in the field of level i, plus the rest. */
  lemma {:induction false} PackPrefix(levels: seq<nat>, i: nat)
    requires i < |levels| <= MaxDepth
    ensures Pack(levels) == Shl(Horner(levels[..i + 1]), Shift(i)) + PackFrom(levels[i + 1..], i + 1)
  {
    var h := Horner(levels[..i + 1]);
    var x := levels[i];
    var rest := PackFrom(levels[i + 1..], i + 1);
    assert levels[..i + 1][..i] == levels[..i];
    assert h == Horner(levels[..i]) * 64 + x;
    if i == 0 {
      assert levels[..0] == [];
      assert levels[1..] == levels[i + 1..];
    } else {
      var s := Shift(i);
      assert Pack(levels) == Shl(Horner(levels[..i]), 6 + s) + PackFrom(levels[i..], i) by {
        PackPrefix(levels, i - 1);
        assert levels[..i - 1 + 1] == levels[..i] && Shift(i - 1) == 6 + s;
      }
      assert PackFrom(levels[i..], i) == Shl(x, s) + rest by {
        assert levels[i..][1..] == levels[i + 1..];
      }
      ShlField(Horner(levels[..i]), s);
      ShlLinear(Horner(levels[..i]) * 64, x, s);
    }
  }

  /** Field i of a packed key holds level i, and 0 below the last level. */
  lemma FieldOfPack(levels: seq<nat>, i: nat)
    requires |levels| <= MaxDepth && i < MaxDepth && InRange(levels)
    ensures Field(Pack(levels), i) == if i < |levels| then levels[i] else 0
  {
    if i < |levels| {
      FieldInside(levels, i);
    } else {
      FieldBeyond(levels, i);
    }
  }

  lemma FieldInside(levels: seq<nat>, i: nat)
    requires i < |levels| <= MaxDepth && InRange(levels)
    ensures Field(Pack(levels), i) == levels[i]
  {
    ShiftedPrefix(levels, i);
    assert levels[..i + 1][..i] == levels[..i];
    assert Horner(levels[..i + 1]) == Horner(levels[..i]) * 64 + levels[i];
    LowField(Horner(levels[..i]), levels[i]);
  }

  /** Shifting the key right to the field of level i leaves the base-64 value of the first i + 1 levels. */
  lemma ShiftedPrefix(levels: seq<nat>, i: nat)
    requires i < |levels| <= MaxDepth && InRange(levels)
    ensures Shr(Pack(levels), Shift(i)) == Horner(levels[..i + 1])
  {
    var h := Horner(levels[..i + 1]);
    var t := PackFrom(levels[i + 1..], i + 1);
    PackPrefix(levels, i);
    assert 0 <= t < Shl(1, Shift(i)) by {
      PackBound(levels[i + 1..], i + 1);
      assert 60 - 6 * (i + 1) == Shift(i);
    }
    ShrShl(h, t, Shift(i));
  }

  /** The low six bits of 64 * high + low, for a six-bit low. */
  lemma LowField(high: int, low: int)
    requires 0 <= low < 64
    ensures (high * 64 + low) % 64 == low
  {
  }

  lemma FieldBeyond(levels: seq<nat>, i: nat)
    requires |levels| <= i < MaxDepth && InRange(levels)
    ensures Field(Pack(levels), i) == 0
  {
    var padded := levels + seq(i + 1 - |levels|, _ => 0);
    PackZeros(levels, i + 1 - |levels|, 0);
    FieldInside(padded, i);
  }

  /** Zero levels after the last one add nothing to the key. */
  lemma {:induction false} PackZeros(levels: seq<nat>, k: nat, d: nat)
    requires d + |levels| + k <= MaxDepth
    ensures PackFrom(levels + seq(k, _ => 0), d) == PackFrom(levels, d)
  {
    var z: seq<nat> := seq(k, _ => 0);
    if levels == [] {
      assert levels + z == z;
      if k > 0 {
        assert z[1..] == seq(k - 1, _ => 0);
        PackZeros([], k - 1, d + 1);
        assert [] + seq(k - 1, _ => 0) == seq(k - 1, _ => 0);
        ShlZero(Shift(d));
      }
    } else {
      assert (levels + z)[1..] == levels[1..] + z;
      PackZeros(levels[1..], k, d + 1);
    }
  }

  /** Reading the fields of a packed key gives the levels up to the first zero. */
  lemma {:induction false} FieldsOfPack(levels: seq<nat>, i: nat)
    requires |levels| <= MaxDepth && i <= MaxDepth && InRange(levels)
    ensures Fields(Pack(levels), i) == if i < |levels| then TakeNonZero(levels[i..]) else []
    decreases MaxDepth - i
  {
    if i < MaxDepth {
      FieldOfPack(levels, i);
      if i < |levels| && levels[i] != 0 {
        FieldsOfPack(levels, i + 1);
        assert levels[i..][1..] == levels[i + 1..];
        if i + 1 == |levels| {
          assert levels[i + 1..] == [];
        }
      }
    }
  }

  // ---------------------------------------------------------------------------
  // What the codec promises
  // ---------------------------------------------------------------------------

  /**
   * Decoding a packed key gives the dotted form of the levels before the first
   * zero level: a zero level ends the path, whatever follows it.
   */
  lemma DecodePack(levels: seq<nat>)
    requires |levels| <= MaxDepth && InRange(levels)
    ensures 0 <= Pack(levels) < KeyLimit
    ensures Decode(Pack(levels)) == Format(TakeNonZero(levels))
  {
    PackBelowLimit(levels);
    var v := Pack(levels);
    assert Fields(v, 0) == TakeNonZero(levels) by {
      FieldsOfPack(levels, 0);
      if |levels| == 0 {
        assert TakeNonZero(levels) == [];
      } else {
        assert levels[0..] == levels;
      }
    }
    if v == 0 {
      ShrZero(Shift(0));
    }
  }

  lemma {:induction false} TakeNonZeroOfValid(levels: seq<nat>)
    requires forall j :: 0 <= j < |levels| ==> levels[j] != 0
    ensures TakeNonZero(levels) == levels
  {
    if levels != [] {
      TakeNonZeroOfValid(levels[1..]);
    }
  }

  /** Parsing the decimals of any readable levels: the levels back, or OutOfRange. */
  lemma {:induction false} ParseDecimals(levels: seq<nat>)
    requires Readable(levels)
    ensures ParseLevels(Decimals(levels)) == if InRange(levels) then Success(levels) else Failure(OutOfRange)
  {
    if levels != [] {
      var x, rest := levels[0], levels[1..];
      assert Decimals(levels)[0] == Itoa(x) && Decimals(levels)[1..] == Decimals(rest);
      ParseLevelItoa(x);
      ParseDecimals(rest);
      assert InRange(levels) <==> x <= MaxLevel && InRange(rest);
      if InRange(levels) {
        assert [x] + rest == levels;
      }
    }
  }

  /** A level written by Itoa reads back, and is refused only when above 63. */
  lemma ParseLevelItoa(n: nat)
    requires n <= MaxInt64
    ensures ParseLevel(Itoa(n)) == if n <= MaxLevel then Success(n) else Failure(OutOfRange)
  {
    ItoaPlain(n);
    TrimSpaceOfTrimmed(Itoa(n));
    AtoiItoa(n);
  }

  /** The parts are read in order: the first part that fails decides the error of the whole path. */
  lemma {:induction false} FirstFailingPart(parts: seq<string>, i: nat)
    requires i < |parts| && ParseLevel(parts[i]).Failure?
    requires forall j :: 0 <= j < i ==> ParseLevel(parts[j]).Success?
    ensures ParseLevels(parts) == Failure(ParseLevel(parts[i]).error)
  {
    if i > 0 {
      FirstFailingPart(parts[1..], i - 1);
      assert ParseLevel(parts[0]).Success?;
    }
  }

  /**
   * A path of at most 10 levels whose first unreadable part is not a number
   * (after trimming) is a ParseFailure.
   */
  lemma EncodeNonNumeric(s: string, i: nat)
    requires TrimSpace(s) != [] && Count(s, '.') < MaxDepth
    requires i < |Split(s, '.')| && Atoi(TrimSpace(Split(s, '.')[i])).None?
    requires forall j :: 0 <= j < i ==> ParseLevel(Split(s, '.')[j]).Success?
    ensures Encode(s) == Failure(ParseFailure)
  {
    FirstFailingPart(Split(s, '.'), i);
  }

  /**
   * Encoding the dotted form of any levels: more than 10 levels is TooDeep, a
   * level above 63 is OutOfRange, and otherwise the key is the packed levels.
   */
  lemma EncodeFormat(levels: seq<nat>)
    requires |levels| >= 1 && Readable(levels)
    ensures Encode(Format(levels)) ==
      if |levels| > MaxDepth then Failure(TooDeep)
      else if !InRange(levels) then Failure(OutOfRange)
      else Success(Pack(levels))
  {
    var parts := Decimals(levels);
    forall j | 0 <= j < |parts| ensures '.' !in parts[j] {
      ItoaPlain(levels[j]);
    }
    SplitJoin(parts, '.');
    var s := Format(levels);
    assert parts[0] <= s;
    assert IsDigit(s[0]);
    if |levels| <= MaxDepth {
      ParseDecimals(levels);
    }
  }

  /** Round trip: a valid path's dotted form encodes and decodes back to itself. */
  lemma RoundTrip(levels: seq<nat>)
    requires ValidPath(levels)
    ensures Encode(Format(levels)) == Success(Pack(levels))
    ensures Decode(Pack(levels)) == Format(levels)
  {
    EncodeFormat(levels);
    DecodePack(levels);
    TakeNonZeroOfValid(levels);
  }

  /** Before is a strict total order on level sequences. */
  lemma {:induction false} BeforeTotal(a: seq<nat>, b: seq<nat>)
    ensures Before(a, b) || a == b || Before(b, a)
    ensures !(Before(a, b) && Before(b, a))
  {
    if a != [] && b != [] {
      BeforeTotal(a[1..], b[1..]);
      if a[0] == b[0] && a[1..] == b[1..] {
        assert a == [a[0]] + a[1..] && b == [b[0]] + b[1..];
      }
    }
  }

  lemma {:induction false} BeforePackFrom(a: seq<nat>, b: seq<nat>, d: nat)
    requires d + |a| <= MaxDepth && d + |b| <= MaxDepth
    requires Positive(a) && Positive(b) && Before(a, b)
    ensures PackFrom(a, d) < PackFrom(b, d)
  {
    PackFromHead(b, d);
    if a == [] {
      ShlMono(0, b[0], Shift(d));
      ShlZero(Shift(d));
    } else if a[0] < b[0] {
      PackFromHead(a, d);
      ShlMono(a[0] + 1, b[0], Shift(d));
    } else {
      BeforePackFrom(a[1..], b[1..], d + 1);
    }
  }

  /**
   * Order preservation: for valid paths, the integer order of the keys is the
   * depth-first numeric order of the paths, in both directions, and equal keys
   * mean equal paths.
   */
  lemma PackOrder(a: seq<nat>, b: seq<nat>)
    requires ValidPath(a) && ValidPath(b)
    ensures Pack(a) < Pack(b) <==> Before(a, b)
    ensures Pack(a) == Pack(b) <==> a == b
  {
    BeforeTotal(a, b);
    if Before(a, b) {
      BeforePackFrom(a, b, 0);
    } else if Before(b, a) {
      BeforePackFrom(b, a, 0);
    }
  }

  /** A parent path's key is below the key of every descendant. */
  lemma ParentBeforeDescendant(parent: seq<nat>, rest: seq<nat>)
    requires ValidPath(parent) && ValidPath(parent + rest) && rest != []
    ensures Pack(parent) < Pack(parent + rest)
  {
    PrefixBefore(parent, rest);
    PackOrder(parent, parent + rest);
  }

  lemma {:induction false} PrefixBefore(p: seq<nat>, rest: seq<nat>)
    requires rest != []
    ensures Before(p, p + rest)
  {
    if p != [] {
      assert (p + rest)[1..] == p[1..] + rest;
      PrefixBefore(p[1..], rest);
    }
  }

  /** The whole subtree below `p + [x]` sorts before the next sibling `p + [x + 1]`. */
  lemma SubtreeBeforeNextSibling(p: seq<nat>, x: nat, rest: seq<nat>)
    requires ValidPath(p + [x] + rest) && x < MaxLevel
    ensures ValidPath(p + [x + 1])
    ensures Pack(p + [x] + rest) < Pack(p + [x + 1])
  {
    var q := p + [x + 1];
    assert forall j :: 0 <= j < |p| ==> q[j] == (p + [x] + rest)[j];
    assert (p + [x] + rest)[|p|] == x;
    SiblingBefore(p, x, rest);
    PackOrder(p + [x] + rest, q);
  }

  lemma {:induction false} SiblingBefore(p: seq<nat>, x: nat, rest: seq<nat>)
    ensures Before(p + [x] + rest, p + [x + 1])
  {
    if p == [] {
      assert ([] + [x] + rest)[0] == x;
    } else {
      assert (p + [x] + rest)[1..] == p[1..] + [x] + rest;
      assert (p + [x + 1])[1..] == p[1..] + [x + 1];
      SiblingBefore(p[1..], x, rest);
    }
  }

  /** Order preservation stated on the dotted strings. */
  lemma EncodeOrder(a: seq<nat>, b: seq<nat>)
    requires ValidPath(a) && ValidPath(b)
    ensures Encode(Format(a)).Success? && Encode(Format(b)).Success?
    ensures Encode(Format(a)).value < Encode(Format(b)).value <==> Before(a, b)
  {
    RoundTrip(a);
    RoundTrip(b);
    PackOrder(a, b);
  }
}

/** Worked cases of the codec, the ones its tests check. */
module IndexPathExamples {
  import opened Wrappers
  import opened Text
  import opened IndexPath

  /** "1.2" is (1 << 54) | (2 << 48), and decodes back to "1.2". */
  lemma OneTwo()
    ensures Encode("1.2") == Success(0x42_0000_0000_0000)
    ensures Decode(0x42_0000_0000_0000) == "1.2"
  {
    FormatOf([1, 2], ["1", "2"], "1.2");
    PackOneTwo();
    RoundTrip([1, 2]);
  }

  lemma PackOneTwo()
    ensures Pack([1, 2]) == 0x42_0000_0000_0000
  {
    var p := Shl(1, 48);
    assert p == 0x1_0000_0000_0000 by {
      ShlField(1, 42);
      ShlField(64, 36);
      ShlField(4_096, 30);
      ShlField(262_144, 24);
      ShlField(16_777_216, 18);
      ShlField(1_073_741_824, 12);
      ShlField(68_719_476_736, 6);
      ShlField(4_398_046_511_104, 0);
    }
    assert Pack([1, 2]) == Shl(1, 54) + Shl(2, 48) by {
      assert [1, 2][1..] == [2];
    }
    ShlField(1, 48);
    ShlScale(64, 48);
    ShlScale(2, 48);
  }

  /** Blank input is refused with 0, and key 0 decodes to "". */
  lemma Empty()
    ensures Encode("") == Failure(EmptyInput)
    ensures Encode(" \t ") == Failure(EmptyInput)
    ensures Decode(0) == ""
  {
  }

  /** A level that is not a number: "x" is a ParseFailure. */
  lemma NotANumber()
    ensures Encode("x") == Failure(ParseFailure)
  {
    EncodeNonDigit('x');
  }

  /** A one-character path that is neither a digit, a sign, a dot nor a space is a ParseFailure. */
  lemma EncodeNonDigit(c: char)
    requires !IsSpace(c) && !IsDigit(c) && c != '.' && c != '+' && c != '-'
    ensures Encode([c]) == Failure(ParseFailure)
  {
    SplitNoSeparator([c], '.');
    TrimSpaceOfTrimmed([c]);
    EncodeNonNumeric([c], 0);
  }

  /** A level above 63 is refused. */
  lemma SixtyFourOne()
    ensures Encode("64.1") == Failure(OutOfRange)
  {
    FormatOf([64, 1], ["64", "1"], "64.1");
    assert !InRange([64, 1]);
    EncodeFormat([64, 1]);
  }

  /** A zero level ends the path on decoding: "1.0.2" encodes, but reads back as "1". */
  lemma ZeroLevel()
    ensures Encode("1.0.2").Success?
    ensures Decode(Encode("1.0.2").value) == "1"
  {
    var levels := [1, 0, 2];
    FormatOf(levels, ["1", "0", "2"], "1.0.2");
    FormatOf([1], ["1"], "1");
    assert TakeNonZero(levels) == [1];
    assert InRange(levels);
    EncodeFormat(levels);
    DecodePack(levels);
  }

  /** Levels compare as numbers, not as text: "1.9" sorts before "1.10". */
  lemma NumericNotTextual()
    ensures Encode("1.9").Success? && Encode("1.10").Success?
    ensures Encode("1.9").value < Encode("1.10").value
  {
    FormatOf([1, 9], ["1", "9"], "1.9");
    FormatOf([1, 10], ["1", "10"], "1.10");
    assert ValidPath([1, 9]) && ValidPath([1, 10]);
    assert Before([1, 9], [1, 10]);
    EncodeOrder([1, 9], [1, 10]);
  }

  /** The deepest descendant of "1" with the largest levels sorts before "2". */
  lemma SubtreeBeforeTwo()
    ensures Encode("1.63.63.63").Success? && Encode("2").Success?
    ensures Encode("1.63.63.63").value < Encode("2").value
  {
    FormatDeepest();
    FormatOf([2], ["2"], "2");
    assert ValidPath([1, 63, 63, 63]) && ValidPath([2]);
    assert Before([1, 63, 63, 63], [2]);
    EncodeOrder([1, 63, 63, 63], [2]);
  }

  lemma FormatDeepest()
    ensures Format([1, 63, 63, 63]) == "1.63.63.63"
  {
    FormatOf([1, 63, 63, 63], ["1", "63", "63", "63"], "1.63.63.63");
  }

  /** The dotted form of literal levels, given their decimals. */
  lemma FormatOf(levels: seq<nat>, decimals: seq<string>, s: string)
    requires |decimals| == |levels|
    requires forall i :: 0 <= i < |levels| ==> levels[i] < 100 && Itoa(levels[i]) == decimals[i]
    requires Join(decimals, '.') == s
    ensures Format(levels) == s
  {
    assert Decimals(levels) == decimals;
  }
}
