/** The Q8_0 codec in exact reals: blocks of 32 values share a half-precision scale. */
module Q8Quant {
  import opened Prelude

  type byte = b: int | 0 <= b < 256

  type nonneg = d: real | d >= 0.0

  /** How numbers are computed with: the level of a value at a scale, a level times a scale,
    * and a number's two bytes in half precision.
    */
  datatype Format = Format(level: (real, nonneg) -> int, scaled: (int, real) -> real,
                           encode: real -> (byte, byte), decode: (byte, byte) -> real)

  // A number after a trip through half precision.
  function Stored(f: Format, x: real): real {
    var (lo, hi) := f.encode(x);
    f.decode(lo, hi)
  }

  // Levels and products in exact reals, with any conversions to and from half precision.
  function Exact(encode: real -> (byte, byte), decode: (byte, byte) -> real): Format {
    Format((x: real, d: nonneg) => Level(x, d), (q: int, d: real) => Scaled(q, d), encode, decode)
  }

  function Scaled(q: int, d: real): real {
    q as real * d
  }

  const EPSILON := 0.000000000001

  function Abs(x: real): real {
    if x >= 0.0 then x else -x
  }

  function AbsMax(xs: seq<real>): (m: real)
    ensures m >= 0.0 && forall i :: 0 <= i < |xs| ==> Abs(xs[i]) <= m
    ensures xs != [] ==> exists i :: 0 <= i < |xs| && Abs(xs[i]) == m
  {
    if xs == [] then 0.0
    else
      var m := AbsMax(xs[1..]);
      if Abs(xs[0]) >= m then Abs(xs[0]) else
        assert exists i :: 0 <= i < |xs[1..]| && Abs(xs[1..][i]) == m;
        m
  }

  // To the nearest integer, halves to the even one.
  function Round(x: real): (n: int)
    ensures -0.5 <= n as real - x <= 0.5
    ensures n as real - x == 0.5 || x - n as real == 0.5 ==> n % 2 == 0
  {
    var f := x.Floor;
    var frac := x - f as real;
    if frac < 0.5 || (frac == 0.5 && f % 2 == 0) then f else f + 1
  }

  function Clamp(q: int): (r: int)
    ensures -128 <= r <= 127 && (-128 <= q <= 127 ==> r == q)
    ensures (q > 127 ==> r == 127) && (q < -128 ==> r == -128)
  {
    if q < -128 then -128 else if q > 127 then 127 else q
  }

  // 127 scales are the largest magnitude.
  function Scale(xs: seq<real>): (d: nonneg)
    ensures forall i :: 0 <= i < |xs| ==> Abs(xs[i]) <= 127.0 * d
    ensures xs != [] ==> exists i :: 0 <= i < |xs| && Abs(xs[i]) == 127.0 * d
  {
    AbsMax(xs) / 127.0
  }

  function Level(x: real, d: nonneg): int {
    Round(x / (d + EPSILON))
  }

  // int8 seen as uint8, and back.
  function ToByte(q: int): byte
    requires -128 <= q <= 127
  {
    if q < 0 then q + 256 else q
  }

  function FromByte(b: byte): int {
    if b >= 128 then b - 256 else b
  }

  // ----- The memory layout -----

  // A scale in half precision and 32 signed levels.
  datatype Block = Block(lo: byte, hi: byte, levels: seq<int>)

  ghost predicate Packable(b: Block) {
    |b.levels| == 32 && forall i :: 0 <= i < 32 ==> -128 <= b.levels[i] <= 127
  }

  function Pack(b: Block): (bytes: seq<byte>)
    requires Packable(b)
    ensures |bytes| == 34
  {
    [b.lo, b.hi] + seq(32, i requires 0 <= i < 32 => ToByte(b.levels[i]))
  }

  function Unpack(bytes: seq<byte>): (b: Block)
    requires |bytes| == 34
    ensures Packable(b)
  {
    Block(bytes[0], bytes[1], seq(32, i requires 0 <= i < 32 => FromByte(bytes[i + 2])))
  }

  function PackAll(bs: seq<Block>): (bytes: seq<byte>)
    requires forall j :: 0 <= j < |bs| ==> Packable(bs[j])
    ensures |bytes| == 34 * |bs|
  {
    if bs == [] then [] else Pack(bs[0]) + PackAll(bs[1..])
  }

  // Bytes short of a whole block are dropped.
  function UnpackAll(bytes: seq<byte>): (bs: seq<Block>)
    ensures |bs| == |bytes| / 34
    ensures forall j :: 0 <= j < |bs| ==> Packable(bs[j])
    decreases |bytes|
  {
    if |bytes| < 34 then [] else [Unpack(bytes[..34])] + UnpackAll(bytes[34..])
  }

  lemma {:induction false} PackRoundTrip(bs: seq<Block>)
    requires forall j :: 0 <= j < |bs| ==> Packable(bs[j])
    ensures UnpackAll(PackAll(bs)) == bs
  {
    if bs != [] {
      PackRoundTrip(bs[1..]);
      var bytes := PackAll(bs);
      assert bytes[..34] == Pack(bs[0]) && bytes[34..] == PackAll(bs[1..]);
      assert Unpack(Pack(bs[0])).levels == bs[0].levels;
    }
  }

  lemma {:induction false} PackAllAt(bs: seq<Block>, j: nat)
    requires forall k :: 0 <= k < |bs| ==> Packable(bs[k])
    requires j < |bs|
    ensures PackAll(bs)[34 * j..34 * j + 34] == Pack(bs[j])
    decreases j
  {
    var first, later := Pack(bs[0]), PackAll(bs[1..]);
    if j > 0 {
      PackAllAt(bs[1..], j - 1);
      assert (first + later)[34 * j..34 * j + 34] == later[34 * (j - 1)..34 * (j - 1) + 34];
    }
  }

  // The block of place j starts at byte 34 * j: its scale's two bytes, then a byte for each
  // level, in two's complement.
  lemma PackedAt(bs: seq<Block>, j: nat, i: nat)
    requires forall k :: 0 <= k < |bs| ==> Packable(bs[k])
    requires j < |bs| && i < 32
    ensures var bytes, at := PackAll(bs), 34 * j;
      && at + 34 <= |bytes| && bytes[at] == bs[j].lo && bytes[at + 1] == bs[j].hi
      && Encodes(bytes[at + 2 + i], bs[j].levels[i])
  {
    var bytes, at := PackAll(bs), 34 * j;
    PackAllAt(bs, j);
    PackHas(bs[j], i);
    assert bytes[at..at + 34][0] == bytes[at] && bytes[at..at + 34][1] == bytes[at + 1];
    assert bytes[at..at + 34][2 + i] == bytes[at + 2 + i];
  }

  // Two's complement.
  predicate Encodes(b: byte, q: int) {
    b == q || b == q + 256
  }

  lemma PackHas(b: Block, i: nat)
    requires Packable(b) && i < 32
    ensures Pack(b)[0] == b.lo && Pack(b)[1] == b.hi && Encodes(Pack(b)[2 + i], b.levels[i])
  {
  }

  lemma SliceLater(bytes: seq<byte>, a: nat)
    requires a + 68 <= |bytes|
    ensures bytes[34..][a..a + 34] == bytes[a + 34..a + 68]
  {
  }

  lemma {:induction false} UnpackedAt(bytes: seq<byte>, j: nat)
    requires j < |bytes| / 34
    ensures UnpackAll(bytes)[j] == Unpack(bytes[34 * j..34 * j + 34])
    decreases j
  {
    if j > 0 {
      UnpackedAt(bytes[34..], j - 1);
      SliceLater(bytes, 34 * (j - 1));
    }
  }

  // ----- Quantising and dequantising -----

  function Padded(x: seq<real>): (r: seq<real>)
    ensures |r| % 32 == 0 && |x| <= |r| < |x| + 32
    ensures r[..|x|] == x && forall i :: |x| <= i < |r| ==> r[i] == 0.0
  {
    if |x| % 32 != 0 then x + seq(32 - |x| % 32, i => 0.0) else x
  }

  function Row(x: seq<real>, j: nat): (xs: seq<real>)
    requires 32 * j + 32 <= |x|
    ensures |xs| == 32
    ensures forall i :: 0 <= i < 32 ==> xs[i] == x[32 * j + i]
  {
    x[32 * j..32 * j + 32]
  }

  function QuantizeRow(f: Format, xs: seq<real>): (b: Block)
    requires |xs| == 32
    ensures Packable(b)
  {
    var d := Scale(xs);
    var (lo, hi) := f.encode(d);
    var levels := seq(32, i requires 0 <= i < 32 => Clamp(f.level(xs[i], d)));
    assert forall i :: 0 <= i < 32 ==> levels[i] == Clamp(f.level(xs[i], d));
    Block(lo, hi, levels)
  }

  function QuantizeRows(f: Format, x: seq<real>): (bs: seq<Block>)
    ensures |bs| == |x| / 32
    ensures forall j :: 0 <= j < |bs| ==> Packable(bs[j])
    ensures forall j :: 0 <= j < |bs| ==> bs[j] == QuantizeRow(f, Row(x, j))
  {
    seq(|x| / 32, j requires 0 <= j < |x| / 32 => QuantizeRow(f, Row(x, j)))
  }

  function Quantize(f: Format, x: seq<real>): seq<byte> {
    PackAll(QuantizeRows(f, Padded(x)))
  }

  function Value(f: Format, b: Block, i: nat): real
    requires i < |b.levels|
  {
    Stored(f, f.scaled(b.levels[i], f.decode(b.lo, b.hi)))
  }

  datatype Error = WrongSize

  function Zeros(n: nat): (z: seq<real>)
    ensures |z| == n && forall i :: 0 <= i < n ==> z[i] == 0.0
  {
    seq(n, i => 0.0)
  }

  // n is the number of elements of the requested shape; without any whole block the answer
  // is all zeros, and blocks short of n elements do not reshape.
  function Dequantize(f: Format, bytes: seq<byte>, n: nat): Result<seq<real>, Error> {
    var bs := UnpackAll(bytes);
    if bs == [] then Ok(Zeros(n))
    else if 32 * |bs| < n then Err(WrongSize)
    else Ok(seq(n, k requires 0 <= k < n => Value(f, bs[k / 32], k % 32)))
  }

  // A byte read as a signed number.
  function Signed(b: byte): (q: int)
    ensures -128 <= q <= 127 && Encodes(b, q)
  {
    FromByte(b)
  }

  // Dequantising any bytes: the element at place k is the level at its own place times its
  // own block's scale, in half precision.
  lemma DequantizedAt(f: Format, bytes: seq<byte>, n: nat, k: nat)
    requires k < n <= 32 * (|bytes| / 34)
    ensures var at := 34 * (k / 32); var r := Dequantize(f, bytes, n);
      && r.Ok? && |r.value| == n
      && r.value[k] == Stored(f, f.scaled(Signed(bytes[at + 2 + k % 32]), f.decode(bytes[at], bytes[at + 1])))
  {
    UnpackedAt(bytes, k / 32);
  }

  // Without a whole block the answer is all zeros; with too few it is an error.
  lemma DequantizeShort(f: Format, bytes: seq<byte>, n: nat)
    ensures |bytes| < 34 ==>
      var r := Dequantize(f, bytes, n); r.Ok? && |r.value| == n && forall k :: 0 <= k < n ==> r.value[k] == 0.0
    ensures Dequantize(f, bytes, n).Err? <==> |bytes| >= 34 && 32 * (|bytes| / 34) < n
  {
  }

  // ----- One element -----

  lemma Quotient(x: real, s: real)
    requires s > 0.0
    ensures x / s * s == x
  {
  }

  lemma NonNegativeProduct(a: real, b: real)
    requires a >= 0.0 && b >= 0.0
    ensures a * b >= 0.0
  {
  }

  lemma Positive(a: real, b: real) returns (ab: real)
    requires a > 0.0 && b > 0.0
    ensures ab == a * b && ab > 0.0
  {
    ab := a * b;
  }

  lemma CompareScaled(a: real, b: real, s: real)
    requires s > 0.0
    ensures a < b <==> a * s < b * s
  {
    if a < b {
      var p := Positive(b - a, s);
    } else if b < a {
      var p := Positive(a - b, s);
    }
  }

  lemma QuotientBound(y: real, s: real)
    requires s > 0.0 && -127.0 * s <= y * s <= 127.0 * s
    ensures -127.0 <= y <= 127.0
  {
    CompareScaled(127.0, y, s);
    CompareScaled(y, -127.0, s);
  }

  lemma RatioInRange(x: real, d: real)
    requires 0.0 <= d && Abs(x) <= 127.0 * d
    ensures -127.0 <= x / (d + EPSILON) <= 127.0
  {
    Quotient(x, d + EPSILON);
    QuotientBound(x / (d + EPSILON), d + EPSILON);
  }

  lemma LevelInRange(x: real, d: nonneg)
    requires Abs(x) <= 127.0 * d
    ensures -127 <= Level(x, d) <= 127
  {
    RatioInRange(x, d);
  }

  lemma ProductBound(a: real, b: real, m: real, w: real)
    requires -m <= a <= m && -w <= b <= w
    ensures -(m * w) <= a * b <= m * w
  {
    NonNegativeProduct(m - a, w + b);
    NonNegativeProduct(m + a, w - b);
    NonNegativeProduct(m - a, w - b);
    NonNegativeProduct(m + a, w + b);
    assert (m - a) * (w + b) + (m + a) * (w - b) == 2.0 * (m * w) - 2.0 * (a * b);
    assert (m - a) * (w - b) + (m + a) * (w + b) == 2.0 * (m * w) + 2.0 * (a * b);
  }

  lemma Bounded(a: real, b: real, m: real, w: real) returns (ab: real)
    requires -m <= a <= m && -w <= b <= w
    ensures ab == a * b && -(m * w) <= ab <= m * w
  {
    ProductBound(a, b, m, w);
    ab := a * b;
  }

  lemma Split(x: real, y: real, q: real, d: real, d': real, e: real, a: real, b: real, c: real)
    requires y * (d + e) == x && a == (q - y) * d && b == y * e && c == q * (d' - d)
    ensures q * d' - x == a - b + c
  {
  }

  lemma Parts(x: real, y: real, q: real, d: real, d': real, e: real, w: real) returns (a: real, b: real, c: real)
    requires y * (d + e) == x && d >= 0.0 && e >= 0.0 && -w <= d' - d <= w
    requires -0.5 <= q - y <= 0.5 && -127.0 <= y <= 127.0 && -127.0 <= q <= 127.0
    ensures a - b + c == q * d' - x
    ensures -(0.5 * d) <= a <= 0.5 * d && -(127.0 * e) <= b <= 127.0 * e && -(127.0 * w) <= c <= 127.0 * w
  {
    a := Bounded(q - y, d, 0.5, d);
    b := Bounded(y, e, 127.0, e);
    c := Bounded(q, d' - d, 127.0, w);
    Split(x, y, q, d, d', e, a, b, c);
  }

  // y is the exact ratio, q its rounding, d' the scale as stored. Then q * d' misses x by
  // the rounding of q, by what the epsilon e took off the ratio, and by the scale's error.
  lemma ErrorParts(x: real, y: real, q: real, d: real, d': real, e: real, w: real)
    requires y * (d + e) == x && d >= 0.0 && e >= 0.0 && -w <= d' - d <= w
    requires -0.5 <= q - y <= 0.5 && -127.0 <= y <= 127.0 && -127.0 <= q <= 127.0
    ensures -(0.5 * d + 127.0 * e + 127.0 * w) <= q * d' - x <= 0.5 * d + 127.0 * e + 127.0 * w
  {
    var a, b, c := Parts(x, y, q, d, d', e, w);
  }

  function Bound(d: real, d': real): real {
    d / 2.0 + 127.0 * EPSILON + 127.0 * Abs(d' - d)
  }

  lemma BoundIs(d: real, d': real)
    ensures var gap := if d' >= d then d' - d else d - d';
      Bound(d, d') == d / 2.0 + 0.000000000127 + 127.0 * gap
  {
  }

  // ----- Formats that are accurate enough -----

  // Up to 127 scales the level stays within 127, so that the clamp never acts.
  ghost predicate InRange(f: Format) {
    forall x: real, d: nonneg :: Abs(x) <= 127.0 * d ==> -127 <= f.level(x, d) <= 127
  }

  ghost predicate Accurate(f: Format) {
    forall x: real, d: nonneg, d': real :: Abs(x) <= 127.0 * d ==>
      Abs(f.scaled(f.level(x, d), d') - x) <= Bound(d, d')
  }

  lemma ExactInRange(encode: real -> (byte, byte), decode: (byte, byte) -> real)
    ensures InRange(Exact(encode, decode))
  {
    forall x: real, d: nonneg | Abs(x) <= 127.0 * d ensures -127 <= Level(x, d) <= 127 {
      LevelInRange(x, d);
    }
  }

  lemma ExactAccurate(encode: real -> (byte, byte), decode: (byte, byte) -> real)
    ensures Accurate(Exact(encode, decode))
  {
    forall x: real, d: nonneg, d': real | Abs(x) <= 127.0 * d
      ensures var f := Exact(encode, decode); Abs(f.scaled(f.level(x, d), d') - x) <= Bound(d, d')
    {
      ExactError(encode, decode, x, d, d');
    }
  }

  lemma ExactError(encode: real -> (byte, byte), decode: (byte, byte) -> real, x: real, d: nonneg, d': real)
    requires Abs(x) <= 127.0 * d
    ensures var f := Exact(encode, decode); Abs(f.scaled(f.level(x, d), d') - x) <= Bound(d, d')
  {
    LevelError(x, d, d');
  }

  // The exact ratio behind a level.
  lemma LevelRatio(x: real, d: nonneg) returns (y: real)
    requires Abs(x) <= 127.0 * d
    ensures y * (d + EPSILON) == x && -127.0 <= y <= 127.0
    ensures -0.5 <= Level(x, d) as real - y <= 0.5
    ensures y == 126.5 ==> Level(x, d) != 127
  {
    y := x / (d + EPSILON);
    RatioInRange(x, d);
    Quotient(x, d + EPSILON);
  }

  // The largest value of a block takes the last level unless the epsilon weighs in.
  lemma LargestLevel(d: nonneg)
    ensures Level(127.0 * d, d) == 127 <==> d > 253.0 * EPSILON
  {
    var y := LevelRatio(127.0 * d, d);
    LargestRatio(y, d, EPSILON);
  }

  lemma LargestRatio(y: real, d: real, e: real)
    requires 0.0 <= d && 0.0 < e && y * (d + e) == 127.0 * d
    ensures y > 126.5 <==> d > 253.0 * e
  {
    CompareScaled(126.5, y, d + e);
  }

  lemma LevelError(x: real, d: nonneg, d': real)
    requires Abs(x) <= 127.0 * d
    ensures Abs(Scaled(Level(x, d), d') - x) <= Bound(d, d')
  {
    var y := LevelRatio(x, d);
    LevelInRange(x, d);
    ScaledError(x, y, Level(x, d), d, d');
  }

  lemma ScaledError(x: real, y: real, q: int, d: nonneg, d': real)
    requires y * (d + EPSILON) == x
    requires -0.5 <= q as real - y <= 0.5 && -127.0 <= y <= 127.0 && -127 <= q <= 127
    ensures Abs(Scaled(q, d') - x) <= Bound(d, d')
  {
    RatioError(x, y, q as real, d, d');
  }

  lemma RatioError(x: real, y: real, q: real, d: nonneg, d': real)
    requires y * (d + EPSILON) == x
    requires -0.5 <= q - y <= 0.5 && -127.0 <= y <= 127.0 && -127.0 <= q <= 127.0
    ensures Abs(q * d' - x) <= Bound(d, d')
  {
    ErrorParts(x, y, q, d, d', EPSILON, Abs(d' - d));
  }

  // ----- The round trip -----

  // v is the level times the stored scale, which is within the bound of position i, in
  // half precision.
  ghost predicate Near(f: Format, xs: seq<real>, i: nat, v: real)
    requires i < |xs|
  {
    var d, d' := Scale(xs), Stored(f, Scale(xs));
    var y := f.scaled(f.level(xs[i], d), d');
    v == Stored(f, y) && Abs(y - xs[i]) <= Bound(d, d')
  }

  // The clamp never acts, and what is dequantised is near.
  lemma RowRoundTrip(f: Format, xs: seq<real>, i: nat)
    requires |xs| == 32 && i < 32 && InRange(f) && Accurate(f)
    ensures QuantizeRow(f, xs).levels[i] == f.level(xs[i], Scale(xs))
    ensures Near(f, xs, i, Value(f, QuantizeRow(f, xs), i))
  {
    assert Abs(xs[i]) <= 127.0 * Scale(xs);
  }

  // Unpacked and scaled, position k comes from its own row.
  lemma Decoded(f: Format, bs: seq<Block>, n: nat)
    requires forall j :: 0 <= j < |bs| ==> Packable(bs[j])
    requires n <= 32 * |bs| < n + 32
    ensures var r := Dequantize(f, PackAll(bs), n);
      && r.Ok? && |r.value| == n
      && forall k :: 0 <= k < n ==> r.value[k] == Value(f, bs[k / 32], k % 32)
  {
    PackRoundTrip(bs);
  }

  // Position k of x is in row k / 32.
  lemma RowHolds(x: seq<real>, k: nat)
    requires k < |x|
    ensures 32 * (k / 32) + 32 <= |Padded(x)| && Row(Padded(x), k / 32)[k % 32] == x[k]
  {
    assert Padded(x)[..|x|][k] == x[k];
  }

  lemma ValueNear(f: Format, x: seq<real>, k: nat)
    requires InRange(f) && Accurate(f) && k < |x|
    ensures k / 32 < |Padded(x)| / 32
    ensures NearAt(f, x, k, Value(f, QuantizeRows(f, Padded(x))[k / 32], k % 32))
  {
    RowHolds(x, k);
    RowRoundTrip(f, Row(Padded(x), k / 32), k % 32);
  }

  lemma RowPlace(x: seq<real>, j: nat, i: nat)
    requires i < 32 && 32 * j + i < |x|
    ensures 32 * j + 32 <= |Padded(x)| && Row(Padded(x), j)[i] == x[32 * j + i]
  {
    var k := 32 * j + i;
    assert k / 32 == j && k % 32 == i;
    RowHolds(x, k);
  }

  lemma RowBlock(f: Format, xs: seq<real>, i: nat)
    requires |xs| == 32 && i < 32 && InRange(f)
    ensures var b := QuantizeRow(f, xs);
      (b.lo, b.hi) == f.encode(Scale(xs)) && b.levels[i] == f.level(xs[i], Scale(xs))
  {
    assert Abs(xs[i]) <= 127.0 * Scale(xs);
  }

  // Where element 32 * j + i goes: its level in two's complement, at the scale d of its row,
  // into byte 2 + i of block j, after the two bytes of d.
  lemma QuantizedAt(f: Format, x: seq<real>, j: nat, i: nat) returns (d: nonneg)
    requires InRange(f) && i < 32 && 32 * j + i < |x|
    ensures var bytes, at := Quantize(f, x), 34 * j;
      && at + 34 <= |bytes| && (bytes[at], bytes[at + 1]) == f.encode(d)
      && Encodes(bytes[at + 2 + i], f.level(x[32 * j + i], d))
    ensures IsScale(x, j, d)
  {
    RowPlace(x, j, i);
    var xs := Row(Padded(x), j);
    d := Scale(xs);
    RowBlock(f, xs, i);
    PackedAt(QuantizeRows(f, Padded(x)), j, i);
    ScaleOfRow(x, j);
  }

  // 127 * d is the largest magnitude among the elements of x in row j, those past its end
  // counting as zero.
  ghost predicate IsScale(x: seq<real>, j: nat, d: real) {
    && (forall k :: 0 <= k < |x| && k / 32 == j ==> -127.0 * d <= x[k] <= 127.0 * d)
    && (d == 0.0 || exists k :: 0 <= k < |x| && k / 32 == j && x[k] in {127.0 * d, -127.0 * d})
  }

  lemma ScaleOfRow(x: seq<real>, j: nat)
    requires 32 * j < |x|
    ensures 32 * j + 32 <= |Padded(x)| && IsScale(x, j, Scale(Row(Padded(x), j)))
  {
    RowPlace(x, j, 0);
    var xs := Row(Padded(x), j);
    forall k | 0 <= k < |x| && k / 32 == j ensures -127.0 * Scale(xs) <= x[k] <= 127.0 * Scale(xs) {
      RowHolds(x, k);
    }
    var i :| 0 <= i < |xs| && Abs(xs[i]) == 127.0 * Scale(xs);
    if 32 * j + i < |x| {
      RowPlace(x, j, i);
    }
  }

  // Quantising gives ceil(n / 32) blocks of 34 bytes, from which dequantising gives exactly
  // the n elements back in order, each near the one at the same position.
  lemma RoundTrip(f: Format, x: seq<real>)
    requires InRange(f) && Accurate(f)
    ensures |Quantize(f, x)| == (|x| + 31) / 32 * 34
    ensures var r := Dequantize(f, Quantize(f, x), |x|);
      && r.Ok? && |r.value| == |x|
      && forall k :: 0 <= k < |x| ==> NearAt(f, x, k, r.value[k])
  {
    var bs := QuantizeRows(f, Padded(x));
    Decoded(f, bs, |x|);
    forall k | 0 <= k < |x| ensures NearAt(f, x, k, Value(f, bs[k / 32], k % 32)) {
      ValueNear(f, x, k);
    }
  }

  ghost predicate NearAt(f: Format, x: seq<real>, k: nat, v: real)
    requires k < |x|
  {
    var xs := Row(Padded(x), k / 32);
    xs[k % 32] == x[k] && Near(f, xs, k % 32, v)
  }

  lemma ExactRoundTrip(encode: real -> (byte, byte), decode: (byte, byte) -> real, x: seq<real>)
    ensures var f := Exact(encode, decode); var r := Dequantize(f, Quantize(f, x), |x|);
      && r.Ok? && |r.value| == |x|
      && forall k :: 0 <= k < |x| ==> NearAt(f, x, k, r.value[k])
  {
    ExactInRange(encode, decode);
    ExactAccurate(encode, decode);
    RoundTrip(Exact(encode, decode), x);
  }
}
