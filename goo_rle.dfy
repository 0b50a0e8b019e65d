// Run-length encoding of one GOO layer image (src/export/goo.ts, encodeRLE and
// encodeRunLength).
//
// Layout of one encoded layer: the magic byte 0x55, a sequence of run tokens,
// and a mod-256 checksum of the tokens. The top two bits of a token's first
// byte are its colour class:
//   00  a run of black (0) pixels        11  a run of white (255) pixels
//   01  a run of a grey value, given in a byte after the length bytes
//   10  a differential run: the pixel is the previous run's pixel +/- a 4-bit step
// For classes 00/01/11, bits 4-5 say how many extra length bytes follow (0..3)
// and the low nibble holds the lowest 4 bits of the run length.

module GooRle {
  import opened Bytes
  import opened Wrappers

  /** Colour class of a plain (non-differential) run; the value is its prefix byte. */
  datatype Kind = Black | Grey | White
  {
    function Prefix(): (p: byte)
      ensures p % 64 == 0 && p != 128
    {
      match this
      case Black => 0x00
      case Grey => 0x40
      case White => 0xC0
    }
  }

  /** Number of extra length bytes (the escalation level in bits 4-5). */
  function Level(count: nat): (l: nat)
    ensures l <= 3
    ensures l == 0 <==> count <= 0xF
    ensures l <= 1 <==> count <= 0xFFF
    ensures l <= 2 <==> count <= 0xFFFFF
  {
    if count <= 0xF then 0
    else if count <= 0xFFF then 1
    else if count <= 0xFFFFF then 2
    else 3
  }

  /** Splitting a first byte built from a prefix, a level and a nibble back into its fields. */
  lemma HeadFields(p: byte, level: nat, low: nat)
    requires p % 64 == 0 && level <= 3 && low < 16
    ensures 0 <= p + 16 * level + low < 256
    ensures (p + 16 * level + low) / 64 == p / 64
    ensures ((p + 16 * level + low) / 16) % 4 == level
    ensures (p + 16 * level + low) % 16 == low
  {
    var t := p / 64;
    assert p == 64 * t;
  }

  /** The length bytes after the first: bits 4..11, 12..19 and 20..27 of count. */
  function LengthDigits(count: nat): (r: seq<byte>)
    ensures |r| == Level(count)
  {
    var d1 := (count / 16) % 256;
    var d2 := (count / 4096) % 256;
    var d3 := (count / 1048576) % 256;
    match Level(count)
    case 0 => []
    case 1 => [d1]
    case 2 => [d1, d2]
    case 3 => [d1, d2, d3]
  }

  /**
   * encodeRunLength(result, prefix, count, value): the bytes appended to result.
   * The first byte is prefix | level << 4 | (count & 0xF); for count <= 15 this is
   * prefix | count, as the source writes it.
   */
  function RunLength(kind: Kind, count: nat, value: byte): (r: seq<byte>)
    ensures |r| == 1 + Level(count) + (if kind == Grey then 1 else 0)
    ensures kind == Grey ==> r[|r| - 1] == value
  {
    var head := kind.Prefix() + 16 * Level(count) + count % 16;
    HeadFields(kind.Prefix(), Level(count), count % 16);
    var len := [head] + LengthDigits(count);
    if kind == Grey then len + [value] else len
  }

  /**
   * The fields of the first byte: the top two bits are the colour class, bits 4-5
   * the escalation level, the low nibble the low 4 bits of count; the level's extra
   * bytes follow it.
   */
  lemma RunLengthFields(kind: Kind, count: nat, value: byte)
    ensures var r := RunLength(kind, count, value);
      && r[0] / 64 == kind.Prefix() / 64
      && (r[0] / 16) % 4 == Level(count)
      && r[0] % 16 == count % 16
      && r[1..1 + Level(count)] == LengthDigits(count)
  {
    HeadFields(kind.Prefix(), Level(count), count % 16);
  }

  // ---------------------------------------------------------------------------
  // Runs of equal pixels

  /** The inner counting loop of encodeRLE, started at `count`. */
  function RunFrom(image: seq<byte>, i: nat, count: nat): (r: nat)
    requires i < |image| && 1 <= count <= |image| - i
    ensures count <= r <= |image| - i
    decreases |image| - i - count
  {
    if i + count < |image| && image[i + count] == image[i] then RunFrom(image, i, count + 1)
    else count
  }

  /** Length of the run of equal pixels starting at i. */
  function RunLen(image: seq<byte>, i: nat): (r: nat)
    requires i < |image|
    ensures 1 <= r <= |image| - i
  {
    RunFrom(image, i, 1)
  }

  predicate Uniform(image: seq<byte>, i: nat, n: nat)
    requires i + n <= |image|
  {
    forall k :: i <= k < i + n ==> image[k] == image[i]
  }

  lemma {:induction false} RunFromMaximal(image: seq<byte>, i: nat, count: nat)
    requires i < |image| && 1 <= count <= |image| - i
    requires Uniform(image, i, count)
    ensures Uniform(image, i, RunFrom(image, i, count))
    ensures i + RunFrom(image, i, count) == |image|
         || image[i + RunFrom(image, i, count)] != image[i]
    decreases |image| - i - count
  {
    if i + count < |image| && image[i + count] == image[i] {
      RunFromMaximal(image, i, count + 1);
    }
  }

  /** The run encodeRLE takes is the maximal block of equal pixels. */
  lemma RunLenMaximal(image: seq<byte>, i: nat)
    requires i < |image|
    ensures Uniform(image, i, RunLen(image, i))
    ensures i + RunLen(image, i) == |image| || image[i + RunLen(image, i)] != image[i]
  {
    RunFromMaximal(image, i, 1);
  }

  lemma {:induction false} RunFromUnique(image: seq<byte>, i: nat, count: nat, n: nat)
    requires i < |image| && 1 <= count <= n <= |image| - i
    requires Uniform(image, i, n)
    requires i + n == |image| || image[i + n] != image[i]
    ensures RunFrom(image, i, count) == n
    decreases n - count
  {
    if count < n {
      assert image[i + count] == image[i];
      RunFromUnique(image, i, count + 1, n);
    }
  }

  /** Any maximal uniform block starting at i is the run encodeRLE takes. */
  lemma RunLenUnique(image: seq<byte>, i: nat, n: nat)
    requires i < |image| && 1 <= n <= |image| - i
    requires Uniform(image, i, n)
    requires i + n == |image| || image[i + n] != image[i]
    ensures RunLen(image, i) == n
  {
    RunFromUnique(image, i, 1, n);
  }

  // ---------------------------------------------------------------------------
  // Encoder specification

  /** Whether the differential mode applies to a run (corrected: the count must fit a byte). */
  predicate DiffMode(pixel: byte, count: nat, first: bool, prev: byte)
  {
    !first && pixel != 0 && pixel != 255 && pixel != prev && -15 <= pixel - prev <= 15
    && count <= 255
  }

  /** The tokens for one run of `count` pixels of value `pixel`. */
  function RunCode(pixel: byte, count: nat, first: bool, prev: byte): (r: seq<byte>)
    requires count >= 1
    ensures |r| >= 1
  {
    if pixel == 0 then RunLength(Black, count, 0)
    else if pixel == 255 then RunLength(White, count, 0)
    else if DiffMode(pixel, count, first, prev) then
      var d := if pixel > prev then pixel - prev else prev - pixel;
      var sign := if pixel > prev then 0x80 else 0xA0;
      if count == 1 then [sign + d] else [sign + 0x10 + d, count]
    else RunLength(Grey, count, pixel)
  }

  /**
   * Pixel 0 always takes class 00 and pixel 255 class 11; any other pixel takes the
   * differential class 10 exactly when DiffMode holds, and the grey class 01 otherwise.
   */
  lemma RunCodeClasses(pixel: byte, count: nat, first: bool, prev: byte)
    requires count >= 1
    ensures var r := RunCode(pixel, count, first, prev);
      && (pixel == 0 ==> r == RunLength(Black, count, 0))
      && (pixel == 255 ==> r == RunLength(White, count, 0))
      && (r[0] / 64 == 2 <==> DiffMode(pixel, count, first, prev))
      && (pixel != 0 && pixel != 255 && !DiffMode(pixel, count, first, prev)
          ==> r == RunLength(Grey, count, pixel))
      && (first ==> !DiffMode(pixel, count, first, prev))
  {
  }

  /** Tokens for image[i..], given the previous run's pixel. */
  function EncodeFrom(image: seq<byte>, i: nat, prev: byte): (r: seq<byte>)
    requires i <= |image|
    ensures i == |image| <==> r == []
    decreases |image| - i
  {
    if i == |image| then []
    else
      var count := RunLen(image, i);
      RunCode(image[i], count, i == 0, prev) + EncodeFrom(image, i + count, image[i])
  }

  /** Sum of a byte sequence, accumulated from the left. */
  function Sum(s: seq<byte>): nat
  {
    if |s| == 0 then 0 else Sum(s[..|s| - 1]) + s[|s| - 1]
  }

  function Checksum(body: seq<byte>): (c: byte)
    ensures c == Sum(body) % 256
  {
    Sum(body) % 256
  }

  /** The whole encoded layer, as encodeRLE returns it. */
  function Encode(image: seq<byte>): seq<byte>
  {
    var body := EncodeFrom(image, 0, 0);
    [0x55] + body + [Checksum(body)]
  }

  /**
   * An encoded layer starts with the magic byte 0x55 and ends with the mod-256 sum
   * of the bytes in between; an empty image gives just those two bytes.
   */
  lemma EncodeFraming(image: seq<byte>)
    ensures var r := Encode(image);
      && |r| >= 2 && r[0] == 0x55
      && r[|r| - 1] == Sum(r[1..|r| - 1]) % 256
      && (|image| == 0 <==> |r| == 2)
  {
    var body := EncodeFrom(image, 0, 0);
    assert Encode(image)[1..|body| + 1] == body;
  }

  // ---------------------------------------------------------------------------
  // Encoder as written: the differential count byte is pushed unmasked and
  // the final Uint8Array conversion keeps only its low 8 bits.

  function RunCodeAsWritten(pixel: byte, count: nat, first: bool, prev: byte): (r: seq<int>)
    requires count >= 1
    ensures |r| >= 1
  {
    if pixel == 0 then RunLength(Black, count, 0)
    else if pixel == 255 then RunLength(White, count, 0)
    else if !first && pixel != prev && -15 <= pixel - prev <= 15 then
      var d := if pixel > prev then pixel - prev else prev - pixel;
      var sign := if pixel > prev then 0x80 else 0xA0;
      if count == 1 then [sign + d] else [sign + 0x10 + d, count]
    else RunLength(Grey, count, pixel)
  }

  function EncodeFromAsWritten(image: seq<byte>, i: nat, prev: byte): seq<int>
    requires i <= |image|
    decreases |image| - i
  {
    if i == |image| then []
    else
      var count := RunLen(image, i);
      RunCodeAsWritten(image[i], count, i == 0, prev) + EncodeFromAsWritten(image, i + count, image[i])
  }

  /** new Uint8Array(numbers): each entry is reduced modulo 256. */
  function ToUint8(s: seq<int>): (r: seq<byte>)
    ensures |r| == |s|
    ensures forall k :: 0 <= k < |s| ==> r[k] == s[k] % 256
  {
    seq(|s|, k requires 0 <= k < |s| => s[k] % 256)
  }

  /** Where the differential run fits a byte, the two encoders agree. */
  lemma RunCodeAgrees(pixel: byte, count: nat, first: bool, prev: byte)
    requires 1 <= count <= 255
    ensures RunCodeAsWritten(pixel, count, first, prev) == RunCode(pixel, count, first, prev)
  {
  }

  // ---------------------------------------------------------------------------
  // Decoder: the partner the round trip is stated against

  /** One token: a plain run of a fixed pixel, or a differential step. */
  datatype Token = Fill(pixel: byte, count: nat) | Step(delta: int, count: nat)

  /** Reads one token; returns it with the number of bytes it used. */
  function ParseToken(body: seq<byte>): (r: Option<(Token, nat)>)
    requires |body| >= 1
    ensures r.Some? ==> 1 <= r.value.1 <= |body|
  {
    var b: int := body[0];
    var low := b % 16;
    var mode := (b / 16) % 4;
    if b / 64 == 2 then
      var delta := if mode < 2 then low else -low;
      if mode % 2 == 0 then Some((Step(delta, 1), 1))
      else if |body| < 2 then None
      else Some((Step(delta, body[1]), 2))
    else
      var extra := mode + (if b / 64 == 1 then 1 else 0);
      if |body| < 1 + extra then None
      else
        var count :=
          low
          + (if mode >= 1 then 16 * (body[1] as int) else 0)
          + (if mode >= 2 then 4096 * (body[2] as int) else 0)
          + (if mode >= 3 then 1048576 * (body[3] as int) else 0);
        var pixel := if b / 64 == 0 then 0 else if b / 64 == 3 then 255 else body[1 + mode];
        Some((Fill(pixel, count), 1 + extra))
  }

  function Repeat(v: byte, n: nat): (r: seq<byte>)
    ensures |r| == n
    ensures forall k :: 0 <= k < n ==> r[k] == v
  {
    seq(n, _ => v)
  }

  /** Decodes a token stream; `prev` is the pixel of the run before it. */
  function Decode(body: seq<byte>, prev: byte): Option<seq<byte>>
    decreases |body|
  {
    if |body| == 0 then Some([])
    else
      match ParseToken(body)
      case None => None
      case Some((tok, used)) =>
        var pixel: int := if tok.Fill? then tok.pixel else prev as int + tok.delta;
        if !(0 <= pixel < 256) then None
        else Prepend(Repeat(pixel, tok.count), Decode(body[used..], pixel))
  }

  /** Puts a decoded run in front of the pixels decoded after it; failure propagates. */
  function Prepend(run: seq<byte>, rest: Option<seq<byte>>): (r: Option<seq<byte>>)
    ensures r.Some? <==> rest.Some?
  {
    if rest.Some? then Some(run + rest.value) else None
  }

  /** Decodes a whole layer: magic byte, tokens, checksum. */
  function DecodeLayer(data: seq<byte>): Option<seq<byte>>
  {
    if |data| < 2 || data[0] != 0x55 then None
    else if data[|data| - 1] != Checksum(data[1..|data| - 1]) then None
    else Decode(data[1..|data| - 1], 0)
  }

  // ---------------------------------------------------------------------------
  // Run-length recovery

  lemma CountDigits(count: nat)
    requires count <= 0xFFFFFFF
    ensures Level(count) == 0 ==> count % 16 == count
    ensures Level(count) == 1 ==> count % 16 + 16 * ((count / 16) % 256) == count
    ensures Level(count) == 2 ==>
      count % 16 + 16 * ((count / 16) % 256) + 4096 * ((count / 4096) % 256) == count
    ensures Level(count) == 3 ==>
      count % 16 + 16 * ((count / 16) % 256) + 4096 * ((count / 4096) % 256)
      + 1048576 * ((count / 1048576) % 256) == count
  {
    var q1 := count / 16;
    var q2 := count / 4096;
    var q3 := count / 1048576;
    assert count == 16 * q1 + count % 16;
    assert q1 == 256 * q2 + q1 % 256;
    assert q2 == 256 * q3 + q2 % 256;
    assert q3 < 256;
  }

  /** The run length is recovered from the low nibble and the extra bytes. */
  lemma ParseRunLength(kind: Kind, count: nat, value: byte, rest: seq<byte>)
    requires count <= 0xFFFFFFF
    ensures ParseToken(RunLength(kind, count, value) + rest)
         == Some((Fill(if kind == Black then 0 else if kind == White then 255 else value, count),
                  |RunLength(kind, count, value)|))
  {
    CountDigits(count);
    RunLengthFields(kind, count, value);
    var r := RunLength(kind, count, value);
    var body := r + rest;
    assert body[..|r|] == r;
    assert body[0] == r[0];
    assert forall k :: 0 <= k < |r| ==> body[k] == r[k];
  }

  lemma ParseDiff(pixel: byte, count: nat, first: bool, prev: byte, rest: seq<byte>)
    requires count >= 1 && DiffMode(pixel, count, first, prev)
    ensures ParseToken(RunCode(pixel, count, first, prev) + rest)
         == Some((Step(pixel - prev, count), |RunCode(pixel, count, first, prev)|))
  {
    var r := RunCode(pixel, count, first, prev);
    var body := r + rest;
    assert body[0] == r[0];
    if count > 1 {
      assert body[1] == r[1];
    }
  }

  /** Decoding one run's tokens yields that run, then whatever follows. */
  lemma DecodeRunCode(pixel: byte, count: nat, first: bool, prev: byte, tail: seq<byte>)
    requires 1 <= count <= 0xFFFFFFF
    ensures Decode(RunCode(pixel, count, first, prev) + tail, prev)
         == Prepend(Repeat(pixel, count), Decode(tail, pixel))
  {
    var code := RunCode(pixel, count, first, prev);
    var tok: Token;
    if DiffMode(pixel, count, first, prev) {
      ParseDiff(pixel, count, first, prev, tail);
      tok := Step(pixel - prev, count);
    } else if pixel == 0 {
      ParseRunLength(Black, count, 0, tail);
      tok := Fill(0, count);
    } else if pixel == 255 {
      ParseRunLength(White, count, 0, tail);
      tok := Fill(255, count);
    } else {
      ParseRunLength(Grey, count, pixel, tail);
      tok := Fill(pixel, count);
    }
    var body := code + tail;
    assert ParseToken(body) == Some((tok, |code|));
    assert body[|code|..] == tail;
  }

  /** A run's tokens followed by a tail that decodes to `rest` decode to the run, then `rest`. */
  lemma DecodeRunThenTail(pixel: byte, count: nat, first: bool, prev: byte, tail: seq<byte>, rest: seq<byte>)
    requires 1 <= count <= 0xFFFFFFF
    requires DecodesTo(tail, pixel, rest)
    ensures DecodesTo(RunCode(pixel, count, first, prev) + tail, prev, Repeat(pixel, count) + rest)
  {
    DecodeRunCode(pixel, count, first, prev, tail);
  }

  /** image[i..] is its first run followed by the rest. */
  lemma SplitRun(image: seq<byte>, i: nat)
    requires i < |image|
    ensures image[i..] == Repeat(image[i], RunLen(image, i)) + image[i + RunLen(image, i)..]
  {
    RunLenMaximal(image, i);
    var count := RunLen(image, i);
    assert Repeat(image[i], count) == image[i..i + count];
    assert image[i..] == image[i..i + count] + image[i + count..];
  }

  /** The tokens decode, after the pixel `prev`, to exactly `pixels`. */
  predicate DecodesTo(body: seq<byte>, prev: byte, pixels: seq<byte>)
  {
    Decode(body, prev) == Some(pixels)
  }

  lemma {:induction false} DecodeEncodeFrom(image: seq<byte>, i: nat, prev: byte)
    requires |image| <= 0xFFFFFFF
    requires i <= |image|
    ensures DecodesTo(EncodeFrom(image, i, prev), prev, image[i..])
    decreases |image| - i
  {
    if i < |image| {
      var count := RunLen(image, i);
      var pixel := image[i];
      DecodeEncodeFrom(image, i + count, pixel);
      DecodeRunThenTail(pixel, count, i == 0, prev, EncodeFrom(image, i + count, pixel), image[i + count..]);
      EncodeFromStep(image, i, prev);
      SplitRun(image, i);
    } else {
      assert image[i..] == [];
    }
  }

  /** Decoding an encoded layer gives back the image. */
  lemma DecodeEncode(image: seq<byte>)
    requires |image| <= 0xFFFFFFF
    ensures DecodeLayer(Encode(image)) == Some(image)
  {
    var body := EncodeFrom(image, 0, 0);
    var enc := Encode(image);
    EncodeFraming(image);
    assert enc[1..|enc| - 1] == body;
    DecodeEncodeFrom(image, 0, 0);
  }

  /** Successive runs carry different pixels, so a plain run never follows its own colour. */
  lemma RunsDiffer(image: seq<byte>, i: nat)
    requires i < |image| && i + RunLen(image, i) < |image|
    ensures image[i + RunLen(image, i)] != image[i]
  {
    RunLenMaximal(image, i);
  }

  /** The run lengths cover the image exactly: the decoded lengths add up to |image|. */
  function RunLengths(image: seq<byte>, i: nat): (r: seq<nat>)
    requires i <= |image|
    decreases |image| - i
  {
    if i == |image| then [] else [RunLen(image, i)] + RunLengths(image, i + RunLen(image, i))
  }

  function SumNat(s: seq<nat>): nat
  {
    if |s| == 0 then 0 else s[0] + SumNat(s[1..])
  }

  lemma {:induction false} RunLengthsCover(image: seq<byte>, i: nat)
    requires i <= |image|
    ensures SumNat(RunLengths(image, i)) == |image| - i
    ensures forall k :: 0 <= k < |RunLengths(image, i)| ==> RunLengths(image, i)[k] >= 1
    decreases |image| - i
  {
    if i < |image| {
      RunLengthsCover(image, i + RunLen(image, i));
      var r := RunLengths(image, i);
      assert r[1..] == RunLengths(image, i + RunLen(image, i));
    }
  }

  // ---------------------------------------------------------------------------
  // The defect in the code as written

  /** An image whose second run is a 256-pixel differential run. */
  function LongDiffImage(): seq<byte>
  {
    [10] + Repeat(11, 256)
  }

  /**
   * As written, the 256-pixel run's count byte 256 becomes 0, so the layer decodes
   * to a single pixel instead of 257.
   */
  lemma AsWrittenLosesPixels()
    ensures var img := LongDiffImage();
            var body := ToUint8(EncodeFromAsWritten(img, 0, 0));
            body == [0x41, 10, 0x91, 0] && Decode(body, 0) == Some([10]) && Decode(body, 0) != Some(img)
  {
    var img := LongDiffImage();
    assert Uniform(img, 0, 1);
    RunLenUnique(img, 0, 1);
    assert Uniform(img, 1, 256);
    RunLenUnique(img, 1, 256);
    assert RunLength(Grey, 1, 10) == [0x41, 10];
    assert RunCodeAsWritten(10, 1, true, 0) == [0x41, 10];
    assert RunCodeAsWritten(11, 256, false, 10) == [0x91, 256];
    assert EncodeFromAsWritten(img, 257, 11) == [];
    assert EncodeFromAsWritten(img, 1, 10) == [0x91, 256];
    assert EncodeFromAsWritten(img, 0, 0) == [0x41, 10, 0x91, 256];
    var body := ToUint8(EncodeFromAsWritten(img, 0, 0));
    assert body == [0x41, 10, 0x91, 0];
    var tail := body[2..];
    assert tail == [0x91, 0];
    assert ParseToken(body) == Some((Fill(10, 1), 2));
    assert ParseToken(tail) == Some((Step(1, 0), 2));
    assert tail[2..] == [];
    assert Decode(tail[2..], 11) == Some([]);
    assert Decode(tail, 10) == Some(Repeat(11, 0) + []);
    assert Repeat(11, 0) + [] == [];
    assert Decode(body, 0) == Some(Repeat(10, 1) + []);
    assert Repeat(10, 1) + [] == [10];
    assert |img| == 257;
  }

  // ---------------------------------------------------------------------------
  // encodeRLE itself

  lemma EncodeFromStep(image: seq<byte>, i: nat, prev: byte)
    requires i < |image|
    ensures EncodeFrom(image, i, prev)
         == RunCode(image[i], RunLen(image, i), i == 0, prev) + EncodeFrom(image, i + RunLen(image, i), image[i])
  {
  }

  /** One iteration of the run loop keeps `result + tokens still to emit` fixed. */
  lemma EncodeStepPreserves(image: seq<byte>, i: nat, prev: byte, count: nat, result: seq<byte>, total: seq<byte>)
    requires i < |image| && count == RunLen(image, i)
    requires result + EncodeFrom(image, i, prev) == total
    ensures (result + RunCode(image[i], count, i == 0, prev)) + EncodeFrom(image, i + count, image[i]) == total
  {
    EncodeFromStep(image, i, prev);
    AppendAssoc(result, RunCode(image[i], count, i == 0, prev), EncodeFrom(image, i + count, image[i]));
  }

  lemma ModAdd(a: nat, b: nat)
    ensures (a % 256 + b) % 256 == (a + b) % 256
  {
    assert a == 256 * (a / 256) + a % 256;
  }

  /** The inner loop of encodeRLE: counts the pixels equal to image[i] from i on. */
  method CountRun(image: seq<byte>, i: nat) returns (count: nat)
    requires i < |image|
    ensures count == RunLen(image, i)
  {
    var pixel := image[i];
    count := 1;
    while i + count < |image| && image[i + count] == pixel
      invariant 1 <= count <= |image| - i
      invariant RunFrom(image, i, count) == RunLen(image, i)
      decreases |image| - i - count
    {
      count := count + 1;
    }
  }

  /** The closing sum loop of encodeRLE: the 8-bit sum of every byte after the magic byte. */
  method ChecksumLoop(result: seq<byte>) returns (checksum: byte)
    requires |result| >= 1
    ensures checksum == Checksum(result[1..])
  {
    checksum := 0;
    var j := 1;
    while j < |result|
      invariant 1 <= j <= |result|
      invariant checksum == Sum(result[1..j]) % 256
    {
      assert result[1..j + 1][..j - 1] == result[1..j];
      ModAdd(Sum(result[1..j]), result[j]);
      checksum := (checksum + result[j]) % 256;
      j := j + 1;
    }
    assert result[1..j] == result[1..];
  }

  /** encodeRLE: the run loop, then the closing sum loop. */
  method EncodeRLE(image: seq<byte>) returns (encoded: seq<byte>)
    ensures encoded == Encode(image)
  {
    var result: seq<byte> := [0x55];
    var i: nat := 0;
    var prevPixel: byte := 0;
    ghost var total := [0x55] + EncodeFrom(image, 0, 0);
    ghost var rest := EncodeFrom(image, 0, 0);
    while i < |image|
      invariant i <= |image|
      invariant rest == EncodeFrom(image, i, prevPixel)
      invariant result + rest == total
      decreases |image| - i
    {
      var pixel := image[i];
      var count := CountRun(image, i);
      var code := RunCode(pixel, count, i == 0, prevPixel);
      EncodeStepPreserves(image, i, prevPixel, count, result, total);
      rest := EncodeFrom(image, i + count, pixel);
      result := result + code;
      prevPixel := pixel;
      i := i + count;
    }
    assert result == total;
    assert result[1..] == EncodeFrom(image, 0, 0);
    var checksum := ChecksumLoop(result);
    encoded := result + [checksum];
  }
}
