// The GOO file writer of src/export/goo.ts (class GooFileGenerator): a cursor
// `position` over a fixed-size byte buffer, primitive little-endian emitters,
// and the header / layer / ending records built from them.

module GooWriter {
  import opened Bytes
  import opened Wrappers
  import GooRle

  /**
   * b with the bytes x stored one by one from index at on; the rest of b is untouched.
   * Defined store by store so that chains of writes compose without unfolding.
   */
  function Splice(b: seq<byte>, at: nat, x: seq<byte>): (r: seq<byte>)
    requires at + |x| <= |b|
    ensures |r| == |b|
    decreases |x|
  {
    if |x| == 0 then b else Splice(b[at := x[0]], at + 1, x[1..])
  }

  /** Splice is the sequence b with the stretch [at, at + |x|) replaced by x. */
  lemma {:induction false} SpliceIs(b: seq<byte>, at: nat, x: seq<byte>)
    requires at + |x| <= |b|
    ensures Splice(b, at, x) == b[..at] + x + b[at + |x|..]
    decreases |x|
  {
    if |x| > 0 {
      SpliceIs(b[at := x[0]], at + 1, x[1..]);
      assert b[at := x[0]][..at + 1] + x[1..] + b[at := x[0]][at + 1 + |x[1..]|..]
        == b[..at] + x + b[at + |x|..];
    }
  }

  /** Splice writes x at [at, at + |x|) and leaves every other index as it was. */
  lemma SpliceContents(b: seq<byte>, at: nat, x: seq<byte>)
    requires at + |x| <= |b|
    ensures Splice(b, at, x)[at..at + |x|] == x
    ensures forall k :: 0 <= k < |b| && !(at <= k < at + |x|) ==> Splice(b, at, x)[k] == b[k]
  {
    SpliceIs(b, at, x);
  }

  /** Index k after a Splice: from x inside the written stretch, from b elsewhere. */
  lemma SpliceAt(b: seq<byte>, at: nat, x: seq<byte>, k: nat)
    requires at + |x| <= |b| && k < |b|
    ensures Splice(b, at, x)[k] == if at <= k < at + |x| then x[k - at] else b[k]
  {
    SpliceIs(b, at, x);
  }

  /** Two consecutive writes are one write of the concatenation. */
  lemma SpliceAppend(b: seq<byte>, at: nat, w: seq<byte>, x: seq<byte>)
    requires at + |w| + |x| <= |b|
    ensures Splice(Splice(b, at, w), at + |w|, x) == Splice(b, at, w + x)
  {
    var s1 := Splice(b, at, w);
    var s2 := Splice(s1, at + |w|, x);
    var s3 := Splice(b, at, w + x);
    forall k | 0 <= k < |b|
      ensures s2[k] == s3[k]
    {
      SpliceAt(s1, at + |w|, x, k);
      SpliceAt(b, at, w, k);
      SpliceAt(b, at, w + x, k);
    }
  }

  /** Re-writing a stretch inside an earlier write replaces just that stretch. */
  lemma SplicePatch(b: seq<byte>, at: nat, x: seq<byte>, z: seq<byte>, y: seq<byte>, w: seq<byte>)
    requires |w| == |z| && at + |x| + |z| + |y| <= |b|
    ensures Splice(Splice(b, at, x + z + y), at + |x|, w) == Splice(b, at, x + (w + y))
  {
    var s1 := Splice(b, at, x + z + y);
    var s2 := Splice(s1, at + |x|, w);
    var s3 := Splice(b, at, x + (w + y));
    forall k | 0 <= k < |b|
      ensures s2[k] == s3[k]
    {
      SpliceAt(s1, at + |x|, w, k);
      SpliceAt(b, at, x + z + y, k);
      SpliceAt(b, at, x + (w + y), k);
    }
  }

  /** A float field, given as the four little-endian bytes of its IEEE 754 binary32 encoding. */
  datatype Float32 = Float32(b0: byte, b1: byte, b2: byte, b3: byte)
  {
    function Bytes(): (r: seq<byte>)
      ensures |r| == 4
    {
      [b0, b1, b2, b3]
    }
  }

  /** writeString(str, n): the first min(|str|, n) bytes of str, zero-filled to n bytes. */
  function Pad(s: seq<byte>, n: nat): (r: seq<byte>)
    ensures |r| == n
  {
    if |s| >= n then s[..n] else s + Zeros(n - |s|)
  }

  lemma PadContents(s: seq<byte>, n: nat)
    ensures forall k :: 0 <= k < n && k < |s| ==> Pad(s, n)[k] == s[k]
    ensures forall k :: |s| <= k < n ==> Pad(s, n)[k] == 0
  {
  }

  function BoolByte(v: bool): (r: byte) { if v then 1 else 0 }

  const Delimiter: seq<byte> := [0x0D, 0x0A]
  const MagicTag: seq<byte> := [0x07, 0x00, 0x00, 0x00, 0x44, 0x4C, 0x50, 0x00]
  const EndString: seq<byte> :=
    [0x0D, 0x0D, 0x0D, 0x0D, 0xD0, 0x07, 0x00, 0x00, 0x00, 0x00, 0x00, 0x00,
     0x00, 0x0D, 0x44, 0x4C, 0x50, 0x00]

  /** writePreviewImage: each 16-bit word little-endian. */
  function Words(data: seq<int>): (r: seq<byte>)
    ensures |r| == 2 * |data|
  {
    if |data| == 0 then [] else Words(data[..|data| - 1]) + LE16(data[|data| - 1])
  }

  lemma WordsStep(data: seq<int>, i: nat)
    requires i < |data|
    ensures Words(data[..i + 1]) == Words(data[..i]) + LE16(data[i])
  {
    assert data[..i + 1][..i] == data[..i];
  }

  /** The fields of writeHeader's options argument. Strings are already encoded bytes. */
  datatype HeaderOptions = HeaderOptions(
    version: seq<byte>, softwareInfo: seq<byte>, softwareVersion: seq<byte>, fileTime: seq<byte>,
    printerName: seq<byte>, printerType: seq<byte>, profileName: seq<byte>,
    antiAliasingLevel: int, greyLevel: int, blurLevel: int,
    xResolution: int, yResolution: int, xMirror: bool, yMirror: bool,
    xSizePlatform: Float32, ySizePlatform: Float32, zSizePlatform: Float32,
    layerThickness: Float32, exposureTime: Float32, exposureDelayMode: bool,
    turnOffTime: Float32, bottomBeforeLiftTime: Float32, bottomAfterLiftTime: Float32,
    bottomAfterRetractTime: Float32, beforeLiftTime: Float32, afterLiftTime: Float32,
    afterRetractTime: Float32, bottomExposureTime: Float32, bottomLayers: int, totalLayers: int,
    bottomLiftDistance: Float32, bottomLiftSpeed: Float32, liftDistance: Float32, liftSpeed: Float32,
    bottomRetractDistance: Float32, bottomRetractSpeed: Float32, retractDistance: Float32,
    retractSpeed: Float32, bottomSecondLiftDistance: Float32, bottomSecondLiftSpeed: Float32,
    secondLiftDistance: Float32, secondLiftSpeed: Float32, bottomSecondRetractDistance: Float32,
    bottomSecondRetractSpeed: Float32, secondRetractDistance: Float32, secondRetractSpeed: Float32,
    bottomLightPWM: int, lightPWM: int, advanceMode: bool, printingTime: int,
    totalVolume: Float32, totalWeight: Float32, totalPrice: Float32, priceUnit: seq<byte>,
    grayScaleLevel: bool, transitionLayers: int,
    smallPreviewData: Option<seq<int>>, bigPreviewData: Option<seq<int>>)

  /** Header fields 12-15: a preview (or its zero-filled placeholder) and a delimiter. */
  function PreviewBytes(data: Option<seq<int>>, emptySize: nat): (r: seq<byte>)
    ensures |r| == (if data.Some? then 2 * |data.value| else emptySize) + 2
  {
    (if data.Some? then Words(data.value) else Zeros(emptySize)) + Delimiter
  }

  /** writeHeader fields 1-5: version, magic tag, software and file time. */
  function IdentityBytes(o: HeaderOptions): (r: seq<byte>)
    ensures |r| == 92
  {
    Pad(o.version, 4) + MagicTag + Pad(o.softwareInfo, 32) + Pad(o.softwareVersion, 24)
    + Pad(o.fileTime, 24)
  }

  /** writeHeader fields 6-8: printer name, printer type and profile name. */
  function PrinterBytes(o: HeaderOptions): (r: seq<byte>)
    ensures |r| == 96
  {
    Pad(o.printerName, 32) + Pad(o.printerType, 32) + Pad(o.profileName, 32)
  }

  /** writeHeader fields 9-11: anti-aliasing, grey and blur levels. */
  function LevelsBytes(o: HeaderOptions): (r: seq<byte>)
    ensures |r| == 6
  {
    LE16(o.antiAliasingLevel) + LE16(o.greyLevel) + LE16(o.blurLevel)
  }

  /** writeHeader fields 16-20: layer count, resolution and mirroring. */
  function MachineBytes(o: HeaderOptions): (r: seq<byte>)
    ensures |r| == 10
  {
    LE32(o.totalLayers) + LE16(o.xResolution) + LE16(o.yResolution) + [BoolByte(o.xMirror)]
    + [BoolByte(o.yMirror)]
  }

  /** writeHeader fields 21-26: platform size, layer thickness and exposure. */
  function PlatformBytes(o: HeaderOptions): (r: seq<byte>)
    ensures |r| == 21
  {
    o.xSizePlatform.Bytes() + o.ySizePlatform.Bytes() + o.zSizePlatform.Bytes()
    + o.layerThickness.Bytes() + o.exposureTime.Bytes() + [BoolByte(o.exposureDelayMode)]
  }

  /** writeHeader fields 27-34: lift and retract delays and the bottom exposure time. */
  function TimingsBytes(o: HeaderOptions): (r: seq<byte>)
    ensures |r| == 32
  {
    o.turnOffTime.Bytes() + o.bottomBeforeLiftTime.Bytes() + o.bottomAfterLiftTime.Bytes()
    + o.bottomAfterRetractTime.Bytes() + o.beforeLiftTime.Bytes() + o.afterLiftTime.Bytes()
    + o.afterRetractTime.Bytes() + o.bottomExposureTime.Bytes()
  }

  /** writeHeader fields 35-39: bottom layer count and the first lift. */
  function LiftBytes(o: HeaderOptions): (r: seq<byte>)
    ensures |r| == 20
  {
    LE32(o.bottomLayers) + o.bottomLiftDistance.Bytes() + o.bottomLiftSpeed.Bytes()
    + o.liftDistance.Bytes() + o.liftSpeed.Bytes()
  }

  /** writeHeader fields 40-43: the first retract. */
  function RetractBytes(o: HeaderOptions): (r: seq<byte>)
    ensures |r| == 16
  {
    o.bottomRetractDistance.Bytes() + o.bottomRetractSpeed.Bytes() + o.retractDistance.Bytes()
    + o.retractSpeed.Bytes()
  }

  /** writeHeader fields 44-47: the second lift. */
  function SecondLiftBytes(o: HeaderOptions): (r: seq<byte>)
    ensures |r| == 16
  {
    o.bottomSecondLiftDistance.Bytes() + o.bottomSecondLiftSpeed.Bytes()
    + o.secondLiftDistance.Bytes() + o.secondLiftSpeed.Bytes()
  }

  /** writeHeader fields 48-51: the second retract. */
  function SecondRetractBytes(o: HeaderOptions): (r: seq<byte>)
    ensures |r| == 16
  {
    o.bottomSecondRetractDistance.Bytes() + o.bottomSecondRetractSpeed.Bytes()
    + o.secondRetractDistance.Bytes() + o.secondRetractSpeed.Bytes()
  }

  /** writeHeader fields 52-55: light power, advance mode and printing time. */
  function PowerBytes(o: HeaderOptions): (r: seq<byte>)
    ensures |r| == 9
  {
    LE16(o.bottomLightPWM) + LE16(o.lightPWM) + [BoolByte(o.advanceMode)] + LE32(o.printingTime)
  }

  /** writeHeader fields 56-59: volume, weight, price and price unit. */
  function StatisticsBytes(o: HeaderOptions): (r: seq<byte>)
    ensures |r| == 20
  {
    o.totalVolume.Bytes() + o.totalWeight.Bytes() + o.totalPrice.Bytes() + Pad(o.priceUnit, 8)
  }

  /** writeHeader fields 1-15: identification, image levels and the two previews. */
  function FrontBytes(o: HeaderOptions): (r: seq<byte>)
    ensures |r| == 194 + |PreviewBytes(o.smallPreviewData, 2 * 116 * 116)|
      + |PreviewBytes(o.bigPreviewData, 2 * 290 * 290)|
  {
    IdentityBytes(o) + PrinterBytes(o) + LevelsBytes(o)
    + PreviewBytes(o.smallPreviewData, 2 * 116 * 116)
    + PreviewBytes(o.bigPreviewData, 2 * 290 * 290)
  }

  /** writeHeader fields 16-34: machine geometry, exposure and timings. */
  function SettingsBytes(o: HeaderOptions): (r: seq<byte>)
    ensures |r| == 63
  {
    MachineBytes(o) + PlatformBytes(o) + TimingsBytes(o)
  }

  /** writeHeader fields 35-51: the lift and retract parameters. */
  function MotionBytes(o: HeaderOptions): (r: seq<byte>)
    ensures |r| == 68
  {
    LiftBytes(o) + RetractBytes(o) + SecondLiftBytes(o) + SecondRetractBytes(o)
  }

  /** writeHeader fields 52-59: light power and print statistics. */
  function TailBytes(o: HeaderOptions): (r: seq<byte>)
    ensures |r| == 29
  {
    PowerBytes(o) + StatisticsBytes(o)
  }

  /** writeHeader fields 1-59: everything before the layer-content offset. */
  function FieldsBytes(o: HeaderOptions): (r: seq<byte>)
    ensures |r| == |FrontBytes(o)| + 160
  {
    FrontBytes(o) + SettingsBytes(o) + MotionBytes(o) + TailBytes(o)
  }

  /** Header fields 60-62 with the given layer-content offset. */
  function HeaderSuffix(o: HeaderOptions, offset: int): (r: seq<byte>)
    ensures |r| == 7
  {
    LE32(offset) + HeaderSettingsTail(o)
  }

  /** Header fields 61-62: grey-scale flag and transition layer count. */
  function HeaderSettingsTail(o: HeaderOptions): (r: seq<byte>)
    ensures |r| == 3
  {
    [BoolByte(o.grayScaleLevel)] + LE16(o.transitionLayers)
  }

  function HeaderSize(o: HeaderOptions): nat
  {
    |FieldsBytes(o)| + 7
  }

  /** The header as written from cursor position `start`: its offset field holds the end position. */
  function HeaderBytes(o: HeaderOptions, start: nat): seq<byte>
  {
    WithOffset(FieldsBytes(o), start + HeaderSize(o), HeaderSettingsTail(o))
  }

  /** A header laid out as fields, the int32 offset, then the trailing fields. */
  function WithOffset(fields: seq<byte>, offset: int, tail: seq<byte>): (r: seq<byte>)
    ensures |r| == |fields| + 4 + |tail|
  {
    fields + (LE32(offset) + tail)
  }

  lemma HeaderIsWithOffset(o: HeaderOptions, start: nat, offset: int)
    requires offset == start + HeaderSize(o)
    ensures HeaderBytes(o, start) == WithOffset(FieldsBytes(o), offset, HeaderSettingsTail(o))
  {
  }

  /** Back-patching a zero placeholder gives the layout with the real offset. */
  lemma PatchOffset(b: seq<byte>, at: nat, fields: seq<byte>, offset: int, tail: seq<byte>)
    requires at + |fields| + 4 + |tail| <= |b|
    ensures Splice(Splice(b, at, fields + LE32(0) + tail), at + |fields|, LE32(offset))
         == Splice(b, at, WithOffset(fields, offset, tail))
  {
    SplicePatch(b, at, fields, LE32(0), tail, LE32(offset));
  }

  /**
   * The header's offset field sits 7 bytes before its end and reads back as the
   * position where the header ends (modulo 2^32); without previews the header is
   * 195,477 bytes long with that field at byte 195,470.
   */
  lemma HeaderLayout(o: HeaderOptions, start: nat)
    ensures |HeaderBytes(o, start)| == HeaderSize(o)
    ensures var h := HeaderBytes(o, start);
      ReadLE32(h[HeaderSize(o) - 7..HeaderSize(o) - 3]) == (start + HeaderSize(o)) % 4294967296
    ensures o.smallPreviewData.None? && o.bigPreviewData.None? ==> HeaderSize(o) == 195477
    ensures HeaderSize(o) == 195477
      - (if o.smallPreviewData.Some? then 26912 - 2 * |o.smallPreviewData.value| else 0)
      - (if o.bigPreviewData.Some? then 168200 - 2 * |o.bigPreviewData.value| else 0)
  {
    var h := HeaderBytes(o, start);
    var n := |FieldsBytes(o)|;
    assert h[n..n + 4] == LE32(start + HeaderSize(o));
    LE32Value(start + HeaderSize(o));
  }

  /** The fields of writeLayerDefinition's argument. */
  datatype LayerDefinition = LayerDefinition(
    pauseFlag: int, pausePositionZ: Float32, layerPositionZ: Float32, layerExposureTime: Float32,
    layerOffTime: Float32, beforeLiftTime: Float32, afterLiftTime: Float32, afterRetractTime: Float32,
    liftDistance: Float32, liftSpeed: Float32, secondLiftDistance: Float32, secondLiftSpeed: Float32,
    retractDistance: Float32, retractSpeed: Float32, secondRetractDistance: Float32,
    secondRetractSpeed: Float32, lightPWM: int)

  /** writeLayerDefinition fields 1-5: pause flag and position, layer position, exposure and off time. */
  function LayerPositionBytes(l: LayerDefinition): (r: seq<byte>)
    ensures |r| == 18
  {
    LE16(l.pauseFlag) + l.pausePositionZ.Bytes() + l.layerPositionZ.Bytes()
    + l.layerExposureTime.Bytes() + l.layerOffTime.Bytes()
  }

  /** writeLayerDefinition fields 6-10: the per-layer delays and the first lift. */
  function LayerLiftBytes(l: LayerDefinition): (r: seq<byte>)
    ensures |r| == 20
  {
    l.beforeLiftTime.Bytes() + l.afterLiftTime.Bytes() + l.afterRetractTime.Bytes()
    + l.liftDistance.Bytes() + l.liftSpeed.Bytes()
  }

  /** writeLayerDefinition fields 11-16: the second lift and both retracts. */
  function LayerRetractBytes(l: LayerDefinition): (r: seq<byte>)
    ensures |r| == 24
  {
    l.secondLiftDistance.Bytes() + l.secondLiftSpeed.Bytes() + l.retractDistance.Bytes()
    + l.retractSpeed.Bytes() + l.secondRetractDistance.Bytes() + l.secondRetractSpeed.Bytes()
  }

  /** writeLayerDefinition fields 17-18: light power and the delimiter. */
  function LayerEndBytes(l: LayerDefinition): (r: seq<byte>)
    ensures |r| == 4
  {
    LE16(l.lightPWM) + Delimiter
  }

  /** writeLayerDefinition the whole 18-field record. */
  function LayerDefinitionBytes(l: LayerDefinition): (r: seq<byte>)
    ensures |r| == 66
  {
    LayerPositionBytes(l) + LayerLiftBytes(l) + LayerRetractBytes(l) + LayerEndBytes(l)
  }

  /** A layer definition record is 66 bytes and ends in the 0x0D 0x0A delimiter. */
  lemma LayerDefinitionLayout(l: LayerDefinition)
    ensures |LayerDefinitionBytes(l)| == 66
    ensures LayerDefinitionBytes(l)[64..] == Delimiter
  {
  }

  /** writeLayerImageData: length prefix, the encoded layer, a delimiter. */
  function LayerImageBytes(image: seq<byte>): seq<byte>
  {
    var e := GooRle.Encode(image);
    LE32(|e|) + e + Delimiter
  }

  /**
   * The layer image block is 4 + |encoded| + 2 bytes, its prefix reads back as the
   * encoded length (below 2^32) and the bytes after it are the encoded layer.
   */
  lemma LayerImageLayout(image: seq<byte>)
    ensures var e := GooRle.Encode(image);
      var b := LayerImageBytes(image);
      && |b| == 4 + |e| + 2
      && (|e| < 4294967296 ==> ReadLE32(b[..4]) == |e|)
      && b[4..4 + |e|] == e
      && b[4 + |e|..] == Delimiter
  {
    var e := GooRle.Encode(image);
    var b := LayerImageBytes(image);
    assert b[..4] == LE32(|e|);
    LE32Value(|e|);
  }

  /** The encoded block inside a layer image record decodes back to the layer image. */
  lemma LayerImageDecodes(image: seq<byte>)
    requires |image| <= 0xFFFFFFF
    ensures var e := GooRle.Encode(image);
      GooRle.DecodeLayer(LayerImageBytes(image)[4..4 + |e|]) == Some(image)
  {
    LayerImageLayout(image);
    GooRle.DecodeEncode(image);
  }

  class GooFileGenerator {
    var outputPath: seq<char>
    var buffer: array<byte>
    var position: nat

    predicate Valid()
      reads this
    {
      position <= buffer.Length
    }

    /** The bytes saveFile hands to the Blob: buffer[0, position). */
    function Saved(): (r: seq<byte>)
      reads this, buffer
      requires Valid()
      ensures |r| == position
    {
      buffer[..position]
    }

    constructor(outputPath: seq<char>, totalSize: nat := 1024 * 1024)
      ensures Valid() && fresh(buffer)
      ensures this.outputPath == outputPath
      ensures position == 0 && buffer[..] == Zeros(totalSize)
    {
      this.outputPath := outputPath;
      buffer := new byte[totalSize](_ => 0);
      position := 0;
    }

    /** writeUint8Array: stores the bytes from the cursor on, then advances it. */
    method WriteUint8Array(data: seq<byte>)
      requires position + |data| <= buffer.Length
      modifies this, buffer
      ensures buffer == old(buffer) && position == old(position) + |data|
      ensures buffer[..] == Splice(old(buffer[..]), old(position), data)
    {
      var i := 0;
      while i < |data|
        invariant 0 <= i <= |data|
        invariant buffer == old(buffer) && position == old(position)
        invariant buffer[..] == Splice(old(buffer[..]), position, data[..i])
      {
        SpliceAppend(old(buffer[..]), position, data[..i], [data[i]]);
        SpliceIs(buffer[..], position + i, [data[i]]);
        assert data[..i + 1] == data[..i] + [data[i]];
        buffer[position + i] := data[i];
        i := i + 1;
      }
      assert data[..i] == data;
      position := position + |data|;
    }

    /** writeString(str, length): a zero-filled array of `length` bytes holding str's prefix. */
    method WriteString(str: seq<byte>, length: nat)
      requires position + length <= buffer.Length
      modifies this, buffer
      ensures buffer == old(buffer) && position == old(position) + length
      ensures buffer[..] == Splice(old(buffer[..]), old(position), Pad(str, length))
    {
      var paddedArray := new byte[length](_ => 0);
      var bytesToCopy := if |str| < length then |str| else length;
      var i := 0;
      while i < bytesToCopy
        invariant 0 <= i <= bytesToCopy
        invariant paddedArray[..] == str[..i] + Zeros(length - i)
        invariant buffer[..] == old(buffer[..])
        modifies paddedArray
      {
        paddedArray[i] := str[i];
        assert paddedArray[..] == str[..i + 1] + Zeros(length - i - 1);
        i := i + 1;
      }
      assert paddedArray[..] == Pad(str, length);
      WriteUint8Array(paddedArray[..]);
    }

    /** writeInt16: DataView.setInt16 little-endian, then the cursor moves by 2. */
    method WriteInt16(value: int)
      requires position + 2 <= buffer.Length
      modifies this, buffer
      ensures buffer == old(buffer) && position == old(position) + 2
      ensures buffer[..] == Splice(old(buffer[..]), old(position), LE16(value))
    {
      SpliceIs(buffer[..], position, LE16(value));
      var b := LE16(value);
      buffer[position] := b[0];
      buffer[position + 1] := b[1];
      position := position + 2;
    }

    /** writeInt32: DataView.setInt32 little-endian, then the cursor moves by 4. */
    method WriteInt32(value: int)
      requires position + 4 <= buffer.Length
      modifies this, buffer
      ensures buffer == old(buffer) && position == old(position) + 4
      ensures buffer[..] == Splice(old(buffer[..]), old(position), LE32(value))
    {
      SpliceIs(buffer[..], position, LE32(value));
      var b := LE32(value);
      buffer[position] := b[0];
      buffer[position + 1] := b[1];
      buffer[position + 2] := b[2];
      buffer[position + 3] := b[3];
      position := position + 4;
    }

    /** writeFloat: the four binary32 bytes, little-endian. */
    method WriteFloat(value: Float32)
      requires position + 4 <= buffer.Length
      modifies this, buffer
      ensures buffer == old(buffer) && position == old(position) + 4
      ensures buffer[..] == Splice(old(buffer[..]), old(position), value.Bytes())
    {
      SpliceIs(buffer[..], position, value.Bytes());
      buffer[position] := value.b0;
      buffer[position + 1] := value.b1;
      buffer[position + 2] := value.b2;
      buffer[position + 3] := value.b3;
      position := position + 4;
    }

    /** writeBool: 1 for true, 0 for false. */
    method WriteBool(value: bool)
      requires position + 1 <= buffer.Length
      modifies this, buffer
      ensures buffer == old(buffer) && position == old(position) + 1
      ensures buffer[..] == Splice(old(buffer[..]), old(position), [BoolByte(value)])
    {
      SpliceIs(buffer[..], position, [BoolByte(value)]);
      buffer[position] := if value then 1 else 0;
      position := position + 1;
    }

    /** writeDelimiter: 0x0D then 0x0A. */
    method WriteDelimiter()
      requires position + 2 <= buffer.Length
      modifies this, buffer
      ensures buffer == old(buffer) && position == old(position) + 2
      ensures buffer[..] == Splice(old(buffer[..]), old(position), Delimiter)
    {
      SpliceIs(buffer[..], position, Delimiter);
      buffer[position] := 0x0D;
      position := position + 1;
      buffer[position] := 0x0A;
      position := position + 1;
    }

    /** writePreviewImage: each word with DataView.setUint16 little-endian. */
    method WritePreviewImage(data: seq<int>, width: nat, height: nat)
      requires position + 2 * |data| <= buffer.Length
      modifies this, buffer
      ensures buffer == old(buffer) && position == old(position) + 2 * |data|
      ensures buffer[..] == Splice(old(buffer[..]), old(position), Words(data))
    {
      ghost var b0, p0 := buffer[..], position;
      var i := 0;
      while i < |data|
        invariant 0 <= i <= |data|
        invariant buffer == old(buffer) && position == p0 + 2 * i
        invariant buffer[..] == Splice(b0, p0, Words(data[..i]))
      {
        WordsStep(data, i);
        SpliceAppend(b0, p0, Words(data[..i]), LE16(data[i]));
        // setUint16 and setInt16 store the same two bytes for a value taken modulo 2^16.
        WriteInt16(data[i]);
        i := i + 1;
      }
      assert data[..i] == data;
    }

    /** writeHeader fields 1-5: version, magic tag, software and file time. */
    method WriteIdentity(o: HeaderOptions)
      requires position + |IdentityBytes(o)| <= buffer.Length
      modifies this, buffer
      ensures buffer == old(buffer) && position == old(position) + |IdentityBytes(o)|
      ensures buffer[..] == Splice(old(buffer[..]), old(position), IdentityBytes(o))
    {
      ghost var b0, p0 := buffer[..], position;
      WriteString(o.version, 4);
      ghost var w := Pad(o.version, 4);
      WriteUint8Array(MagicTag);
      SpliceAppend(b0, p0, w, MagicTag);
      w := w + MagicTag;
      WriteString(o.softwareInfo, 32);
      SpliceAppend(b0, p0, w, Pad(o.softwareInfo, 32));
      w := w + Pad(o.softwareInfo, 32);
      WriteString(o.softwareVersion, 24);
      SpliceAppend(b0, p0, w, Pad(o.softwareVersion, 24));
      w := w + Pad(o.softwareVersion, 24);
      WriteString(o.fileTime, 24);
      SpliceAppend(b0, p0, w, Pad(o.fileTime, 24));
      w := w + Pad(o.fileTime, 24);
    }

    /** writeHeader fields 6-8: printer name, printer type and profile name. */
    method WritePrinter(o: HeaderOptions)
      requires position + |PrinterBytes(o)| <= buffer.Length
      modifies this, buffer
      ensures buffer == old(buffer) && position == old(position) + |PrinterBytes(o)|
      ensures buffer[..] == Splice(old(buffer[..]), old(position), PrinterBytes(o))
    {
      ghost var b0, p0 := buffer[..], position;
      WriteString(o.printerName, 32);
      ghost var w := Pad(o.printerName, 32);
      WriteString(o.printerType, 32);
      SpliceAppend(b0, p0, w, Pad(o.printerType, 32));
      w := w + Pad(o.printerType, 32);
      WriteString(o.profileName, 32);
      SpliceAppend(b0, p0, w, Pad(o.profileName, 32));
      w := w + Pad(o.profileName, 32);
    }

    /** writeHeader fields 9-11: anti-aliasing, grey and blur levels. */
    method WriteLevels(o: HeaderOptions)
      requires position + |LevelsBytes(o)| <= buffer.Length
      modifies this, buffer
      ensures buffer == old(buffer) && position == old(position) + |LevelsBytes(o)|
      ensures buffer[..] == Splice(old(buffer[..]), old(position), LevelsBytes(o))
    {
      ghost var b0, p0 := buffer[..], position;
      WriteInt16(o.antiAliasingLevel);
      ghost var w := LE16(o.antiAliasingLevel);
      WriteInt16(o.greyLevel);
      SpliceAppend(b0, p0, w, LE16(o.greyLevel));
      w := w + LE16(o.greyLevel);
      WriteInt16(o.blurLevel);
      SpliceAppend(b0, p0, w, LE16(o.blurLevel));
      w := w + LE16(o.blurLevel);
    }

    /** writeHeader fields 16-20: layer count, resolution and mirroring. */
    method WriteMachine(o: HeaderOptions)
      requires position + |MachineBytes(o)| <= buffer.Length
      modifies this, buffer
      ensures buffer == old(buffer) && position == old(position) + |MachineBytes(o)|
      ensures buffer[..] == Splice(old(buffer[..]), old(position), MachineBytes(o))
    {
      ghost var b0, p0 := buffer[..], position;
      WriteInt32(o.totalLayers);
      ghost var w := LE32(o.totalLayers);
      WriteInt16(o.xResolution);
      SpliceAppend(b0, p0, w, LE16(o.xResolution));
      w := w + LE16(o.xResolution);
      WriteInt16(o.yResolution);
      SpliceAppend(b0, p0, w, LE16(o.yResolution));
      w := w + LE16(o.yResolution);
      WriteBool(o.xMirror);
      SpliceAppend(b0, p0, w, [BoolByte(o.xMirror)]);
      w := w + [BoolByte(o.xMirror)];
      WriteBool(o.yMirror);
      SpliceAppend(b0, p0, w, [BoolByte(o.yMirror)]);
      w := w + [BoolByte(o.yMirror)];
    }

    /** writeHeader fields 21-26: platform size, layer thickness and exposure. */
    method WritePlatform(o: HeaderOptions)
      requires position + |PlatformBytes(o)| <= buffer.Length
      modifies this, buffer
      ensures buffer == old(buffer) && position == old(position) + |PlatformBytes(o)|
      ensures buffer[..] == Splice(old(buffer[..]), old(position), PlatformBytes(o))
    {
      ghost var b0, p0 := buffer[..], position;
      WriteFloat(o.xSizePlatform);
      ghost var w := o.xSizePlatform.Bytes();
      WriteFloat(o.ySizePlatform);
      SpliceAppend(b0, p0, w, o.ySizePlatform.Bytes());
      w := w + o.ySizePlatform.Bytes();
      WriteFloat(o.zSizePlatform);
      SpliceAppend(b0, p0, w, o.zSizePlatform.Bytes());
      w := w + o.zSizePlatform.Bytes();
      WriteFloat(o.layerThickness);
      SpliceAppend(b0, p0, w, o.layerThickness.Bytes());
      w := w + o.layerThickness.Bytes();
      WriteFloat(o.exposureTime);
      SpliceAppend(b0, p0, w, o.exposureTime.Bytes());
      w := w + o.exposureTime.Bytes();
      WriteBool(o.exposureDelayMode);
      SpliceAppend(b0, p0, w, [BoolByte(o.exposureDelayMode)]);
      w := w + [BoolByte(o.exposureDelayMode)];
    }

    /** writeHeader fields 27-34: lift and retract delays and the bottom exposure time. */
    method WriteTimings(o: HeaderOptions)
      requires position + |TimingsBytes(o)| <= buffer.Length
      modifies this, buffer
      ensures buffer == old(buffer) && position == old(position) + |TimingsBytes(o)|
      ensures buffer[..] == Splice(old(buffer[..]), old(position), TimingsBytes(o))
    {
      ghost var b0, p0 := buffer[..], position;
      WriteFloat(o.turnOffTime);
      ghost var w := o.turnOffTime.Bytes();
      WriteFloat(o.bottomBeforeLiftTime);
      SpliceAppend(b0, p0, w, o.bottomBeforeLiftTime.Bytes());
      w := w + o.bottomBeforeLiftTime.Bytes();
      WriteFloat(o.bottomAfterLiftTime);
      SpliceAppend(b0, p0, w, o.bottomAfterLiftTime.Bytes());
      w := w + o.bottomAfterLiftTime.Bytes();
      WriteFloat(o.bottomAfterRetractTime);
      SpliceAppend(b0, p0, w, o.bottomAfterRetractTime.Bytes());
      w := w + o.bottomAfterRetractTime.Bytes();
      WriteFloat(o.beforeLiftTime);
      SpliceAppend(b0, p0, w, o.beforeLiftTime.Bytes());
      w := w + o.beforeLiftTime.Bytes();
      WriteFloat(o.afterLiftTime);
      SpliceAppend(b0, p0, w, o.afterLiftTime.Bytes());
      w := w + o.afterLiftTime.Bytes();
      WriteFloat(o.afterRetractTime);
      SpliceAppend(b0, p0, w, o.afterRetractTime.Bytes());
      w := w + o.afterRetractTime.Bytes();
      WriteFloat(o.bottomExposureTime);
      SpliceAppend(b0, p0, w, o.bottomExposureTime.Bytes());
      w := w + o.bottomExposureTime.Bytes();
    }

    /** writeHeader fields 35-39: bottom layer count and the first lift. */
    method WriteLift(o: HeaderOptions)
      requires position + |LiftBytes(o)| <= buffer.Length
      modifies this, buffer
      ensures buffer == old(buffer) && position == old(position) + |LiftBytes(o)|
      ensures buffer[..] == Splice(old(buffer[..]), old(position), LiftBytes(o))
    {
      ghost var b0, p0 := buffer[..], position;
      WriteInt32(o.bottomLayers);
      ghost var w := LE32(o.bottomLayers);
      WriteFloat(o.bottomLiftDistance);
      SpliceAppend(b0, p0, w, o.bottomLiftDistance.Bytes());
      w := w + o.bottomLiftDistance.Bytes();
      WriteFloat(o.bottomLiftSpeed);
      SpliceAppend(b0, p0, w, o.bottomLiftSpeed.Bytes());
      w := w + o.bottomLiftSpeed.Bytes();
      WriteFloat(o.liftDistance);
      SpliceAppend(b0, p0, w, o.liftDistance.Bytes());
      w := w + o.liftDistance.Bytes();
      WriteFloat(o.liftSpeed);
      SpliceAppend(b0, p0, w, o.liftSpeed.Bytes());
      w := w + o.liftSpeed.Bytes();
    }

    /** writeHeader fields 40-43: the first retract. */
    method WriteRetract(o: HeaderOptions)
      requires position + |RetractBytes(o)| <= buffer.Length
      modifies this, buffer
      ensures buffer == old(buffer) && position == old(position) + |RetractBytes(o)|
      ensures buffer[..] == Splice(old(buffer[..]), old(position), RetractBytes(o))
    {
      ghost var b0, p0 := buffer[..], position;
      WriteFloat(o.bottomRetractDistance);
      ghost var w := o.bottomRetractDistance.Bytes();
      WriteFloat(o.bottomRetractSpeed);
      SpliceAppend(b0, p0, w, o.bottomRetractSpeed.Bytes());
      w := w + o.bottomRetractSpeed.Bytes();
      WriteFloat(o.retractDistance);
      SpliceAppend(b0, p0, w, o.retractDistance.Bytes());
      w := w + o.retractDistance.Bytes();
      WriteFloat(o.retractSpeed);
      SpliceAppend(b0, p0, w, o.retractSpeed.Bytes());
      w := w + o.retractSpeed.Bytes();
    }

    /** writeHeader fields 44-47: the second lift. */
    method WriteSecondLift(o: HeaderOptions)
      requires position + |SecondLiftBytes(o)| <= buffer.Length
      modifies this, buffer
      ensures buffer == old(buffer) && position == old(position) + |SecondLiftBytes(o)|
      ensures buffer[..] == Splice(old(buffer[..]), old(position), SecondLiftBytes(o))
    {
      ghost var b0, p0 := buffer[..], position;
      WriteFloat(o.bottomSecondLiftDistance);
      ghost var w := o.bottomSecondLiftDistance.Bytes();
      WriteFloat(o.bottomSecondLiftSpeed);
      SpliceAppend(b0, p0, w, o.bottomSecondLiftSpeed.Bytes());
      w := w + o.bottomSecondLiftSpeed.Bytes();
      WriteFloat(o.secondLiftDistance);
      SpliceAppend(b0, p0, w, o.secondLiftDistance.Bytes());
      w := w + o.secondLiftDistance.Bytes();
      WriteFloat(o.secondLiftSpeed);
      SpliceAppend(b0, p0, w, o.secondLiftSpeed.Bytes());
      w := w + o.secondLiftSpeed.Bytes();
    }

    /** writeHeader fields 48-51: the second retract. */
    method WriteSecondRetract(o: HeaderOptions)
      requires position + |SecondRetractBytes(o)| <= buffer.Length
      modifies this, buffer
      ensures buffer == old(buffer) && position == old(position) + |SecondRetractBytes(o)|
      ensures buffer[..] == Splice(old(buffer[..]), old(position), SecondRetractBytes(o))
    {
      ghost var b0, p0 := buffer[..], position;
      WriteFloat(o.bottomSecondRetractDistance);
      ghost var w := o.bottomSecondRetractDistance.Bytes();
      WriteFloat(o.bottomSecondRetractSpeed);
      SpliceAppend(b0, p0, w, o.bottomSecondRetractSpeed.Bytes());
      w := w + o.bottomSecondRetractSpeed.Bytes();
      WriteFloat(o.secondRetractDistance);
      SpliceAppend(b0, p0, w, o.secondRetractDistance.Bytes());
      w := w + o.secondRetractDistance.Bytes();
      WriteFloat(o.secondRetractSpeed);
      SpliceAppend(b0, p0, w, o.secondRetractSpeed.Bytes());
      w := w + o.secondRetractSpeed.Bytes();
    }

    /** writeHeader fields 52-55: light power, advance mode and printing time. */
    method WritePower(o: HeaderOptions)
      requires position + |PowerBytes(o)| <= buffer.Length
      modifies this, buffer
      ensures buffer == old(buffer) && position == old(position) + |PowerBytes(o)|
      ensures buffer[..] == Splice(old(buffer[..]), old(position), PowerBytes(o))
    {
      ghost var b0, p0 := buffer[..], position;
      WriteInt16(o.bottomLightPWM);
      ghost var w := LE16(o.bottomLightPWM);
      WriteInt16(o.lightPWM);
      SpliceAppend(b0, p0, w, LE16(o.lightPWM));
      w := w + LE16(o.lightPWM);
      WriteBool(o.advanceMode);
      SpliceAppend(b0, p0, w, [BoolByte(o.advanceMode)]);
      w := w + [BoolByte(o.advanceMode)];
      WriteInt32(o.printingTime);
      SpliceAppend(b0, p0, w, LE32(o.printingTime));
      w := w + LE32(o.printingTime);
    }

    /** writeHeader fields 56-59: volume, weight, price and price unit. */
    method WriteStatistics(o: HeaderOptions)
      requires position + |StatisticsBytes(o)| <= buffer.Length
      modifies this, buffer
      ensures buffer == old(buffer) && position == old(position) + |StatisticsBytes(o)|
      ensures buffer[..] == Splice(old(buffer[..]), old(position), StatisticsBytes(o))
    {
      ghost var b0, p0 := buffer[..], position;
      WriteFloat(o.totalVolume);
      ghost var w := o.totalVolume.Bytes();
      WriteFloat(o.totalWeight);
      SpliceAppend(b0, p0, w, o.totalWeight.Bytes());
      w := w + o.totalWeight.Bytes();
      WriteFloat(o.totalPrice);
      SpliceAppend(b0, p0, w, o.totalPrice.Bytes());
      w := w + o.totalPrice.Bytes();
      WriteString(o.priceUnit, 8);
      SpliceAppend(b0, p0, w, Pad(o.priceUnit, 8));
      w := w + Pad(o.priceUnit, 8);
    }

    /** writeHeader fields 1-15: identification, image levels and the two previews. */
    method WriteFront(o: HeaderOptions)
      requires position + |FrontBytes(o)| <= buffer.Length
      modifies this, buffer
      ensures buffer == old(buffer) && position == old(position) + |FrontBytes(o)|
      ensures buffer[..] == Splice(old(buffer[..]), old(position), FrontBytes(o))
    {
      ghost var b0, p0 := buffer[..], position;
      WriteIdentity(o);
      ghost var w := IdentityBytes(o);
      WritePrinter(o);
      SpliceAppend(b0, p0, w, PrinterBytes(o));
      w := w + PrinterBytes(o);
      WriteLevels(o);
      SpliceAppend(b0, p0, w, LevelsBytes(o));
      w := w + LevelsBytes(o);
      WritePreview(o.smallPreviewData, 116, 116);
      SpliceAppend(b0, p0, w, PreviewBytes(o.smallPreviewData, 2 * 116 * 116));
      w := w + PreviewBytes(o.smallPreviewData, 2 * 116 * 116);
      WritePreview(o.bigPreviewData, 290, 290);
      SpliceAppend(b0, p0, w, PreviewBytes(o.bigPreviewData, 2 * 290 * 290));
      w := w + PreviewBytes(o.bigPreviewData, 2 * 290 * 290);
    }

    /** writeHeader fields 16-34: machine geometry, exposure and timings. */
    method WriteSettings(o: HeaderOptions)
      requires position + |SettingsBytes(o)| <= buffer.Length
      modifies this, buffer
      ensures buffer == old(buffer) && position == old(position) + |SettingsBytes(o)|
      ensures buffer[..] == Splice(old(buffer[..]), old(position), SettingsBytes(o))
    {
      ghost var b0, p0 := buffer[..], position;
      WriteMachine(o);
      ghost var w := MachineBytes(o);
      WritePlatform(o);
      SpliceAppend(b0, p0, w, PlatformBytes(o));
      w := w + PlatformBytes(o);
      WriteTimings(o);
      SpliceAppend(b0, p0, w, TimingsBytes(o));
      w := w + TimingsBytes(o);
    }

    /** writeHeader fields 35-51: the lift and retract parameters. */
    method WriteMotion(o: HeaderOptions)
      requires position + |MotionBytes(o)| <= buffer.Length
      modifies this, buffer
      ensures buffer == old(buffer) && position == old(position) + |MotionBytes(o)|
      ensures buffer[..] == Splice(old(buffer[..]), old(position), MotionBytes(o))
    {
      ghost var b0, p0 := buffer[..], position;
      WriteLift(o);
      ghost var w := LiftBytes(o);
      WriteRetract(o);
      SpliceAppend(b0, p0, w, RetractBytes(o));
      w := w + RetractBytes(o);
      WriteSecondLift(o);
      SpliceAppend(b0, p0, w, SecondLiftBytes(o));
      w := w + SecondLiftBytes(o);
      WriteSecondRetract(o);
      SpliceAppend(b0, p0, w, SecondRetractBytes(o));
      w := w + SecondRetractBytes(o);
    }

    /** writeHeader fields 52-59: light power and print statistics. */
    method WriteTail(o: HeaderOptions)
      requires position + |TailBytes(o)| <= buffer.Length
      modifies this, buffer
      ensures buffer == old(buffer) && position == old(position) + |TailBytes(o)|
      ensures buffer[..] == Splice(old(buffer[..]), old(position), TailBytes(o))
    {
      ghost var b0, p0 := buffer[..], position;
      WritePower(o);
      ghost var w := PowerBytes(o);
      WriteStatistics(o);
      SpliceAppend(b0, p0, w, StatisticsBytes(o));
      w := w + StatisticsBytes(o);
    }

    /** writeHeader fields 1-59: everything before the layer-content offset. */
    method WriteFields(o: HeaderOptions)
      requires position + |FieldsBytes(o)| <= buffer.Length
      modifies this, buffer
      ensures buffer == old(buffer) && position == old(position) + |FieldsBytes(o)|
      ensures buffer[..] == Splice(old(buffer[..]), old(position), FieldsBytes(o))
    {
      ghost var b0, p0 := buffer[..], position;
      WriteFront(o);
      ghost var w := FrontBytes(o);
      WriteSettings(o);
      SpliceAppend(b0, p0, w, SettingsBytes(o));
      w := w + SettingsBytes(o);
      WriteMotion(o);
      SpliceAppend(b0, p0, w, MotionBytes(o));
      w := w + MotionBytes(o);
      WriteTail(o);
      SpliceAppend(b0, p0, w, TailBytes(o));
      w := w + TailBytes(o);
    }

    /** writeHeader fields 12-15: the preview words, or a zero-filled placeholder, then a delimiter. */
    method WritePreview(data: Option<seq<int>>, width: nat, height: nat)
      requires position + |PreviewBytes(data, 2 * width * height)| <= buffer.Length
      modifies this, buffer
      ensures buffer == old(buffer) && position == old(position) + |PreviewBytes(data, 2 * width * height)|
      ensures buffer[..] == Splice(old(buffer[..]), old(position), PreviewBytes(data, 2 * width * height))
    {
      ghost var b0, p0 := buffer[..], position;
      ghost var w: seq<byte>;
      if data.Some? {
        WritePreviewImage(data.value, width, height);
        w := Words(data.value);
      } else {
        var emptyPreview := Zeros(2 * width * height);
        WriteUint8Array(emptyPreview);
        w := emptyPreview;
      }
      WriteDelimiter();
      SpliceAppend(b0, p0, w, Delimiter);
    }

    /**
     * writeHeader: fields 1-62 in order; the layer-content offset is first written
     * as a zero placeholder and then patched with the position where the header ends.
     */
    method WriteHeader(o: HeaderOptions)
      requires position + HeaderSize(o) <= buffer.Length
      modifies this, buffer
      ensures buffer == old(buffer) && position == old(position) + HeaderSize(o)
      ensures buffer[..] == Splice(old(buffer[..]), old(position), HeaderBytes(o, old(position)))
    {
      ghost var b0, p0 := buffer[..], position;
      WriteFields(o);
      ghost var w := FieldsBytes(o);

      var layerContentOffsetPos := position;
      WriteTrailer(o);
      SpliceAppend(b0, p0, w, LE32(0) + HeaderSettingsTail(o));
      AppendAssoc(w, LE32(0), HeaderSettingsTail(o));

      var layerContentOffset := position;
      PatchInt32(layerContentOffsetPos, layerContentOffset);
      PatchOffset(b0, p0, w, layerContentOffset, HeaderSettingsTail(o));
      HeaderIsWithOffset(o, p0, layerContentOffset);
    }

    /** writeHeader fields 60-62, with a zero placeholder for the layer-content offset. */
    method WriteTrailer(o: HeaderOptions)
      requires position + 7 <= buffer.Length
      modifies this, buffer
      ensures buffer == old(buffer) && position == old(position) + 7
      ensures buffer[..] == Splice(old(buffer[..]), old(position), LE32(0) + HeaderSettingsTail(o))
    {
      ghost var b0, p0 := buffer[..], position;
      WriteInt32(0);
      WriteBool(o.grayScaleLevel);
      SpliceAppend(b0, p0, LE32(0), [BoolByte(o.grayScaleLevel)]);
      WriteInt16(o.transitionLayers);
      SpliceAppend(b0, p0, LE32(0) + [BoolByte(o.grayScaleLevel)], LE16(o.transitionLayers));
      AppendAssoc(LE32(0), [BoolByte(o.grayScaleLevel)], LE16(o.transitionLayers));
    }

    /** The back-patch at the end of writeHeader: an int32 stored at `at`, the cursor restored. */
    method PatchInt32(at: nat, value: int)
      requires at + 4 <= buffer.Length
      modifies this, buffer
      ensures buffer == old(buffer) && position == old(position)
      ensures buffer[..] == Splice(old(buffer[..]), at, LE32(value))
    {
      var currentPos := position;
      position := at;
      WriteInt32(value);
      position := currentPos;
    }

    /** writeLayerDefinition fields 1-5: pause flag and position, layer position, exposure and off time. */
    method WriteLayerPosition(l: LayerDefinition)
      requires position + |LayerPositionBytes(l)| <= buffer.Length
      modifies this, buffer
      ensures buffer == old(buffer) && position == old(position) + |LayerPositionBytes(l)|
      ensures buffer[..] == Splice(old(buffer[..]), old(position), LayerPositionBytes(l))
    {
      ghost var b0, p0 := buffer[..], position;
      WriteInt16(l.pauseFlag);
      ghost var w := LE16(l.pauseFlag);
      WriteFloat(l.pausePositionZ);
      SpliceAppend(b0, p0, w, l.pausePositionZ.Bytes());
      w := w + l.pausePositionZ.Bytes();
      WriteFloat(l.layerPositionZ);
      SpliceAppend(b0, p0, w, l.layerPositionZ.Bytes());
      w := w + l.layerPositionZ.Bytes();
      WriteFloat(l.layerExposureTime);
      SpliceAppend(b0, p0, w, l.layerExposureTime.Bytes());
      w := w + l.layerExposureTime.Bytes();
      WriteFloat(l.layerOffTime);
      SpliceAppend(b0, p0, w, l.layerOffTime.Bytes());
      w := w + l.layerOffTime.Bytes();
    }

    /** writeLayerDefinition fields 6-10: the per-layer delays and the first lift. */
    method WriteLayerLift(l: LayerDefinition)
      requires position + |LayerLiftBytes(l)| <= buffer.Length
      modifies this, buffer
      ensures buffer == old(buffer) && position == old(position) + |LayerLiftBytes(l)|
      ensures buffer[..] == Splice(old(buffer[..]), old(position), LayerLiftBytes(l))
    {
      ghost var b0, p0 := buffer[..], position;
      WriteFloat(l.beforeLiftTime);
      ghost var w := l.beforeLiftTime.Bytes();
      WriteFloat(l.afterLiftTime);
      SpliceAppend(b0, p0, w, l.afterLiftTime.Bytes());
      w := w + l.afterLiftTime.Bytes();
      WriteFloat(l.afterRetractTime);
      SpliceAppend(b0, p0, w, l.afterRetractTime.Bytes());
      w := w + l.afterRetractTime.Bytes();
      WriteFloat(l.liftDistance);
      SpliceAppend(b0, p0, w, l.liftDistance.Bytes());
      w := w + l.liftDistance.Bytes();
      WriteFloat(l.liftSpeed);
      SpliceAppend(b0, p0, w, l.liftSpeed.Bytes());
      w := w + l.liftSpeed.Bytes();
    }

    /** writeLayerDefinition fields 11-16: the second lift and both retracts. */
    method WriteLayerRetract(l: LayerDefinition)
      requires position + |LayerRetractBytes(l)| <= buffer.Length
      modifies this, buffer
      ensures buffer == old(buffer) && position == old(position) + |LayerRetractBytes(l)|
      ensures buffer[..] == Splice(old(buffer[..]), old(position), LayerRetractBytes(l))
    {
      ghost var b0, p0 := buffer[..], position;
      WriteFloat(l.secondLiftDistance);
      ghost var w := l.secondLiftDistance.Bytes();
      WriteFloat(l.secondLiftSpeed);
      SpliceAppend(b0, p0, w, l.secondLiftSpeed.Bytes());
      w := w + l.secondLiftSpeed.Bytes();
      WriteFloat(l.retractDistance);
      SpliceAppend(b0, p0, w, l.retractDistance.Bytes());
      w := w + l.retractDistance.Bytes();
      WriteFloat(l.retractSpeed);
      SpliceAppend(b0, p0, w, l.retractSpeed.Bytes());
      w := w + l.retractSpeed.Bytes();
      WriteFloat(l.secondRetractDistance);
      SpliceAppend(b0, p0, w, l.secondRetractDistance.Bytes());
      w := w + l.secondRetractDistance.Bytes();
      WriteFloat(l.secondRetractSpeed);
      SpliceAppend(b0, p0, w, l.secondRetractSpeed.Bytes());
      w := w + l.secondRetractSpeed.Bytes();
    }

    /** writeLayerDefinition fields 17-18: light power and the delimiter. */
    method WriteLayerEnd(l: LayerDefinition)
      requires position + |LayerEndBytes(l)| <= buffer.Length
      modifies this, buffer
      ensures buffer == old(buffer) && position == old(position) + |LayerEndBytes(l)|
      ensures buffer[..] == Splice(old(buffer[..]), old(position), LayerEndBytes(l))
    {
      ghost var b0, p0 := buffer[..], position;
      WriteInt16(l.lightPWM);
      ghost var w := LE16(l.lightPWM);
      WriteDelimiter();
      SpliceAppend(b0, p0, w, Delimiter);
      w := w + Delimiter;
    }

    /** writeLayerDefinition the whole 18-field record. */
    method WriteLayerDefinition(l: LayerDefinition)
      requires position + |LayerDefinitionBytes(l)| <= buffer.Length
      modifies this, buffer
      ensures buffer == old(buffer) && position == old(position) + |LayerDefinitionBytes(l)|
      ensures buffer[..] == Splice(old(buffer[..]), old(position), LayerDefinitionBytes(l))
    {
      ghost var b0, p0 := buffer[..], position;
      WriteLayerPosition(l);
      ghost var w := LayerPositionBytes(l);
      WriteLayerLift(l);
      SpliceAppend(b0, p0, w, LayerLiftBytes(l));
      w := w + LayerLiftBytes(l);
      WriteLayerRetract(l);
      SpliceAppend(b0, p0, w, LayerRetractBytes(l));
      w := w + LayerRetractBytes(l);
      WriteLayerEnd(l);
      SpliceAppend(b0, p0, w, LayerEndBytes(l));
      w := w + LayerEndBytes(l);
    }

    /** writeLayerImageData: the RLE-encoded layer, prefixed by its length and followed by a delimiter. */
    method WriteLayerImageData(imageData: seq<byte>, width: nat, height: nat)
      requires position + |LayerImageBytes(imageData)| <= buffer.Length
      modifies this, buffer
      ensures buffer == old(buffer) && position == old(position) + |LayerImageBytes(imageData)|
      ensures buffer[..] == Splice(old(buffer[..]), old(position), LayerImageBytes(imageData))
    {
      ghost var b0, p0 := buffer[..], position;
      var encodedData := GooRle.EncodeRLE(imageData);
      WriteInt32(|encodedData|);
      WriteUint8Array(encodedData);
      SpliceAppend(b0, p0, LE32(|encodedData|), encodedData);
      WriteDelimiter();
      SpliceAppend(b0, p0, LE32(|encodedData|) + encodedData, Delimiter);
    }

    /** writeEndingString: the fixed 18-byte trailer. */
    method WriteEndingString()
      requires position + |EndString| <= buffer.Length
      modifies this, buffer
      ensures buffer == old(buffer) && position == old(position) + 18
      ensures buffer[..] == Splice(old(buffer[..]), old(position), EndString)
    {
      WriteUint8Array(EndString);
    }

    /** saveFile: the bytes written so far, buffer[0, position); the download itself is not modelled. */
    method SaveFile() returns (blob: seq<byte>)
      requires Valid()
      ensures blob == Saved()
    {
      blob := buffer[..position];
    }
  }
}
