/**
 * The parts of `TinySound` that the games rely on: the `inited` flag and the
 * global volume, sound loading with its id counter, and the PCM byte
 * transforms (channel splitting and 8-bit to 16-bit widening). The sound
 * hardware, the mixer thread and stream reading are parameters: a byte array
 * stands for what `getBytes` returned.
 */
module TinySound {
  import opened JavaInt
  import opened JavaList

  /** Java's `byte`. */
  newtype int8 = x: int | -128 <= x < 128

  /** `Short.MAX_VALUE`. */
  const ShortMax: int := 32767

  /** Java's `(byte)` cast: the signed byte with the same low eight bits. */
  function ByteCast(x: int): (b: int8)
    ensures (x - b as int) % 256 == 0
    ensures -128 <= x < 128 ==> b as int == x
  {
    var m := x % 256;
    if m >= 128 then (m - 256) as int8 else m as int8
  }

  /** Java's `(int)` cast of a `double`: truncation toward zero. */
  function Truncate(r: real): (i: int)
    ensures 0.0 <= r ==> i as real <= r < i as real + 1.0
    ensures r < 0.0 ==> i as real - 1.0 < r <= i as real
  {
    if r >= 0.0 then r.Floor else -((-r).Floor)
  }

  // ---------------------------------------------------------------------------
  // Library state: init / shutdown / volume / loadSound
  // ---------------------------------------------------------------------------

  /** A loaded sound: its two channel buffers and the id it was registered with. */
  datatype Sound = Sound(left: array<int8>, right: array<int8>, id: int)

  /** The static state of the `TinySound` class. */
  class Audio {
    var inited: bool
    var soundCount: int
    /** The mixer's volume; meaningful only while `inited`. */
    var volume: real

    constructor ()
      ensures !inited && soundCount == 0
    {
      inited, soundCount, volume := false, 0, 1.0;
    }

    /**
     * `init()`: nothing when already initialised; otherwise initialised exactly
     * when the output format is supported and a line could be opened, with a
     * fresh mixer at full volume.
     */
    method Init(lineSupported: bool, lineOpened: bool)
      modifies this`inited, this`volume
      ensures old(inited) ==> inited && volume == old(volume)
      ensures !old(inited) ==> inited == (lineSupported && lineOpened)
      ensures !old(inited) && inited ==> volume == 1.0
    {
      if inited {
        return;
      }
      if !lineSupported {
        return;
      }
      if !lineOpened {
        return;
      }
      volume := 1.0;
      inited := true;
    }

    /** `shutdown()`: afterwards the system is not initialised. */
    method Shutdown()
      modifies this`inited
      ensures !inited
    {
      if !inited {
        return;
      }
      inited := false;
    }

    /** `getGlobalVolume()`: -1.0 when not initialised, else the mixer's volume. */
    function GlobalVolume(): (v: real)
      reads this
      ensures !inited ==> v == -1.0
      ensures inited ==> v == volume
    {
      if !inited then -1.0 else volume
    }

    /**
     * `setGlobalVolume(v)`: ignored unless initialised; otherwise the next
     * `getGlobalVolume()` returns `v`.
     */
    method SetGlobalVolume(v: real)
      modifies this`volume
      ensures inited ==> GlobalVolume() == v
      ensures !inited ==> GlobalVolume() == -1.0 && volume == old(volume)
    {
      if !inited {
        return;
      }
      volume := v;
    }

    /**
     * `loadSound(name)`: null unless initialised, the resource was found and
     * decoded (`decoded`), and it has one or two channels; on success the
     * counter is incremented (with `int` wrap-around) and is the sound's id.
     */
    method LoadSound(decoded: bool, numChannels: int, allBytes: array<int8>) returns (sound: Option<Sound>)
      requires numChannels == 2 ==> allBytes.Length % 4 == 0
      modifies this`soundCount
      ensures sound.Some? <==> inited && decoded && (numChannels == 1 || numChannels == 2)
      ensures sound.Some? ==> soundCount == Wrap(old(soundCount) + 1) && sound.value.id == soundCount
      ensures sound.None? ==> soundCount == old(soundCount)
      ensures sound.Some? && numChannels == 1 ==> sound.value.left == allBytes && sound.value.right == allBytes
      ensures sound.Some? && numChannels == 2 ==>
        (sound.value.left[..], sound.value.right[..]) == Deinterleave(allBytes[..])
    {
      if !inited || !decoded {
        return None;
      }
      var data := ReadAllBytes(numChannels, allBytes);
      if data.None? {
        return None;
      }
      soundCount := Wrap(soundCount + 1);
      return Some(Sound(data.value.0, data.value.1, soundCount));
    }
  }

  // ---------------------------------------------------------------------------
  // Channel splitting
  // ---------------------------------------------------------------------------

  /**
   * Where the m-th byte of a channel buffer comes from in an interleaved
   * 16-bit stereo stream: frame m/2, byte m%2 of the left sample (the right
   * sample is two bytes further on).
   */
  function LeftIndex(m: nat): (k: nat)
    ensures k % 4 == m % 2 && k / 4 == m / 2
  {
    4 * (m / 2) + m % 2
  }

  lemma LeftIndexInFrame(m: nat, n: nat)
    requires m < 2 * n
    ensures LeftIndex(m) + 2 < 4 * n
  {
  }

  /**
   * The two channel buffers that `readAllBytesTwoChannel` fills from a
   * stream of 4-byte frames (left LSB, left MSB, right LSB, right MSB).
   */
  function Deinterleave(s: seq<int8>): (lr: (seq<int8>, seq<int8>))
    requires |s| % 4 == 0
    ensures |lr.0| == |lr.1| == |s| / 2
  {
    (seq(|s| / 2, m requires 0 <= m < |s| / 2 => (LeftIndexInFrame(m, |s| / 4); s[LeftIndex(m)])),
     seq(|s| / 2, m requires 0 <= m < |s| / 2 => (LeftIndexInFrame(m, |s| / 4); s[LeftIndex(m) + 2])))
  }

  /** The interleaved stream that plays two equally long 16-bit channel buffers. */
  function Interleave(l: seq<int8>, r: seq<int8>): (s: seq<int8>)
    requires |l| == |r| && |l| % 2 == 0
    ensures |s| == 2 * |l| && |s| % 4 == 0
  {
    seq(2 * |l|, k requires 0 <= k < 2 * |l| =>
      if k % 4 < 2 then l[2 * (k / 4) + k % 4] else r[2 * (k / 4) + k % 4 - 2])
  }

  /** Frame k of the stream lands as bytes 2k, 2k+1 of each channel. */
  lemma DeinterleaveFrames(s: seq<int8>, k: nat)
    requires |s| % 4 == 0 && k < |s| / 4
    ensures Deinterleave(s).0[2 * k] == s[4 * k] && Deinterleave(s).0[2 * k + 1] == s[4 * k + 1]
    ensures Deinterleave(s).1[2 * k] == s[4 * k + 2] && Deinterleave(s).1[2 * k + 1] == s[4 * k + 3]
  {
    assert LeftIndex(2 * k) == 4 * k;
    assert LeftIndex(2 * k + 1) == 4 * k + 1;
  }

  /** Splitting loses nothing: re-interleaving the channels gives back the stream. */
  lemma InterleaveDeinterleave(s: seq<int8>)
    requires |s| % 4 == 0
    ensures Interleave(Deinterleave(s).0, Deinterleave(s).1) == s
  {
    var lr := Deinterleave(s);
    var t := Interleave(lr.0, lr.1);
    forall k | 0 <= k < |s|
      ensures t[k] == s[k]
    {
      var m := 2 * (k / 4) + k % 4;
      if k % 4 < 2 {
        assert LeftIndex(m) == k;
      } else {
        assert LeftIndex(m - 2) == k - 2;
      }
    }
  }

  /** And splitting an interleaved stream gives back its channels. */
  lemma DeinterleaveInterleave(l: seq<int8>, r: seq<int8>)
    requires |l| == |r| && |l| % 2 == 0
    ensures Deinterleave(Interleave(l, r)) == (l, r)
  {
    var s := Interleave(l, r);
    var lr := Deinterleave(s);
    forall m | 0 <= m < |l|
      ensures lr.0[m] == l[m] && lr.1[m] == r[m]
    {
      var k := LeftIndex(m);
      assert k % 4 < 2 && 2 * (k / 4) + k % 4 == m;
      assert (k + 2) % 4 >= 2 && (k + 2) / 4 == k / 4 && (k + 2) % 4 == k % 4 + 2;
    }
    assert lr.0 == l && lr.1 == r;
  }

  /**
   * One frame of `readAllBytesTwoChannel`: bytes i .. i + 3 go to bytes j,
   * j + 1 of each channel, extending the channels' agreement with the
   * de-interleaved stream by one frame.
   */
  method CopyFrame(allBytes: array<int8>, left: array<int8>, right: array<int8>, i: nat, j: nat)
    requires left != right && left != allBytes && right != allBytes
    requires allBytes.Length % 4 == 0 && left.Length == right.Length == allBytes.Length / 2
    requires i == 2 * j && i + 3 < allBytes.Length && j % 2 == 0
    requires forall m :: 0 <= m < j ==> left[m] == Deinterleave(allBytes[..]).0[m] && right[m] == Deinterleave(allBytes[..]).1[m]
    modifies left, right
    ensures forall m :: 0 <= m < j + 2 ==> left[m] == Deinterleave(allBytes[..]).0[m] && right[m] == Deinterleave(allBytes[..]).1[m]
  {
    DeinterleaveFrames(allBytes[..], j / 2);
    left[j] := allBytes[i];
    left[j + 1] := allBytes[i + 1];
    right[j] := allBytes[i + 2];
    right[j + 1] := allBytes[i + 3];
  }

  /** `readAllBytesTwoChannel`: the de-interleaving loop over the stream's bytes. */
  method ReadAllBytesTwoChannel(allBytes: array<int8>) returns (left: array<int8>, right: array<int8>)
    requires allBytes.Length % 4 == 0
    ensures (left[..], right[..]) == Deinterleave(allBytes[..])
  {
    left := new int8[allBytes.Length / 2](_ => 0);
    right := new int8[allBytes.Length / 2](_ => 0);
    ghost var lr := Deinterleave(allBytes[..]);
    var i, j := 0, 0;
    while i < allBytes.Length
      invariant i <= allBytes.Length && i == 2 * j && j % 2 == 0 && i % 4 == 0
      invariant forall m :: 0 <= m < j ==> left[m] == lr.0[m] && right[m] == lr.1[m]
    {
      CopyFrame(allBytes, left, right, i, j);
      i, j := i + 4, j + 2;
    }
    assert j == left.Length == right.Length == |lr.0| == |lr.1|;
    assert left[..] == lr.0;
    assert right[..] == lr.1;
  }

  /**
   * `readAllBytes`: a mono stream is used for both channels without copying,
   * a stereo stream is split, and any other channel count is refused.
   */
  method ReadAllBytes(numChannels: int, allBytes: array<int8>) returns (data: Option<(array<int8>, array<int8>)>)
    requires numChannels == 2 ==> allBytes.Length % 4 == 0
    ensures numChannels == 1 ==> data == Some((allBytes, allBytes))
    ensures numChannels == 2 ==> data.Some? && (data.value.0[..], data.value.1[..]) == Deinterleave(allBytes[..])
    ensures numChannels != 1 && numChannels != 2 ==> data == None
  {
    if numChannels == 1 {
      return Some((allBytes, allBytes));
    } else if numChannels == 2 {
      var left, right := ReadAllBytesTwoChannel(allBytes);
      return Some((left, right));
    }
    return None;
  }

  // ---------------------------------------------------------------------------
  // 8-bit to 16-bit widening
  // ---------------------------------------------------------------------------

  /**
   * `floatVal * Short.MAX_VALUE` for one 8-bit sample: divided by 128 when
   * negative and by 127 otherwise, clamped to [-1, 1], then scaled.
   */
  function ScaledSample(s: int8): (r: real)
    ensures -(ShortMax as real) <= r <= ShortMax as real
    ensures (r < 0.0) == (s < 0) && (r == 0.0) == (s == 0)
  {
    var f := (s as real) / (if s < 0 then 128.0 else 127.0);
    var clamped := if f < -1.0 then -1.0 else if f > 1.0 then 1.0 else f;
    clamped * (ShortMax as real)
  }

  lemma FloorOfQuotient(a: nat, b: int)
    requires 0 < b
    ensures ((a as real) / (b as real)).Floor == a / b
  {
    var q, r := a / b, a % b;
    assert (a as real) == (q as real) * (b as real) + (r as real);
    assert (a as real) / (b as real) == (q as real) + (r as real) / (b as real);
    assert 0.0 <= (r as real) / (b as real) < 1.0;
  }

  /** The clamps never fire: the scaled value is the exact quotient. */
  lemma ScaledSampleExact(s: int8)
    ensures s >= 0 ==> ScaledSample(s) == ((ShortMax * s as int) as real) / 127.0
    ensures s < 0 ==> ScaledSample(s) == -(((ShortMax * -(s as int)) as real) / 128.0)
  {
  }

  /** `val`, the 16-bit value of an 8-bit sample: it keeps the sample's sign and stays within a short. */
  function SampleValue(s: int8): (v: int)
    ensures -ShortMax <= v <= ShortMax
    ensures (v < 0) == (s < 0) && (v == 0) == (s == 0)
  {
    SampleValueClosedForm(s);
    Truncate(ScaledSample(s))
  }

  /**
   * The conversion is the exact scaled quotient rounded toward zero: -128 maps
   * to -32767 and 127 to 32767.
   */
  lemma SampleValueClosedForm(s: int8)
    ensures s >= 0 ==> Truncate(ScaledSample(s)) == (ShortMax * s as int) / 127
    ensures s < 0 ==> Truncate(ScaledSample(s)) == -((ShortMax * -(s as int)) / 128)
    ensures Truncate(ScaledSample(-128)) == -ShortMax && Truncate(ScaledSample(127)) == ShortMax
  {
    ScaledSampleExact(s);
    if s >= 0 {
      FloorOfQuotient(ShortMax * s as int, 127);
    } else {
      FloorOfQuotient(ShortMax * -(s as int), 128);
    }
    ScaledSampleExact(-128);
    ScaledSampleExact(127);
    FloorOfQuotient(ShortMax * 128, 128);
    FloorOfQuotient(ShortMax * 127, 127);
  }

  /** `(byte) (val & 0xFF)`, the low byte. */
  function Lsb(v: int): int8 { ByteCast(v % 256) }

  /** `(byte) ((val >> 8) & 0xFF)`, the high byte (`>>` is an arithmetic shift). */
  function Msb(v: int): int8 { ByteCast((v / 256) % 256) }

  /**
   * The 16-bit little-endian signed value a player reads from two bytes: a
   * short, negative exactly when the high byte is, whose low byte is `lo`.
   */
  function Decode16(lo: int8, hi: int8): (v: int)
    ensures -32768 <= v <= 32767
    ensures (v < 0) == (hi < 0)
    ensures v % 256 == (lo as int) % 256 && v / 256 == hi as int
  {
    (hi as int) * 256 + (lo as int) % 256
  }

  /** Writing LSB then MSB is a faithful 16-bit little-endian encoding of every short. */
  lemma DecodeEncode(v: int)
    requires -32768 <= v <= 32767
    ensures Decode16(Lsb(v), Msb(v)) == v
  {
    assert Msb(v) as int == v / 256;
    assert (Lsb(v) as int) % 256 == v % 256;
  }

  /** Byte k of the widened stream: the LSB or MSB of sample k/2. */
  function WidenByte(s: seq<int8>, k: nat): int8
    requires k < 2 * |s|
  {
    var v := SampleValue(s[k / 2]);
    if k % 2 == 0 then Lsb(v) else Msb(v)
  }

  /** The two bytes that sample i occupies in the widened stream. */
  lemma WidenBytesOf(s: seq<int8>, i: nat)
    requires i < |s|
    ensures Widen(s)[2 * i] == Lsb(SampleValue(s[i]))
    ensures Widen(s)[2 * i + 1] == Msb(SampleValue(s[i]))
  {
    assert (2 * i) / 2 == i && (2 * i + 1) / 2 == i;
  }

  /** The 16-bit little-endian stream for 8-bit samples, two bytes per sample. */
  function Widen(s: seq<int8>): (out: seq<int8>)
    ensures |out| == 2 * |s|
  {
    seq(2 * |s|, k requires 0 <= k < 2 * |s| => WidenByte(s, k))
  }

  /** A player reading the widened stream as 16-bit little-endian gets back every sample's value. */
  lemma WidenDecodes(s: seq<int8>, i: nat)
    requires i < |s|
    ensures Decode16(Widen(s)[2 * i], Widen(s)[2 * i + 1]) == SampleValue(s[i])
  {
    WidenBytesOf(s, i);
    DecodeEncode(SampleValue(s[i]));
  }

  /** `WidenDecodes` with the byte position named `k`. */
  lemma WidenDecodesAt(s: seq<int8>, i: nat, k: nat)
    requires i < |s| && k == 2 * i
    ensures Decode16(Widen(s)[k], Widen(s)[k + 1]) == SampleValue(s[i])
  {
    WidenDecodes(s, i);
  }

  /**
   * The loop body for one sample: `val` for `data[i]`, stored MSB first into
   * `buf[j + 1]`, then LSB into `buf[j]`, where `j == 2 * i`.
   */
  method WidenSample(data: array<int8>, buf: array<int8>, i: nat, j: nat)
    requires data != buf && i < data.Length && j == 2 * i && j + 1 < buf.Length
    modifies buf
    ensures buf[j] == Widen(data[..])[j] && buf[j + 1] == Widen(data[..])[j + 1]
    ensures forall k :: 0 <= k < buf.Length && k != j && k != j + 1 ==> buf[k] == old(buf[k])
  {
    var val := SampleValue(data[i]);
    buf[j + 1] := Msb(val);
    buf[j] := Lsb(val);
    WidenBytesOf(data[..], i);
  }

  /**
   * `convertMono8Bit`: null exactly when doubling the length overflows an
   * `int`; otherwise the 16-bit rendering of every sample.
   */
  method ConvertMono8Bit(data: array<int8>) returns (newData: array?<int8>)
    requires data.Length <= IntMax
    ensures newData == null <==> data.Length >= 0x4000_0000
    ensures newData != null ==> newData[..] == Widen(data[..])
  {
    WrapOfSmall(data.Length * 2);
    var newNumBytes := Wrap(data.Length * 2);
    if newNumBytes < 0 {
      return null;
    }
    newData := new int8[newNumBytes](_ => 0);
    ghost var wide := Widen(data[..]);
    var i, j := 0, 0;
    while i < data.Length
      invariant 0 <= i <= data.Length && j == 2 * i
      invariant newData.Length == 2 * data.Length
      invariant forall k :: 0 <= k < j ==> newData[k] == wide[k]
    {
      WidenSample(data, newData, i, j);
      i, j := i + 1, j + 2;
    }
  }

  /** What `convertStereo8Bit` ends with. */
  datatype Conversion = NullStream | Thrown | Converted(bytes: array<int8>)

  /** The bytes the stereo conversion as written produces: the widened samples followed by as many zero bytes. */
  function StereoAsWrittenBytes(s: seq<int8>): (out: seq<int8>)
    ensures |out| == 4 * |s|
  {
    Widen(s) + seq(2 * |s|, _ => 0 as int8)
  }

  /** The loop body for one stereo frame: samples i, i + 1 widened into bytes j .. j + 3. */
  method WidenFrame(data: array<int8>, buf: array<int8>, i: nat, j: nat)
    requires data != buf && i + 1 < data.Length && j == 2 * i && j + 3 < buf.Length
    modifies buf
    ensures forall k :: j <= k < j + 4 ==> buf[k] == Widen(data[..])[k]
    ensures forall k :: 0 <= k < buf.Length && !(j <= k < j + 4) ==> buf[k] == old(buf[k])
  {
    WidenSample(data, buf, i, j);
    WidenSample(data, buf, i + 1, j + 2);
  }

  /**
   * The frame loop of `convertStereo8Bit`: for each pair of 8-bit samples it
   * stores the left then the right 16-bit value. It throws (`thrown`) exactly
   * when the buffer is shorter than the `2 * data.length` bytes it writes;
   * otherwise those bytes are the widened samples and the rest is untouched.
   */
  method StereoFrameLoop(data: array<int8>, newData: array<int8>) returns (thrown: bool)
    requires data != newData && data.Length % 2 == 0 && newData.Length % 4 == 0
    modifies newData
    ensures thrown <==> newData.Length < 2 * data.Length
    ensures !thrown ==> newData[..2 * data.Length] == Widen(old(data[..]))
    ensures !thrown ==> newData[2 * data.Length..] == old(newData[2 * data.Length..])
  {
    ghost var samples := data[..];
    ghost var wide := Widen(samples);
    ghost var frames := data.Length / 2;
    ghost var cap := newData.Length / 4;
    ghost var f := 0;
    var i, j := 0, 0;
    while i < data.Length
      invariant 0 <= f <= frames && i == 2 * f && j == 4 * f && f <= cap
      invariant data[..] == samples
      invariant forall k :: 0 <= k < j ==> newData[k] == wide[k]
      invariant forall k :: j <= k < newData.Length ==> newData[k] == old(newData[k])
    {
      if j + 1 >= newData.Length {
        return true;
      }
      WidenFrame(data, newData, i, j);
      i, j, f := i + 2, j + 4, f + 1;
    }
    assert newData[..2 * data.Length] == wide;
    return false;
  }

  /**
   * `convertStereo8Bit` as written: it allocates `data.length * 2 * 2` bytes.
   * Null when that product wraps negative; an index exception when it wraps to
   * a non-negative value; otherwise a buffer twice the needed size whose second
   * half stays zero.
   */
  method ConvertStereo8BitAsWritten(data: array<int8>) returns (r: Conversion)
    requires data.Length <= IntMax && data.Length % 2 == 0
    ensures r.NullStream? <==> Wrap(4 * data.Length) < 0
    ensures r.Thrown? <==> 0 <= Wrap(4 * data.Length) < 4 * data.Length
    ensures r.Converted? ==> r.bytes[..] == StereoAsWrittenBytes(data[..])
  {
    StereoSize(data.Length);
    var newNumBytes := Wrap(data.Length * 2 * 2);
    if newNumBytes < 0 {
      return NullStream;
    }
    var newData := new int8[newNumBytes](_ => 0);
    ghost var blank := newData[..];
    var thrown := StereoFrameLoop(data, newData);
    if thrown {
      return Thrown;
    }
    StereoLayout(newData[..], data[..], blank);
    return Converted(newData);
  }

  /** The wrapped size `data.length * 2 * 2`: a non-negative result is a multiple of 4, and room enough only when no wrap happened. */
  lemma StereoSize(n: nat)
    requires n <= IntMax
    ensures Wrap(n * 2 * 2) == Wrap(4 * n)
    ensures Wrap(4 * n) >= 0 ==> Wrap(4 * n) % 4 == 0
    ensures Wrap(4 * n) >= 0 ==> (Wrap(4 * n) >= 2 * n <==> Wrap(4 * n) == 4 * n)
  {
    WrapOfSmall(4 * n);
  }

  /** A buffer of 4n bytes holding the widened samples first and untouched zeros after is the as-written output. */
  lemma StereoLayout(out: seq<int8>, s: seq<int8>, blank: seq<int8>)
    requires |out| == |blank| == 4 * |s|
    requires forall k :: 0 <= k < |blank| ==> blank[k] == 0
    requires out[..2 * |s|] == Widen(s) && out[2 * |s|..] == blank[2 * |s|..]
    ensures out == StereoAsWrittenBytes(s)
  {
    assert out == out[..2 * |s|] + out[2 * |s|..];
  }

  /**
   * The as-written stereo output declares `length / 4` frames, twice the
   * input's; every frame past the input's is silence.
   */
  lemma StereoAsWrittenPadsSilence(s: seq<int8>)
    requires |s| % 2 == 0 && |s| > 0
    ensures |StereoAsWrittenBytes(s)| / 4 == 2 * (|s| / 2)
    ensures StereoAsWrittenBytes(s) != Widen(s)
    ensures forall k :: 2 * |s| <= k < 4 * |s| ==> StereoAsWrittenBytes(s)[k] == 0
  {
  }

  /** One stereo frame of samples (1, 2) becomes two frames, the second silent. */
  lemma StereoAsWrittenExample()
    ensures StereoAsWrittenBytes([1, 2])[4..] == [0, 0, 0, 0]
    ensures Decode16(StereoAsWrittenBytes([1, 2])[0], StereoAsWrittenBytes([1, 2])[1]) == 258
    ensures Decode16(StereoAsWrittenBytes([1, 2])[2], StereoAsWrittenBytes([1, 2])[3]) == 516
  {
    var s: seq<int8> := [1, 2];
    var wide := Widen(s);
    var out := StereoAsWrittenBytes(s);
    assert out[..4] == wide && out[4..] == [0, 0, 0, 0];
    SmallSampleValues();
    WidenDecodes(s, 0);
    WidenDecodes(s, 1);
  }

  /** The samples 1 and 2 widen to 258 and 516. */
  lemma SmallSampleValues()
    ensures SampleValue(1) == 258 && SampleValue(2) == 516
  {
    SampleValueClosedForm(1);
    assert 32767 / 127 == 258;
    SampleValueClosedForm(2);
    assert 65534 / 127 == 516;
  }

  /**
   * The overflow guard misses a wrap to a non-negative size: 2^30 input bytes
   * give `4 * 2^30`, which wraps to 0, so the guard passes and the first write
   * is out of bounds.
   */
  lemma StereoOverflowGuardMissed()
    ensures Wrap(4 * 0x4000_0000) == 0 && 0 < 4 * 0x4000_0000
    ensures Wrap(4 * (0x4000_0000 + 2)) == 8
  {
    WrapOfSmall(4 * 0x4000_0000);
    WrapOfSmall(4 * (0x4000_0000 + 2));
  }

  /**
   * `convertStereo8Bit` corrected: one output byte pair per input byte, so
   * `2 * data.length` bytes; null exactly when that overflows, and otherwise
   * the 16-bit rendering of every sample, left and right kept in place.
   */
  method ConvertStereo8Bit(data: array<int8>) returns (newData: array?<int8>)
    requires data.Length <= IntMax && data.Length % 2 == 0
    ensures newData == null <==> data.Length >= 0x4000_0000
    ensures newData != null ==> newData[..] == Widen(data[..])
  {
    WrapOfSmall(data.Length * 2);
    var newNumBytes := Wrap(data.Length * 2);
    if newNumBytes < 0 {
      return null;
    }
    newData := new int8[newNumBytes](_ => 0);
    var thrown := StereoFrameLoop(data, newData);
    if thrown {
      assert false;
    }
    assert newData[..] == newData[..2 * data.Length];
  }

  /** The corrected stereo stream holds one 4-byte frame per input frame: left sample then right sample. */
  lemma StereoFrames(s: seq<int8>, f: nat)
    requires |s| % 2 == 0 && f < |s| / 2
    ensures |Widen(s)| / 4 == |s| / 2
    ensures Decode16(Widen(s)[4 * f], Widen(s)[4 * f + 1]) == SampleValue(s[2 * f])
    ensures Decode16(Widen(s)[4 * f + 2], Widen(s)[4 * f + 3]) == SampleValue(s[2 * f + 1])
  {
    assert |Widen(s)| == 4 * (|s| / 2);
    WidenDecodesAt(s, 2 * f, 4 * f);
    WidenDecodesAt(s, 2 * f + 1, 4 * f + 2);
  }
}
