/** The helpers of `src/utils/audioUtils.js`: storage encoding of a recording
    as a data URL and back, the `M:SS` time label, the capability probe over
    a fixed list of MIME types, the normalised input level, and waveform
    block averaging. */
module AudioUtils {

  import opened Common
  import opened Text
  import opened Browser
  import Base64

  // ---------------------------------------------------------------------
  // Data URLs

  /** What `FileReader.readAsDataURL` resolves with for a blob:
      `data:<type>;base64,<RFC 4648 encoding of the bytes>`. This is the
      value `blobToBase64` hands back. */
  function BlobToBase64(b: Blob): (url: string)
    ensures |url| >= |"data:;base64,"|
    ensures url[..5] == "data:"
  {
    "data:" + b.mimeType + ";base64," + Base64.Encode(b.bytes)
  }

  const DataMarker: string := ";base64,"

  /** `base64String.split(';base64,')[0].split(':')[1]`; an `undefined`
      type becomes the Blob default, the empty string. */
  function ContentType(url: string): string {
    var fields := Split(Split(url, DataMarker)[0], ":");
    if |fields| > 1 then fields[1] else ""
  }

  /** `base64String.split(';base64,')[1]`; an `undefined` argument reaches
      `atob` as the text "undefined". */
  function Payload(url: string): string {
    var parts := Split(url, DataMarker);
    if |parts| > 1 then parts[1] else "undefined"
  }

  /** `atob`: the decoded bytes as a binary string, one character per byte;
      None when the host throws `InvalidCharacterError`. */
  function Atob(s: string): (r: Option<string>)
    ensures r.Some? ==> forall i :: 0 <= i < |r.value| ==> r.value[i] as int < 256
  {
    match Base64.Decode(s)
    case None => None
    case Some(bytes) => Some(BinaryString(bytes))
  }

  /** A "binary string": one character per byte, its code the byte's value. */
  function BinaryString(bytes: seq<byte>): (s: string)
    ensures |s| == |bytes|
    ensures forall i :: 0 <= i < |bytes| ==> s[i] as int == bytes[i] as int
  {
    seq(|bytes|, i requires 0 <= i < |bytes| => bytes[i] as int as char)
  }

  lemma CharCodesOfBinary(bytes: seq<byte>)
    ensures CharCodes(BinaryString(bytes)) == bytes
  {
  }

  /** Assigning a character code into a `Uint8Array` keeps it modulo 256. */
  function CharCodes(raw: string): (a: seq<byte>)
    ensures |a| == |raw|
    ensures forall i :: 0 <= i < |raw| ==> a[i] as int == raw[i] as int % 256
  {
    seq(|raw|, i requires 0 <= i < |raw| => (raw[i] as int % 256) as byte)
  }

  /** `base64ToBlob` as a value: the blob a data URL decodes to, or the
      error `atob` throws. */
  function ParseDataUrl(url: string): (r: Result<Blob>)
    ensures r.Err? <==> Atob(Payload(url)).None?
    ensures r.Ok? ==> r.value.mimeType == ContentType(url)
    ensures r.Ok? ==> |r.value.bytes| == |Atob(Payload(url)).value|
  {
    match Atob(Payload(url))
    case None => Err("InvalidCharacterError")
    case Some(raw) => Ok(Blob(CharCodes(raw), ContentType(url)))
  }

  /** `base64ToBlob`: split off the type, decode the payload, copy the
      decoded characters' codes into a byte array one by one. */
  method Base64ToBlob(url: string) returns (r: Result<Blob>)
    ensures r.Err? <==> Atob(Payload(url)).None?
    ensures r.Ok? ==> r.value.mimeType == ContentType(url)
    ensures r.Ok? ==> var raw := Atob(Payload(url)).value;
      |r.value.bytes| == |raw| && forall i :: 0 <= i < |raw| ==> r.value.bytes[i] as int == raw[i] as int
    ensures r == ParseDataUrl(url)
  {
    var contentType := ContentType(url);
    var decoded := Atob(Payload(url));
    if decoded.None? {
      return Err("InvalidCharacterError");
    }
    var raw := decoded.value;
    var bytes: seq<byte> := [];
    var i := 0;
    while i < |raw|
      invariant 0 <= i <= |raw|
      invariant |bytes| == i
      invariant forall k :: 0 <= k < i ==> bytes[k] as int == raw[k] as int % 256
    {
      bytes := bytes + [(raw[i] as int % 256) as byte];
      i := i + 1;
    }
    assert bytes == CharCodes(raw);
    r := Ok(Blob(bytes, contentType));
  }

  /** The separator `;base64,` cannot overlap itself. */
  lemma MarkerDoesNotOverlap()
    ensures forall k :: 0 < k < |DataMarker| ==> DataMarker[k] != DataMarker[0]
  {
  }

  /** A string without a given character holds no separator starting with it. */
  lemma NoFirstCharNoOccurrence(s: string, sep: string)
    requires |sep| > 0
    requires forall i :: 0 <= i < |s| ==> s[i] != sep[0]
    ensures !Contains(s, sep)
  {
    forall j: nat | j <= |s|
      ensures !OccursAt(s, sep, j)
    {
      if j + |sep| <= |s| {
        assert s[j..j + |sep|][0] == s[j];
      }
    }
  }

  /** `data:` followed by a type without the marker holds no marker. */
  lemma HeadHasNoMarker(t: string)
    requires !Contains(t, DataMarker)
    ensures !Contains("data:" + t, DataMarker)
  {
    var head := "data:" + t;
    forall j: nat | j <= |head|
      ensures !OccursAt(head, DataMarker, j)
    {
      if j + |DataMarker| <= |head| {
        if j < 5 {
          assert head[j..j + |DataMarker|][0] == head[j];
        } else {
          assert head[j..j + |DataMarker|] == t[j - 5..j - 5 + |DataMarker|];
          assert !OccursAt(t, DataMarker, j - 5);
        }
      }
    }
  }

  /** Base64 text holds no `;`, so no marker. */
  lemma EncodingHasNoMarker(bytes: seq<byte>)
    ensures !Contains(Base64.Encode(bytes), DataMarker)
  {
    var enc := Base64.Encode(bytes);
    assert forall i :: 0 <= i < |enc| ==> enc[i] != ';' by {
      assert forall i :: 0 <= i < |enc| ==> Base64.IsEncodedChar(enc[i]);
    }
    NoFirstCharNoOccurrence(enc, DataMarker);
  }

  /** The data URL of a blob splits at the marker into its head and its encoding. */
  lemma DataUrlSplit(b: Blob)
    requires !Contains(b.mimeType, DataMarker)
    ensures Split(BlobToBase64(b), DataMarker) == ["data:" + b.mimeType, Base64.Encode(b.bytes)]
  {
    var enc := Base64.Encode(b.bytes);
    var head := "data:" + b.mimeType;
    assert BlobToBase64(b) == head + DataMarker + enc;
    MarkerDoesNotOverlap();
    HeadHasNoMarker(b.mimeType);
    EncodingHasNoMarker(b.bytes);
    SplitTwo(head, DataMarker, enc);
  }

  /** A string without a colon holds no `:` separator. */
  lemma NoColon(s: string)
    requires forall i :: 0 <= i < |s| ==> s[i] != ':'
    ensures !Contains(s, ":")
  {
    forall j: nat | j <= |s|
      ensures !OccursAt(s, ":", j)
    {
      if j + 1 <= |s| {
        assert s[j..j + 1] == [s[j]];
      }
    }
  }

  lemma DataHasNoColon()
    ensures !Contains("data", ":")
  {
    var d := "data";
    forall i | 0 <= i < |d|
      ensures d[i] != ':'
    {
      if i == 0 {} else if i == 1 {} else if i == 2 {} else {}
    }
    NoColon(d);
  }

  lemma DataColon(t: string)
    ensures "data:" + t == "data" + ":" + t
  {
  }

  /** The head `data:<type>` splits at the colon into `data` and the type. */
  lemma HeadSplit(t: string)
    requires forall i :: 0 <= i < |t| ==> t[i] != ':'
    ensures Split("data:" + t, ":") == ["data", t]
  {
    DataColon(t);
    DataHasNoColon();
    NoColon(t);
    SplitTwo("data", ":", t);
  }

  /** The data URL of a blob yields its type and its encoding. */
  lemma DataUrlParts(b: Blob)
    requires forall i :: 0 <= i < |b.mimeType| ==> b.mimeType[i] != ':'
    requires !Contains(b.mimeType, DataMarker)
    ensures ContentType(BlobToBase64(b)) == b.mimeType
    ensures Payload(BlobToBase64(b)) == Base64.Encode(b.bytes)
  {
    DataUrlSplit(b);
    HeadSplit(b.mimeType);
  }

  /** Decoding the encoding of some bytes and taking character codes gives the bytes. */
  lemma AtobEncode(bytes: seq<byte>)
    ensures Atob(Base64.Encode(bytes)).Some?
    ensures CharCodes(Atob(Base64.Encode(bytes)).value) == bytes
  {
    var enc := Base64.Encode(bytes);
    Base64.DecodeEncode(bytes);
    assert Atob(enc) == Some(BinaryString(bytes));
    CharCodesOfBinary(bytes);
  }

  /** Storage round trip: reading back the data URL of a blob whose type has
      no `:` and no `;base64,` gives the same type and the same bytes. */
  lemma DataUrlRoundTrip(b: Blob)
    requires forall i :: 0 <= i < |b.mimeType| ==> b.mimeType[i] != ':'
    requires !Contains(b.mimeType, DataMarker)
    ensures ParseDataUrl(BlobToBase64(b)) == Ok(b)
  {
    DataUrlParts(b);
    AtobEncode(b.bytes);
  }

  // ---------------------------------------------------------------------
  // Time label

  /** `formatAudioTime`: `Math.floor(s / 60)`, a colon, then
      `Math.floor(s % 60)` padded to two characters with `0`. */
  function FormatAudioTime(seconds: int): (r: string)
    ensures seconds >= 0 ==> ParseClock(r) == Some(seconds)
    ensures seconds >= 0 ==> IsDecimal(r[..|r| - 3]) && DigitsValue(r[..|r| - 3]) == seconds / 60
    ensures seconds >= 0 ==> AllDigits(r[|r| - 2..]) && DigitsValue(r[|r| - 2..]) == seconds % 60
  {
    var r := IntToString(FloorDiv(seconds, 60)) + ":" + PadStart2(IntToString(TruncRem(seconds, 60)));
    if seconds >= 0 then
      NonNegativeFields(seconds);
      ClockRoundTrip(seconds);
      r
    else r
  }

  /** For a non-negative number of seconds both fields are plain quotient
      and remainder. */
  lemma NonNegativeFields(seconds: nat)
    ensures IntToString(FloorDiv(seconds, 60)) == NatToString(seconds / 60)
    ensures IntToString(TruncRem(seconds, 60)) == NatToString(seconds % 60)
  {
  }

  // ---------------------------------------------------------------------
  // Capability probe

  /** The candidate MIME types, most preferred first. */
  const Candidates: seq<string> := [
    "audio/webm",
    "audio/webm;codecs=opus",
    "audio/ogg;codecs=opus",
    "audio/mp4",
    "audio/mpeg",
    "audio/wav"
  ]

  /** `types.filter(supported)`. */
  function FilterSupported(types: seq<string>, supported: string -> bool): (r: seq<string>)
    ensures IsSubsequence(r, types)
    ensures forall t :: t in r <==> t in types && supported(t)
  {
    if types == [] then []
    else if supported(types[0]) then [types[0]] + FilterSupported(types[1..], supported)
    else FilterSupported(types[1..], supported)
  }

  /** The head of the filtered list is the earliest supported entry. */
  lemma {:induction false} FilterHead(types: seq<string>, supported: string -> bool)
    ensures FilterSupported(types, supported) == [] <==>
              forall i :: 0 <= i < |types| ==> !supported(types[i])
    ensures FilterSupported(types, supported) != [] ==>
              exists k :: 0 <= k < |types| && types[k] == FilterSupported(types, supported)[0]
                && supported(types[k]) && forall j :: 0 <= j < k ==> !supported(types[j])
  {
    if types != [] && !supported(types[0]) {
      var tail := types[1..];
      FilterHead(tail, supported);
      if FilterSupported(tail, supported) != [] {
        var k :| 0 <= k < |tail| && tail[k] == FilterSupported(tail, supported)[0]
                 && supported(tail[k]) && forall j :: 0 <= j < k ==> !supported(tail[j]);
        assert types[k + 1] == tail[k];
        forall j | 0 <= j < k + 1
          ensures !supported(types[j])
        {
          if j > 0 {
            assert types[j] == tail[j - 1];
          }
        }
      }
      forall i | 0 <= i < |types| && FilterSupported(tail, supported) == []
        ensures !supported(types[i])
      {
        if i > 0 {
          assert types[i] == tail[i - 1];
        }
      }
    }
  }

  /** `isAudioRecordingSupported`: `navigator.mediaDevices.getUserMedia` exists. */
  function IsAudioRecordingSupported(env: Environment): bool {
    env.mediaDevices
  }

  /** `getSupportedMimeTypes`. */
  function SupportedMimeTypes(env: Environment): (r: seq<string>)
    ensures !env.mediaRecorder ==> r == []
    ensures IsSubsequence(r, Candidates)
    ensures forall t :: t in r <==> env.mediaRecorder && t in Candidates && env.isTypeSupported(t)
  {
    if !env.mediaRecorder then [] else FilterSupported(Candidates, env.isTypeSupported)
  }

  /** `getBestSupportedMimeType`: the first supported type, or null. */
  function BestSupportedMimeType(env: Environment): (r: Option<string>)
    ensures r.None? <==>
              !env.mediaRecorder || forall i :: 0 <= i < |Candidates| ==> !env.isTypeSupported(Candidates[i])
    ensures r.Some? ==>
              exists k :: 0 <= k < |Candidates| && Candidates[k] == r.value
                && env.isTypeSupported(Candidates[k])
                && forall j :: 0 <= j < k ==> !env.isTypeSupported(Candidates[j])
  {
    var supported := SupportedMimeTypes(env);
    FilterHead(Candidates, env.isTypeSupported);
    if |supported| > 0 then Some(supported[0]) else None
  }

  // ---------------------------------------------------------------------
  // Input level

  function Sum(bins: seq<byte>): nat {
    if bins == [] then 0 else Sum(bins[..|bins| - 1]) + bins[|bins| - 1] as nat
  }

  lemma {:induction false} SumBounds(bins: seq<byte>)
    ensures Sum(bins) <= 255 * |bins|
    ensures Sum(bins) == 0 <==> forall i :: 0 <= i < |bins| ==> bins[i] == 0
    ensures Sum(bins) == 255 * |bins| <==> forall i :: 0 <= i < |bins| ==> bins[i] == 255
  {
    if bins != [] {
      var init := bins[..|bins| - 1];
      SumBounds(init);
      assert forall i :: 0 <= i < |init| ==> init[i] == bins[i];
    }
  }

  /** `getAudioLevel`: the mean of the analyser's byte frequency bins over 255,
      or 0 with no analyser. The analyser is given by its current bins. */
  method GetAudioLevel(analyser: Option<seq<byte>>) returns (level: real)
    requires analyser.Some? ==> |analyser.value| > 0
    ensures analyser.None? ==> level == 0.0
    ensures analyser.Some? ==>
              level == (Sum(analyser.value) as real / |analyser.value| as real) / 255.0
    ensures 0.0 <= level <= 1.0
    ensures analyser.Some? ==> (level == 0.0 <==> forall i :: 0 <= i < |analyser.value| ==> analyser.value[i] == 0)
    ensures analyser.Some? ==> (level == 1.0 <==> forall i :: 0 <= i < |analyser.value| ==> analyser.value[i] == 255)
  {
    if analyser.None? {
      return 0.0;
    }
    var bins := analyser.value;
    var sum := 0;
    var i := 0;
    while i < |bins|
      invariant 0 <= i <= |bins|
      invariant sum == Sum(bins[..i])
    {
      assert bins[..i + 1][..i] == bins[..i];
      sum := sum + bins[i] as int;
      i := i + 1;
    }
    assert bins[..|bins|] == bins;
    SumBounds(bins);
    var average := sum as real / |bins| as real;
    level := average / 255.0;
    MeanBounds(sum as real, |bins| as real);
  }

  /** A sum of `n` values in [0, 255], divided by `n` and by 255, lies in
      [0, 1], reaching 0 and 1 only at the extremes. */
  lemma MeanBounds(sum: real, n: real)
    requires n > 0.0
    requires 0.0 <= sum <= 255.0 * n
    ensures 0.0 <= sum / n / 255.0 <= 1.0
    ensures sum / n / 255.0 == 0.0 <==> sum == 0.0
    ensures sum / n / 255.0 == 1.0 <==> sum == 255.0 * n
  {
    var level := sum / n / 255.0;
    assert level * (255.0 * n) == sum;
  }

  // ---------------------------------------------------------------------
  // Waveform

  function Abs(x: real): real {
    if x < 0.0 then -x else x
  }

  /** The sum of magnitudes of a run of samples. */
  function AbsSum(s: seq<real>): (r: real)
    ensures r >= 0.0
  {
    if s == [] then 0.0 else AbsSum(s[..|s| - 1]) + Abs(s[|s| - 1])
  }

  lemma {:induction false} AbsSumBound(s: seq<real>)
    requires forall i :: 0 <= i < |s| ==> -1.0 <= s[i] <= 1.0
    ensures AbsSum(s) <= |s| as real
  {
    if s != [] {
      var init := s[..|s| - 1];
      assert forall i :: 0 <= i < |init| ==> init[i] == s[i];
      AbsSumBound(init);
    }
  }

  /** `Math.floor(channelData.length / width)`; a width of 0 leaves the loop
      empty, so its block size does not matter. */
  function BlockSize(length: nat, width: nat): nat {
    if width == 0 then 0 else length / width
  }

  lemma BlockInRange(length: nat, width: nat, i: nat)
    requires 0 < width <= length
    requires i < width
    ensures 0 < BlockSize(length, width)
    ensures BlockSize(length, width) * i + BlockSize(length, width) <= length
  {
    var b := length / width;
    assert length == b * width + length % width;
    MulMonotone(b, i + 1, width);
  }

  lemma {:induction false} MulMonotone(b: nat, x: nat, y: nat)
    requires x <= y
    ensures b * x <= b * y
    decreases y - x
  {
    if x < y {
      MulMonotone(b, x, y - 1);
      assert b * y == b * (y - 1) + b;
    }
  }

  /** Point `i` of the waveform: `height` times the mean magnitude of block `i`. */
  function WaveformPoint(channel: seq<real>, width: nat, height: real, i: nat): real
    requires 0 < width <= |channel|
    requires i < width
  {
    BlockInRange(|channel|, width, i);
    var b := BlockSize(|channel|, width);
    AbsSum(channel[b * i..b * i + b]) / b as real * height
  }

  /** With samples in [-1, 1] and a non-negative height, every point lies
      between 0 and the height. */
  lemma WaveformPointBounds(channel: seq<real>, width: nat, height: real, i: nat)
    requires 0 < width <= |channel|
    requires i < width
    requires forall k :: 0 <= k < |channel| ==> -1.0 <= channel[k] <= 1.0
    requires height >= 0.0
    ensures 0.0 <= WaveformPoint(channel, width, height, i) <= height
  {
    BlockInRange(|channel|, width, i);
    var b := BlockSize(|channel|, width);
    var block := channel[b * i..b * i + b];
    AbsSumBound(block);
    UnitRatio(AbsSum(block), b as real, height);
  }

  /** A non-negative sum at most `n`, averaged over `n` and scaled, stays
      between 0 and the scale. */
  lemma UnitRatio(sum: real, n: real, height: real)
    requires n > 0.0
    requires 0.0 <= sum <= n
    requires height >= 0.0
    ensures 0.0 <= sum / n * height <= height
  {
    var avg := sum / n;
    assert avg * n == sum;
    assert avg <= 1.0;
    assert avg * height <= 1.0 * height;
  }

  /** The inner loop of `generateWaveformData`: the magnitudes of one block, summed. */
  method BlockSum(channel: seq<real>, blockStart: nat, blockSize: nat) returns (sum: real)
    requires blockStart + blockSize <= |channel|
    ensures sum == AbsSum(channel[blockStart..blockStart + blockSize])
  {
    sum := 0.0;
    var j := 0;
    while j < blockSize
      invariant 0 <= j <= blockSize
      invariant sum == AbsSum(channel[blockStart..blockStart + j])
    {
      assert channel[blockStart..blockStart + j + 1][..j] == channel[blockStart..blockStart + j];
      sum := sum + Abs(channel[blockStart + j]);
      j := j + 1;
    }
  }

  /** `generateWaveformData` over the first channel's samples. */
  method GenerateWaveformData(channel: seq<real>, width: nat, height: real) returns (points: seq<real>)
    requires width <= |channel|
    ensures |points| == width
    ensures forall i :: 0 <= i < width ==> points[i] == WaveformPoint(channel, width, height, i)
  {
    var blockSize := BlockSize(|channel|, width);
    points := [];
    var i := 0;
    while i < width
      invariant 0 <= i <= width
      invariant |points| == i
      invariant forall k :: 0 <= k < i ==> points[k] == WaveformPoint(channel, width, height, k)
    {
      BlockInRange(|channel|, width, i);
      var blockStart := blockSize * i;
      var sum := BlockSum(channel, blockStart, blockSize);
      var average := sum / blockSize as real;
      var scaledAverage := average * height;
      points := points + [scaledAverage];
      i := i + 1;
    }
  }
}
