/** The browser services the application leans on, reduced to the values
    it observes: Blobs as typed byte strings, and the capability queries
    (`navigator.mediaDevices`, `window.MediaRecorder`,
    `MediaRecorder.isTypeSupported`) as an environment value. */
module Browser {

  newtype byte = x: int | 0 <= x < 256

  /** A Blob: its content bytes and its `type` attribute. */
  datatype Blob = Blob(bytes: seq<byte>, mimeType: string) {

    /** `blob.size`. */
    function Size(): nat {
      |bytes|
    }
  }

  /** The bytes of a sequence of blob parts, in order. */
  function ConcatBytes(parts: seq<Blob>): (r: seq<byte>)
    ensures |parts| == 0 ==> r == []
  {
    if parts == [] then [] else ConcatBytes(parts[..|parts| - 1]) + parts[|parts| - 1].bytes
  }

  /** `new Blob(parts, { type })`. */
  function NewBlob(parts: seq<Blob>, mimeType: string): (b: Blob)
    ensures b.mimeType == mimeType
    ensures b.Size() == 0 <==> forall i :: 0 <= i < |parts| ==> parts[i].Size() == 0
  {
    ConcatSizeZero(parts);
    Blob(ConcatBytes(parts), mimeType)
  }

  /** The concatenation is empty exactly when every part is. */
  lemma {:induction false} ConcatSizeZero(parts: seq<Blob>)
    ensures |ConcatBytes(parts)| == 0 <==> forall i :: 0 <= i < |parts| ==> parts[i].Size() == 0
  {
    if parts != [] {
      ConcatSizeZero(parts[..|parts| - 1]);
      var init := parts[..|parts| - 1];
      assert forall i :: 0 <= i < |init| ==> init[i] == parts[i];
    }
  }

  /** Appending one part appends its bytes. */
  lemma ConcatSnoc(parts: seq<Blob>, b: Blob)
    ensures ConcatBytes(parts + [b]) == ConcatBytes(parts) + b.bytes
  {
    assert (parts + [b])[..|parts|] == parts;
  }

  /** What the host offers: whether `navigator.mediaDevices.getUserMedia`
      exists, whether `window.MediaRecorder` exists, and which MIME types
      `MediaRecorder.isTypeSupported` accepts. */
  datatype Environment = Environment(
    mediaDevices: bool,
    mediaRecorder: bool,
    isTypeSupported: string -> bool)
}
