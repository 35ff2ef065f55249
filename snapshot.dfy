/** Sizing of the output buffer of a screen capture, and the pixel read into
    it. */
module Snapshot {

  newtype byte = x: int | 0 <= x < 256

  /** The buffer after a capture of a `width` by `height` rectangle has sized
      it: exactly three bytes (tightly packed RGB) per pixel; a shorter buffer
      keeps its contents and is padded with zeros, a longer one is cut down to
      its prefix of that length. */
  function SizedBuffer(out: seq<byte>, width: nat, height: nat): (r: seq<byte>)
    ensures |r| == width * height * 3
    ensures |out| <= |r| ==> r[..|out|] == out && forall i :: |out| <= i < |r| ==> r[i] == 0
    ensures |r| <= |out| ==> r == out[..|r|]
  {
    var size := width * height * 3;
    if |out| < size then out + Zeros(size - |out|) else out[..size]
  }

  function Zeros(n: nat): (z: seq<byte>)
    ensures |z| == n && forall i :: 0 <= i < n ==> z[i] == 0
  {
    seq(n, _ => 0)
  }

  /** The buffer after the pixel read has written `pixels` into it: the read
      writes over the buffer from its start and never changes its length; the
      bytes the read does not reach keep their value. */
  function ReadInto(buf: seq<byte>, pixels: seq<byte>): (r: seq<byte>)
    ensures |r| == |buf|
    ensures forall i :: 0 <= i < |r| ==> r[i] == if i < |pixels| then pixels[i] else buf[i]
  {
    if |buf| <= |pixels| then pixels[..|buf|] else pixels + buf[|pixels|..]
  }

  /** A read that delivers every pixel of the rectangle leaves exactly those
      pixels, whatever the buffer held before. */
  lemma FullReadReplacesBuffer(out: seq<byte>, width: nat, height: nat, pixels: seq<byte>)
    requires |pixels| == width * height * 3
    ensures ReadInto(SizedBuffer(out, width, height), pixels) == pixels
  {
    var r := ReadInto(SizedBuffer(out, width, height), pixels);
    assert |r| == |pixels|;
    assert forall i :: 0 <= i < |r| ==> r[i] == pixels[i];
  }

  /** Sizing is idempotent: sizing an already sized buffer changes nothing. */
  lemma SizingIdempotent(out: seq<byte>, width: nat, height: nat)
    ensures SizedBuffer(SizedBuffer(out, width, height), width, height) == SizedBuffer(out, width, height)
  {
  }
}
