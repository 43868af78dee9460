/** The body part both stream generators emit for every tick: a boundary line,
    one Content-Type header, a blank line, the JPEG bytes and a closing CRLF
    (a boundary-delimited body part in the style of section 5.1.1 of RFC 2046,
    served as `multipart/x-mixed-replace; boundary=frame`). */
module Framing {
  import opened Common

  /** `--frame` followed by CRLF. */
  const BoundaryLine: seq<byte> := Ascii("--frame\r\n")
  /** The single header line and the empty line that ends the headers. */
  const HeaderLines: seq<byte> := Ascii("Content-Type: image/jpeg\r\n\r\n")
  const Prefix: seq<byte> := BoundaryLine + HeaderLines
  const CRLF: seq<byte> := Ascii("\r\n")

  /** The chunk yielded for one encoded JPEG. */
  function Chunk(jpeg: seq<byte>): seq<byte>
  {
    Prefix + jpeg + CRLF
  }

  /** A reader's view of one chunk: the JPEG payload when the chunk is well formed. */
  function Unframe(chunk: seq<byte>): (r: Option<seq<byte>>)
    ensures r.Some? ==> |chunk| == |Prefix| + |r.value| + |CRLF|
  {
    if |chunk| >= |Prefix| + |CRLF| && chunk[..|Prefix|] == Prefix && chunk[|chunk| - |CRLF|..] == CRLF
    then Some(chunk[|Prefix|..|chunk| - |CRLF|])
    else None
  }

  predicate IsChunk(c: seq<byte>) {
    Unframe(c).Some?
  }

  /** Every chunk opens with the exact boundary line and then the Content-Type header,
      and closes with CRLF; its payload is the JPEG, untouched. */
  lemma ChunkShape(jpeg: seq<byte>)
    ensures |Chunk(jpeg)| == |BoundaryLine| + |HeaderLines| + |jpeg| + 2
    ensures Chunk(jpeg)[..|BoundaryLine|] == BoundaryLine
    ensures Chunk(jpeg)[|BoundaryLine|..|Prefix|] == HeaderLines
    ensures Chunk(jpeg)[|Prefix|..|Prefix| + |jpeg|] == jpeg
    ensures Chunk(jpeg)[|Chunk(jpeg)| - 2..] == CRLF
  {
    var c := Chunk(jpeg);
    assert c == BoundaryLine + (HeaderLines + (jpeg + CRLF));
  }

  /** Reading a chunk back gives the JPEG that was framed. */
  lemma UnframeChunk(jpeg: seq<byte>)
    ensures Unframe(Chunk(jpeg)) == Some(jpeg)
  {
    var c := Chunk(jpeg);
    assert c[..|Prefix|] == Prefix;
    assert c[|c| - |CRLF|..] == CRLF;
    assert c[|Prefix|..|c| - |CRLF|] == jpeg;
  }

  /** Conversely, a well-formed chunk is exactly the framing of its payload. */
  lemma ChunkUnframe(c: seq<byte>)
    requires IsChunk(c)
    ensures Chunk(Unframe(c).value) == c
  {
    var p := Unframe(c).value;
    assert c == c[..|Prefix|] + c[|Prefix|..|c| - |CRLF|] + c[|c| - |CRLF|..];
  }

  /** Framing is injective: distinct JPEGs give distinct chunks. */
  lemma ChunkInjective(j1: seq<byte>, j2: seq<byte>)
    ensures Chunk(j1) == Chunk(j2) <==> j1 == j2
  {
    if Chunk(j1) == Chunk(j2) {
      UnframeChunk(j1);
      UnframeChunk(j2);
    }
  }
}
