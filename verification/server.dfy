/** The relay server: it pulls the camera's multipart stream, cuts JPEG images
    out of the growing byte buffer by their SOI/EOI markers (ITU-T T.81,
    Annex B, Table B.1: SOI = FF D8, EOI = FF D9), keeps the last decodable
    image, and re-serves it to browsers one chunk per tick. */
module Server {
  import opened Common
  import opened Framing

  const MarkerByte: byte := 0xFF
  /** Second byte of the start-of-image marker. */
  const SOI: byte := 0xD8
  /** Second byte of the end-of-image marker. */
  const EOI: byte := 0xD9
  const OkStatus: int := 200
  const JpegQuality: int := 85

  /** The marker `FF second` starts at index `i` of `s`. */
  predicate MarkerAt(s: seq<byte>, i: int, second: byte) {
    0 <= i && i + 1 < |s| && s[i] == MarkerByte && s[i + 1] == second
  }

  /** `s.find(b'\xff' + second, from)`: the first index at or after `from` where
      the two-byte marker starts, or -1. */
  function FindFrom(s: seq<byte>, second: byte, from: nat): (r: int)
    ensures r == -1 || (from <= r && MarkerAt(s, r, second))
    ensures r == -1 ==> forall i :: from <= i ==> !MarkerAt(s, i, second)
    ensures r != -1 ==> forall i :: from <= i < r ==> !MarkerAt(s, i, second)
    decreases |s| - from
  {
    if from + 1 >= |s| then -1
    else if s[from] == MarkerByte && s[from + 1] == second then from
    else FindFrom(s, second, from + 1)
  }

  /** `s.find(b'\xff' + second)`: the first occurrence of the marker, or -1. */
  function Find(s: seq<byte>, second: byte): (r: int)
    ensures r == -1 <==> forall i :: 0 <= i ==> !MarkerAt(s, i, second)
    ensures r != -1 ==> MarkerAt(s, r, second) && forall i :: 0 <= i < r ==> !MarkerAt(s, i, second)
  {
    FindFrom(s, second, 0)
  }

  /** Python's `s[lo:hi]` for `0 <= lo` and `hi <= |s|`: empty when `lo >= hi`. */
  function PySlice(s: seq<byte>, lo: nat, hi: nat): (r: seq<byte>)
    requires hi <= |s|
  {
    if lo <= hi then s[lo..hi] else []
  }

  /** The outcome of one marker search: the slice handed to the decoder, if
      any, the bytes kept for the next chunk, and how many leading bytes were
      consumed. */
  datatype Cut = Cut(jpg: Option<seq<byte>>, rest: seq<byte>, consumed: nat)

  /** One marker search over the buffer, after the new chunk has been appended. */
  function Extract(data: seq<byte>): (r: Cut)
    ensures r.consumed <= |data| && r.rest == data[r.consumed..]
  {
    var a := Find(data, SOI);
    var b := Find(data, EOI);
    if a != -1 && b != -1 then
      Cut(Some(PySlice(data, a, b + 2)), data[b + 2..], b + 2)
    else
      Cut(None, data, 0)
  }

  /** With both markers present, the slice runs from the first SOI through the
      first EOI inclusive and the buffer keeps what follows that EOI. */
  lemma ExtractBothMarkers(data: seq<byte>)
    requires Find(data, SOI) != -1 && Find(data, EOI) != -1
    ensures Find(data, SOI) < Find(data, EOI) ==>
      Extract(data).jpg == Some(data[Find(data, SOI)..Find(data, EOI) + 2])
    ensures Extract(data).rest == data[Find(data, EOI) + 2..]
    ensures Extract(data).consumed == Find(data, EOI) + 2
  {
  }

  /** When the SOI comes first, the extracted slice is a delimited image:
      it opens with FF D8 and closes with FF D9, and holds no earlier EOI. */
  lemma ExtractDelimited(data: seq<byte>)
    requires Find(data, SOI) != -1 && Find(data, EOI) != -1
    requires Find(data, SOI) < Find(data, EOI)
    ensures Extract(data).jpg.Some?
    ensures var j := Extract(data).jpg.value;
      |j| >= 4 && j[0] == MarkerByte && j[1] == SOI && j[|j| - 2] == MarkerByte && j[|j| - 1] == EOI
    ensures var j := Extract(data).jpg.value;
      forall i :: 0 <= i < |j| - 2 ==> !MarkerAt(j, i, EOI)
  {
    var a, b := Find(data, SOI), Find(data, EOI);
    var j := data[a..b + 2];
    assert j == Extract(data).jpg.value;
    assert b != a + 1 && b != a;
    forall i | 0 <= i < |j| - 2
      ensures !MarkerAt(j, i, EOI)
    {
      assert !MarkerAt(data, a + i, EOI);
    }
  }

  /** If either marker is missing, nothing is extracted and the buffer is kept whole. */
  lemma ExtractMissingMarker(data: seq<byte>)
    requires Find(data, SOI) == -1 || Find(data, EOI) == -1
    ensures Extract(data) == Cut(None, data, 0)
  {
  }

  /** The odd case: when the first EOI precedes the first SOI, the decoder is
      handed an empty slice and everything up to and including that EOI is
      dropped, even though an SOI lies in the kept bytes. */
  lemma ExtractEoiBeforeSoi(data: seq<byte>)
    requires Find(data, SOI) != -1 && Find(data, EOI) != -1
    requires Find(data, EOI) < Find(data, SOI)
    ensures Extract(data).jpg == Some([])
    ensures Extract(data).rest == data[Find(data, EOI) + 2..]
    ensures Find(Extract(data).rest, SOI) != -1
  {
    var a, b := Find(data, SOI), Find(data, EOI);
    assert a != b + 1 && a != b;
    assert PySlice(data, a, b + 2) == [];
    var rest := data[b + 2..];
    assert MarkerAt(rest, a - (b + 2), SOI);
  }

  /** Nothing is lost or reordered: the consumed prefix followed by the kept
      buffer is the buffer that was searched, and any slice is part of the prefix. */
  lemma ExtractConserves(data: seq<byte>)
    ensures data == data[..Extract(data).consumed] + Extract(data).rest
    ensures Extract(data).jpg.Some? ==>
      exists lo :: 0 <= lo <= Extract(data).consumed &&
        Extract(data).jpg.value == data[lo..Extract(data).consumed]
  {
    var a, b := Find(data, SOI), Find(data, EOI);
    if a != -1 && b != -1 {
      var lo := if a <= b + 2 then a else b + 2;
      assert Extract(data).jpg.value == data[lo..b + 2];
    }
  }

  /** The state `receive_stream` carries from chunk to chunk: the byte buffer,
      every slice handed to the decoder so far, and every byte consumed. */
  datatype Receiving = Receiving(buffer: seq<byte>, slices: seq<seq<byte>>, consumed: seq<byte>)

  /** Append one chunk and make one marker search. */
  function Feed(st: Receiving, chunk: seq<byte>): (r: Receiving)
  {
    var data := st.buffer + chunk;
    var cut := Extract(data);
    Receiving(cut.rest,
              st.slices + (if cut.jpg.Some? then [cut.jpg.value] else []),
              st.consumed + data[..cut.consumed])
  }

  /** The receiver's state after the given chunks, starting from an empty buffer. */
  function Received(chunks: seq<seq<byte>>): Receiving
    decreases |chunks|
  {
    if chunks == [] then Receiving([], [], [])
    else Feed(Received(chunks[..|chunks| - 1]), chunks[|chunks| - 1])
  }

  /** All bytes of a sequence of chunks, in order. */
  function Flatten(chunks: seq<seq<byte>>): seq<byte>
    decreases |chunks|
  {
    if chunks == [] then [] else Flatten(chunks[..|chunks| - 1]) + chunks[|chunks| - 1]
  }

  /** At most one slice is cut per received chunk, however many complete
      images the buffer holds. */
  lemma {:induction false} AtMostOneSlicePerChunk(chunks: seq<seq<byte>>)
    ensures |Received(chunks).slices| <= |chunks|
    decreases |chunks|
  {
    if chunks != [] {
      AtMostOneSlicePerChunk(chunks[..|chunks| - 1]);
    }
  }

  /** Over the whole stream, the bytes received are exactly the bytes consumed
      followed by the bytes still buffered. */
  lemma {:induction false} ReceivedConserves(chunks: seq<seq<byte>>)
    ensures Flatten(chunks) == Received(chunks).consumed + Received(chunks).buffer
    decreases |chunks|
  {
    if chunks != [] {
      var init := chunks[..|chunks| - 1];
      ReceivedConserves(init);
      FeedConserves(Received(init), chunks[|chunks| - 1]);
    }
  }

  /** One step keeps the accounting: consumed and buffered bytes grow by exactly the chunk. */
  lemma FeedConserves(st: Receiving, chunk: seq<byte>)
    ensures Feed(st, chunk).consumed + Feed(st, chunk).buffer == st.consumed + st.buffer + chunk
  {
    var data := st.buffer + chunk;
    var cut := Extract(data);
    var k := cut.consumed;
    assert Feed(st, chunk).consumed == st.consumed + data[..k];
    assert Feed(st, chunk).buffer == data[k..];
    SplitJoin(st.consumed, data, k);
  }

  lemma SplitJoin(p: seq<byte>, data: seq<byte>, k: nat)
    requires k <= |data|
    ensures p + data[..k] + data[k..] == p + data
  {
    assert data[..k] + data[k..] == data;
  }

  /** Two complete images arriving in one chunk: only the first is cut, and the
      second stays whole in the buffer until the next chunk arrives. */
  lemma OneCutLeavesSecondImage()
    ensures var j1: seq<byte> := [0xFF, 0xD8, 0x01, 0xFF, 0xD9];
            var j2: seq<byte> := [0xFF, 0xD8, 0x02, 0xFF, 0xD9];
            Received([j1 + j2]) == Receiving(j2, [j1], j1)
  {
    var j1: seq<byte> := [0xFF, 0xD8, 0x01, 0xFF, 0xD9];
    var j2: seq<byte> := [0xFF, 0xD8, 0x02, 0xFF, 0xD9];
    var data := j1 + j2;
    assert MarkerAt(data, 0, SOI);
    assert MarkerAt(data, 3, EOI);
    assert !MarkerAt(data, 0, EOI) && !MarkerAt(data, 1, EOI) && !MarkerAt(data, 2, EOI);
    assert Find(data, SOI) == 0 && Find(data, EOI) == 3;
    assert [] + data == data;
    assert data[..5] == j1 && data[5..] == j2;
  }

  /** What `cv2.imdecode` gives for one slice: an image, None, or an exception
      (OpenCV refuses an empty buffer, for one). */
  datatype Decoded = Image(frame: Frame) | NoImage | DecodeRaised

  /** The newest frame after decoding each slice in order: slices that do not
      decode to an image leave the previous frame in place. */
  function LastDecoded(latest: Option<Frame>, slices: seq<seq<byte>>, decode: seq<byte> -> Decoded): Option<Frame>
    decreases |slices|
  {
    if slices == [] then latest
    else
      var before := LastDecoded(latest, slices[..|slices| - 1], decode);
      var img := decode(slices[|slices| - 1]);
      if img.Image? then Some(img.frame) else before
  }

  /** One chunk whose buffer now holds both markers: the slice between them is cut. */
  lemma FeedFound(st: Receiving, chunk: seq<byte>)
    requires Find(st.buffer + chunk, SOI) != -1 && Find(st.buffer + chunk, EOI) != -1
    ensures var data := st.buffer + chunk;
      var a := Find(data, SOI);
      var b := Find(data, EOI);
      Extract(data).jpg == Some(PySlice(data, a, b + 2)) &&
      Feed(st, chunk) == Receiving(data[b + 2..], st.slices + [PySlice(data, a, b + 2)], st.consumed + data[..b + 2])
  {
  }

  /** One chunk whose buffer still lacks a marker: nothing is cut and all of it is kept. */
  lemma FeedNotFound(st: Receiving, chunk: seq<byte>)
    requires !(Find(st.buffer + chunk, SOI) != -1 && Find(st.buffer + chunk, EOI) != -1)
    ensures var data := st.buffer + chunk;
      Extract(data).jpg.None? && Feed(st, chunk) == Receiving(data, st.slices, st.consumed + data[..0])
  {
    assert st.slices + [] == st.slices;
  }

  lemma ReceivedSnoc(chunks: seq<seq<byte>>, i: nat)
    requires i < |chunks|
    ensures Received(chunks[..i + 1]) == Feed(Received(chunks[..i]), chunks[i])
  {
    assert chunks[..i + 1][..i] == chunks[..i];
  }

  lemma LastDecodedSnoc(latest: Option<Frame>, slices: seq<seq<byte>>, s: seq<byte>, decode: seq<byte> -> Decoded)
    ensures LastDecoded(latest, slices + [s], decode) ==
      if decode(s).Image? then Some(decode(s).frame) else LastDecoded(latest, slices, decode)
  {
    assert (slices + [s])[..|slices|] == slices;
  }

  /** Where `receive_stream` stands after a run of chunks: how many it has read,
      the latest frame, and whether a decode raised, which ends the function. */
  datatype Listening = Listening(read: nat, latest: Option<Frame>, halted: bool)

  /** One chunk's effect on the receiver, given the marker search over the
      buffer with that chunk appended: nothing once halted; else the slice, if
      any, is decoded, and an image becomes the latest frame. */
  function ListenStep(before: Listening, cut: Cut, decode: seq<byte> -> Decoded): Listening {
    if before.halted then before
    else if cut.jpg.None? then Listening(before.read + 1, before.latest, false)
    else match decode(cut.jpg.value)
      case Image(f) => Listening(before.read + 1, Some(f), false)
      case NoImage => Listening(before.read + 1, before.latest, false)
      case DecodeRaised => Listening(before.read + 1, before.latest, true)
  }

  /** The receiver over `chunks` from the latest frame `latest`: each chunk is
      fed to the buffer and its slice, if any, decoded; once a decode raises,
      no further chunk is read. */
  function Listen(chunks: seq<seq<byte>>, decode: seq<byte> -> Decoded, latest: Option<Frame>): Listening
    decreases |chunks|
  {
    if chunks == [] then Listening(0, latest, false)
    else
      var init := chunks[..|chunks| - 1];
      ListenStep(Listen(init, decode, latest), Extract(Received(init).buffer + chunks[|chunks| - 1]), decode)
  }

  lemma ListenSnoc(chunks: seq<seq<byte>>, i: nat, decode: seq<byte> -> Decoded, latest: Option<Frame>)
    requires i < |chunks|
    ensures Listen(chunks[..i + 1], decode, latest) ==
      ListenStep(Listen(chunks[..i], decode, latest), Extract(Received(chunks[..i]).buffer + chunks[i]), decode)
  {
    assert chunks[..i + 1][..i] == chunks[..i];
  }

  /** Without a raise, every chunk is read and the latest frame is the last
      slice that decoded to an image. */
  lemma {:induction false} ListenCompletes(chunks: seq<seq<byte>>, decode: seq<byte> -> Decoded, latest: Option<Frame>)
    requires !Listen(chunks, decode, latest).halted
    ensures Listen(chunks, decode, latest).read == |chunks|
    ensures Listen(chunks, decode, latest).latest == LastDecoded(latest, Received(chunks).slices, decode)
    decreases |chunks|
  {
    if chunks != [] {
      var init := chunks[..|chunks| - 1];
      var c := chunks[|chunks| - 1];
      ListenCompletes(init, decode, latest);
      var st := Received(init);
      var cut := Extract(st.buffer + c);
      if cut.jpg.Some? {
        LastDecodedSnoc(latest, st.slices, cut.jpg.value, decode);
      } else {
        AppendNothing(st.slices);
      }
    }
  }

  /** `l` halted on the chunk whose slice raised: that slice is the last one
      cut from the chunks read, and the latest frame is the last image before it. */
  ghost predicate HaltedAt(chunks: seq<seq<byte>>, decode: seq<byte> -> Decoded, latest: Option<Frame>, l: Listening) {
    0 < l.read <= |chunks| &&
    var slices := Received(chunks[..l.read]).slices;
    slices != [] && decode(slices[|slices| - 1]).DecodeRaised? &&
    l.latest == LastDecoded(latest, slices[..|slices| - 1], decode)
  }

  lemma AppendNothing(slices: seq<seq<byte>>)
    ensures slices + [] == slices
  {
  }

  /** With a raise, reading stopped at the chunk whose slice raised. */
  lemma {:induction false} ListenHalts(chunks: seq<seq<byte>>, decode: seq<byte> -> Decoded, latest: Option<Frame>)
    requires Listen(chunks, decode, latest).halted
    ensures HaltedAt(chunks, decode, latest, Listen(chunks, decode, latest))
    decreases |chunks|
  {
    assert chunks != [];
    var init := chunks[..|chunks| - 1];
    var c := chunks[|chunks| - 1];
    SplitLast(chunks);
    if Listen(init, decode, latest).halted {
      ListenHalts(init, decode, latest);
      HaltedAtSnoc(init, c, decode, latest, Listen(init, decode, latest));
      ListenHaltedSnoc(init, c, decode, latest);
    } else {
      HaltsHere(init, c, decode, latest);
    }
  }

  lemma SplitLast(chunks: seq<seq<byte>>)
    requires chunks != []
    ensures chunks == chunks[..|chunks| - 1] + [chunks[|chunks| - 1]]
  {
  }

  lemma HaltedAtSnoc(init: seq<seq<byte>>, c: seq<byte>, decode: seq<byte> -> Decoded, latest: Option<Frame>, l: Listening)
    requires HaltedAt(init, decode, latest, l)
    ensures HaltedAt(init + [c], decode, latest, l)
  {
    PrefixOfSnoc(init, c, l.read);
  }

  lemma HaltsHere(init: seq<seq<byte>>, c: seq<byte>, decode: seq<byte> -> Decoded, latest: Option<Frame>)
    requires !Listen(init, decode, latest).halted
    requires Listen(init + [c], decode, latest).halted
    ensures HaltedAt(init + [c], decode, latest, Listen(init + [c], decode, latest))
  {
    var chunks := init + [c];
    ListenCompletes(init, decode, latest);
    ListenRaisedAt(init, c, decode, latest);
    assert chunks[..|chunks|] == chunks;
    var slices := Received(init).slices;
    var s := Received(chunks).slices[|Received(chunks).slices| - 1];
    assert (slices + [s])[..|slices|] == slices;
  }

  lemma PrefixOfSnoc(init: seq<seq<byte>>, c: seq<byte>, k: nat)
    requires k <= |init|
    ensures (init + [c])[..k] == init[..k]
  {
  }

  /** The chunk on which a decode first raises: it is read, and its slice is
      the one appended last. */
  lemma ListenRaisedAt(init: seq<seq<byte>>, c: seq<byte>, decode: seq<byte> -> Decoded, latest: Option<Frame>)
    requires !Listen(init, decode, latest).halted
    requires Listen(init + [c], decode, latest).halted
    ensures Listen(init + [c], decode, latest) == Listening(|init| + 1, Listen(init, decode, latest).latest, true)
    ensures var cut := Extract(Received(init).buffer + c);
      cut.jpg.Some? && decode(cut.jpg.value).DecodeRaised? &&
      Received(init + [c]).slices == Received(init).slices + [cut.jpg.value]
  {
    var chunks := init + [c];
    assert chunks[..|chunks| - 1] == init;
    ListenCompletes(init, decode, latest);
  }

  lemma AppendSnoc(a: seq<seq<byte>>, b: seq<seq<byte>>)
    requires b != []
    ensures a + b == (a + b[..|b| - 1]) + [b[|b| - 1]]
  {
    assert b == b[..|b| - 1] + [b[|b| - 1]];
  }

  lemma ListenHaltedSnoc(chunks: seq<seq<byte>>, c: seq<byte>, decode: seq<byte> -> Decoded, latest: Option<Frame>)
    requires Listen(chunks, decode, latest).halted
    ensures Listen(chunks + [c], decode, latest) == Listen(chunks, decode, latest)
  {
    assert (chunks + [c])[..|chunks|] == chunks;
  }

  /** A raise ends the receiver for good: chunks that would have followed change nothing. */
  lemma {:induction false} ListenStops(chunks: seq<seq<byte>>, more: seq<seq<byte>>, decode: seq<byte> -> Decoded, latest: Option<Frame>)
    requires Listen(chunks, decode, latest).halted
    ensures Listen(chunks + more, decode, latest) == Listen(chunks, decode, latest)
    decreases |more|
  {
    if more == [] {
      assert chunks + more == chunks;
    } else {
      var init := more[..|more| - 1];
      ListenStops(chunks, init, decode, latest);
      ListenHaltedSnoc(chunks + init, more[|more| - 1], decode, latest);
      AppendSnoc(chunks, more);
    }
  }

  /** Where the receive loop leaves off, having read all chunks or halted:
      the receiver over the whole stream stands there too. */
  lemma ListenEnd(chunks: seq<seq<byte>>, read: nat, decode: seq<byte> -> Decoded, latest: Option<Frame>)
    requires read <= |chunks|
    requires read == |chunks| || Listen(chunks[..read], decode, latest).halted
    ensures Listen(chunks, decode, latest) == Listen(chunks[..read], decode, latest)
  {
    SplitAt(chunks, read);
    if read < |chunks| {
      ListenStops(chunks[..read], chunks[read..], decode, latest);
    }
  }

  lemma SplitAt(chunks: seq<seq<byte>>, k: nat)
    requires k <= |chunks|
    ensures chunks[..k] + chunks[k..] == chunks
    ensures k == |chunks| ==> chunks[..k] == chunks
  {
  }

  /** A stream whose first complete marker pair has the EOI first hands the
      decoder an empty slice; when that raises, as OpenCV's decoder does on an
      empty buffer, the receiver stops there and no later image is ever decoded. */
  lemma EoiFirstStopsReceiver(more: seq<seq<byte>>, decode: seq<byte> -> Decoded, latest: Option<Frame>)
    requires decode([]) == DecodeRaised
    ensures var first: seq<byte> := [0xFF, 0xD9, 0xFF, 0xD8];
      Listen([first] + more, decode, latest) == Listening(1, latest, true)
  {
    var first: seq<byte> := [0xFF, 0xD9, 0xFF, 0xD8];
    EoiFirstCutsEmpty();
    assert [first][..0] == [] && [] + first == first;
    assert Listen([first], decode, latest) == ListenStep(Listening(0, latest, false), Extract(first), decode);
    ListenStops([first], more, decode, latest);
  }

  /** With the EOI ahead of the SOI, Python's slice from the SOI to past the
      EOI is empty. */
  lemma EoiFirstCutsEmpty()
    ensures Extract([0xFF, 0xD9, 0xFF, 0xD8]).jpg == Some([])
  {
    var first: seq<byte> := [0xFF, 0xD9, 0xFF, 0xD8];
    assert MarkerAt(first, 0, EOI) && MarkerAt(first, 2, SOI);
    assert !MarkerAt(first, 0, SOI) && !MarkerAt(first, 1, SOI);
    assert Find(first, SOI) == 2 && Find(first, EOI) == 0;
    assert PySlice(first, 2, 2) == first[2..2] == [];
  }

  datatype Response = Response(statusCode: int, chunks: seq<seq<byte>>) | ConnectError

  /** The frame shown while nothing has been received yet. */
  const Placeholder: Frame :=
    Frame(480, 640, Blank, [Label("Connecting to Pi...", 150, 240, Color(255, 255, 255))])

  /** The frame a browser tick encodes: a copy of the latest one, or the placeholder. */
  function FrameToServe(latest: Option<Frame>): Frame {
    if latest.None? then Placeholder else latest.value
  }

  class LaptopServer {
    var latestFrame: Option<Frame>

    constructor ()
      ensures latestFrame == None
    {
      latestFrame := None;
    }

    /** `receive_stream`: on a 200 response, feed each chunk to the buffer,
        make one marker search per chunk and publish every slice that decodes
        to an image; a decode that raises ends the function. Returns how many
        chunks were read, the final buffer and the slices handed to the decoder. */
    method ReceiveStream(response: Response, decode: seq<byte> -> Decoded)
      returns (read: nat, buffer: seq<byte>, slices: seq<seq<byte>>)
      modifies this
      ensures response.ConnectError? || response.statusCode != OkStatus ==>
        latestFrame == old(latestFrame) && read == 0 && buffer == [] && slices == []
      ensures response.Response? && response.statusCode == OkStatus ==>
        var l := Listen(response.chunks, decode, old(latestFrame));
        read == l.read && read <= |response.chunks| && latestFrame == l.latest &&
        buffer == Received(response.chunks[..read]).buffer &&
        slices == Received(response.chunks[..read]).slices
    {
      read, buffer, slices := 0, [], [];
      if response.ConnectError? || response.statusCode != OkStatus {
        return;
      }
      var chunks := response.chunks;
      ghost var consumed: seq<byte> := [];
      var halted := false;
      while read < |chunks| && !halted
        invariant 0 <= read <= |chunks|
        invariant Received(chunks[..read]) == Receiving(buffer, slices, consumed)
        invariant Listen(chunks[..read], decode, old(latestFrame)) == Listening(read, latestFrame, halted)
      {
        buffer, slices, halted, consumed := ReceiveChunk(buffer, slices, chunks[read], decode, chunks, read, consumed, old(latestFrame));
        read := read + 1;
      }
      ListenEnd(chunks, read, decode, old(latestFrame));
    }

    /** The body of the receive loop for one chunk: append it to the buffer,
        cut at most one slice and decode it. */
    method ReceiveChunk(buffer: seq<byte>, slices: seq<seq<byte>>, chunk: seq<byte>, decode: seq<byte> -> Decoded,
                        ghost chunks: seq<seq<byte>>, ghost read: nat, ghost consumed: seq<byte>, ghost first: Option<Frame>)
      returns (buffer': seq<byte>, slices': seq<seq<byte>>, halted: bool, ghost consumed': seq<byte>)
      requires read < |chunks| && chunk == chunks[read]
      requires Received(chunks[..read]) == Receiving(buffer, slices, consumed)
      requires Listen(chunks[..read], decode, first) == Listening(read, latestFrame, false)
      modifies this`latestFrame
      ensures Received(chunks[..read + 1]) == Receiving(buffer', slices', consumed')
      ensures Listen(chunks[..read + 1], decode, first) == Listening(read + 1, latestFrame, halted)
    {
      ReceivedSnoc(chunks, read);
      ListenSnoc(chunks, read, decode, first);
      halted := false;
      var data := buffer + chunk;
      ghost var st := Receiving(buffer, slices, consumed);
      assert Received(chunks[..read + 1]) == Feed(st, chunk);
      assert Listen(chunks[..read + 1], decode, first) == ListenStep(Listening(read, latestFrame, false), Extract(data), decode);
      var a := Find(data, SOI);
      var b := Find(data, EOI);
      if a != -1 && b != -1 {
        FeedFound(st, chunk);
        var jpg := PySlice(data, a, b + 2);
        buffer' := data[b + 2..];
        slices' := slices + [jpg];
        var img := decode(jpg);
        match img {
          case Image(f) => latestFrame := Some(f);
          case NoImage =>
          case DecodeRaised => halted := true;
        }
      } else {
        FeedNotFound(st, chunk);
        buffer' := data;
        slices' := slices;
      }
      consumed' := Feed(st, chunk).consumed;
    }

    /** One tick of `generate_frames`: frame the JPEG of the latest frame, or of
        the placeholder while none has arrived. The encoder's success flag is
        not consulted. */
    method NextChunk(encode: (Frame, int) -> seq<byte>) returns (chunk: seq<byte>)
      ensures chunk == Chunk(encode(FrameToServe(latestFrame), JpegQuality))
      ensures Unframe(chunk) == Some(encode(FrameToServe(latestFrame), JpegQuality))
      ensures latestFrame.None? ==> Unframe(chunk) == Some(encode(Placeholder, JpegQuality))
      ensures latestFrame.Some? ==> Unframe(chunk) == Some(encode(latestFrame.value, JpegQuality))
    {
      var frame := if latestFrame.None? then Placeholder else latestFrame.value;
      var bytes := encode(frame, JpegQuality);
      chunk := Prefix + bytes + CRLF;
      UnframeChunk(bytes);
    }
  }
}
