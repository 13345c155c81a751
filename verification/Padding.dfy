/** The padding of the first reads of a tunnel (docker/naive-live-meter/live_meter.go): frames, and the stream they
    make. */
module Padding {
  type Byte = b: nat | b < 256

  const BUFFER := 65536

  /** A byte on the wire, and whether it is payload. */
  datatype Cell = Cell(byte: Byte, payload: bool)

  function Cells(bytes: seq<Byte>, payload: bool): (r: seq<Cell>)
    ensures |r| == |bytes|
  {
    seq(|bytes|, n requires 0 <= n < |bytes| => Cell(bytes[n], payload))
  }

  function Bytes(cells: seq<Cell>): (r: seq<Byte>)
    ensures |r| == |cells|
  {
    seq(|cells|, n requires 0 <= n < |cells| => cells[n].byte)
  }

  /** The payload in a stretch of wire. */
  function Payload(cells: seq<Cell>): seq<Byte> {
    if cells == [] then []
    else
      var n := |cells| - 1;
      Payload(cells[..n]) + (if cells[n].payload then [cells[n].byte] else [])
  }

  lemma {:induction false} PayloadConcat(a: seq<Cell>, b: seq<Cell>)
    ensures Payload(a + b) == Payload(a) + Payload(b)
    decreases |b|
  {
    if b == [] {
      assert a + b == a;
    } else {
      var n := |b| - 1;
      PayloadConcat(a, b[..n]);
      assert (a + b)[..|a + b| - 1] == a + b[..n];
    }
  }

  lemma {:induction false} PayloadOfCells(bytes: seq<Byte>, payload: bool)
    ensures Payload(Cells(bytes, payload)) == if payload then bytes else []
  {
    if bytes != [] {
      var n := |bytes| - 1;
      PayloadOfCells(bytes[..n], payload);
      assert Cells(bytes, payload)[..n] == Cells(bytes[..n], payload);
      assert bytes[..n] + [bytes[n]] == bytes;
    }
  }

  lemma BytesOfCells(bytes: seq<Byte>, payload: bool)
    ensures Bytes(Cells(bytes, payload)) == bytes
  {
  }

  function Zeros(n: nat): (r: seq<Byte>)
    ensures |r| == n
  {
    seq(n, _ => 0)
  }

  /** One read of the source, and the padding drawn for it. */
  datatype Chunk = Chunk(data: seq<Byte>, padding: Byte)
  {
    predicate Fits() {
      |data| <= BUFFER - 6 - padding
    }
  }

  function Header(r: Chunk): (h: seq<Byte>)
    requires r.Fits()
    ensures |h| == 3 && h[0] as nat * 256 + h[1] as nat == |r.data| && h[2] == r.padding
  {
    [|r.data| / 256, |r.data| % 256, r.padding]
  }

  /** A frame: a header with both lengths, the payload, and zeros. */
  function Frame(r: Chunk): seq<Cell>
    requires r.Fits()
  {
    Cells(Header(r), false) + Cells(r.data, true) + Cells(Zeros(r.padding), false)
  }

  /** What one read puts on the wire: a frame while padding lasts, though nothing for an empty read. */
  function Wire(r: Chunk, framed: bool): seq<Cell>
    requires framed ==> r.Fits()
  {
    if r.data == [] then [] else if framed then Frame(r) else Cells(r.data, true)
  }

  ghost predicate AllFit(chunks: seq<Chunk>, n: nat) {
    forall k :: 0 <= k < |chunks| && k < n ==> chunks[k].Fits()
  }

  /** The padded stream of a run of reads, the first `n` of them framed. */
  function Encode(chunks: seq<Chunk>, n: nat): seq<Cell>
    requires AllFit(chunks, n)
  {
    if chunks == [] then []
    else
      var last := |chunks| - 1;
      Encode(chunks[..last], n) + Wire(chunks[last], last < n)
  }

  /** The bytes that were read. */
  function Data(chunks: seq<Chunk>): seq<Byte> {
    if chunks == [] then [] else Data(chunks[..|chunks| - 1]) + chunks[|chunks| - 1].data
  }

  lemma FramePayload(r: Chunk)
    requires r.Fits()
    ensures Payload(Frame(r)) == r.data
  {
    var a, b, c := Cells(Header(r), false), Cells(r.data, true), Cells(Zeros(r.padding), false);
    PayloadConcat(a + b, c);
    PayloadConcat(a, b);
    PayloadOfCells(Header(r), false);
    PayloadOfCells(r.data, true);
    PayloadOfCells(Zeros(r.padding), false);
  }

  lemma WirePayload(r: Chunk, framed: bool)
    requires framed ==> r.Fits()
    ensures Payload(Wire(r, framed)) == r.data
  {
    hide Payload;
    if r.data == [] {
      PayloadOfCells([], true);
      assert Cells([], true) == [];
    } else if framed {
      FramePayload(r);
    } else {
      PayloadOfCells(r.data, true);
    }
  }

  /** The payload of the padded stream is what was read. */
  lemma {:induction false} EncodePayload(chunks: seq<Chunk>, n: nat)
    requires AllFit(chunks, n)
    ensures Payload(Encode(chunks, n)) == Data(chunks)
  {
    if chunks != [] {
      var last := |chunks| - 1;
      EncodePayload(chunks[..last], n);
      WirePayload(chunks[last], last < n);
      PayloadConcat(Encode(chunks[..last], n), Wire(chunks[last], last < n));
    }
  }

  /** How much payload a partial write of a frame carried: the clamping of the count in the copy loop. */
  lemma PartialPayload(head: seq<Byte>, data: seq<Byte>, tail: seq<Byte>, written: nat)
    requires written <= |head| + |data| + |tail|
    ensures var cells := Cells(head, false) + Cells(data, true) + Cells(tail, false);
            var n := if written <= |head| then 0 else if written - |head| > |data| then |data| else written - |head|;
            Payload(cells[..written]) == data[..n]
  {
    hide Payload, Cells;
    var a, b, c := Cells(head, false), Cells(data, true), Cells(tail, false);
    CellsCut(head, false);
    CellsCut(data, true);
    CellsCut(tail, false);
    if written <= |head| {
      assert (a + b + c)[..written] == a[..written];
      assert data[..0] == [];
    } else if written <= |head| + |data| {
      var k := written - |head|;
      assert (a + b + c)[..written] == a + b[..k];
      assert a[..|head|] == a && [] + data[..k] == data[..k];
      PayloadConcat(a, b[..k]);
    } else {
      var k := written - |head| - |data|;
      assert (a + b + c)[..written] == a + b + c[..k];
      assert a[..|head|] == a && b[..|data|] == b && data[..|data|] == data;
      PayloadConcat(a + b, c[..k]);
      PayloadConcat(a, b);
    }
  }

  /** The payload in a part of a stretch of one kind. */
  lemma CellsCut(bytes: seq<Byte>, payload: bool)
    ensures forall k :: 0 <= k <= |bytes| ==>
              Payload(Cells(bytes, payload)[..k]) == if payload then bytes[..k] else []
  {
    hide Payload;
    forall k | 0 <= k <= |bytes|
      ensures Payload(Cells(bytes, payload)[..k]) == if payload then bytes[..k] else []
    {
      assert Cells(bytes, payload)[..k] == Cells(bytes[..k], payload);
      PayloadOfCells(bytes[..k], payload);
    }
  }

  // ----- removing the padding -------------------------------------------------------------------------

  /** What a padded stream gives: its payload, and whether it ended where it may. */
  datatype Plain = Plain(payload: seq<Byte>, clean: bool)

  function Length(wire: seq<Byte>): nat
    requires |wire| >= 2
  {
    wire[0] as nat * 256 + wire[1] as nat
  }

  /** The stream without its first `n` frames' framing. A stream may end between frames, right after a header, or in
      the padding; elsewhere in a frame its end is an error. */
  function Decode(wire: seq<Byte>, n: nat): Plain
    decreases n
  {
    if n == 0 then Plain(wire, true)
    else if wire == [] then Plain([], true)
    else if |wire| < 3 then Plain([], false)
    else
      var rest := wire[3..];
      var length := Length(wire);
      if |rest| < length then Plain(rest, rest == [])
      else if |rest| < length + wire[2] then Plain(rest[..length], true)
      else
        var next := Decode(rest[length + wire[2]..], n - 1);
        Plain(rest[..length] + next.payload, next.clean)
  }

  /** What the next frame gives, case by case: cut in its payload, cut in its padding, or whole. */
  lemma DecodeNext(wire: seq<Byte>, n: nat, length: nat, padding: nat)
    requires |wire| >= 3 && n > 0 && length == Length(wire) && padding == wire[2]
    ensures var rest := wire[3..];
            && (|rest| < length ==> Decode(wire, n) == Plain(rest, rest == []))
            && (length <= |rest| ==> rest[..length] <= Decode(wire, n).payload)
            && (length <= |rest| < length + padding ==> Decode(wire, n) == Plain(rest[..length], true))
            && (length + padding <= |rest| ==>
                  var next := Decode(rest[length..][padding..], n - 1);
                  Decode(wire, n) == Plain(rest[..length] + next.payload, next.clean))
  {
    var rest := wire[3..];
    if length + padding <= |rest| {
      assert rest[length..][padding..] == rest[length + padding..];
    }
  }

  /** Framing anything costs bytes: what comes out of a stream read as frames is shorter than what went in. */
  lemma {:induction false} DecodeShrinks(wire: seq<Byte>, n: nat)
    ensures |Decode(wire, n).payload| <= |wire|
    ensures n > 0 && wire != [] ==> |Decode(wire, n).payload| < |wire|
    decreases n
  {
    if n > 0 && |wire| >= 3 {
      var rest := wire[3..];
      if |rest| >= Length(wire) + wire[2] {
        DecodeShrinks(rest[Length(wire) + wire[2]..], n - 1);
      }
    }
  }

  /** One frame in front is one frame off. */
  lemma DecodeFrame(r: Chunk, rest: seq<Byte>, n: nat)
    requires r.Fits() && n > 0
    ensures Decode(Bytes(Frame(r)) + rest, n)
            == Plain(r.data + Decode(rest, n - 1).payload, Decode(rest, n - 1).clean)
  {
    var wire := Bytes(Frame(r)) + rest;
    assert wire == Header(r) + r.data + Zeros(r.padding) + rest;
    assert wire[3..] == r.data + Zeros(r.padding) + rest;
    assert wire[3..][..|r.data|] == r.data;
    assert wire[3..][|r.data| + r.padding..] == rest;
  }

  /** The same stream read from its first read on. */
  function EncodeFrom(chunks: seq<Chunk>, k: nat, n: nat): seq<Cell>
    requires k <= |chunks| && AllFit(chunks, n)
    decreases |chunks| - k
  {
    if k == |chunks| then [] else Wire(chunks[k], k < n) + EncodeFrom(chunks, k + 1, n)
  }

  lemma {:induction false} EncodeIsFrom(chunks: seq<Chunk>, k: nat, n: nat)
    requires k <= |chunks| && AllFit(chunks, n)
    ensures Encode(chunks, n) == Encode(chunks[..k], n) + EncodeFrom(chunks, k, n)
    decreases |chunks| - k
  {
    hide Wire;
    if k == |chunks| {
      assert chunks[..k] == chunks;
      assert Encode(chunks, n) + [] == Encode(chunks, n);
    } else {
      EncodeIsFrom(chunks, k + 1, n);
      assert chunks[..k + 1][..k] == chunks[..k];
      assert Encode(chunks[..k + 1], n) == Encode(chunks[..k], n) + Wire(chunks[k], k < n);
    }
  }

  /** From read `k` on: the bytes read, and the frames on the wire. */
  function DataFrom(chunks: seq<Chunk>, k: nat): seq<Byte>
    requires k <= |chunks|
    decreases |chunks| - k
  {
    if k == |chunks| then [] else chunks[k].data + DataFrom(chunks, k + 1)
  }

  function Frames(chunks: seq<Chunk>, k: nat, n: nat): nat
    requires k <= |chunks|
    decreases |chunks| - k
  {
    if k == |chunks| then 0 else (if k < n && chunks[k].data != [] then 1 else 0) + Frames(chunks, k + 1, n)
  }

  lemma {:induction false} DataIsFrom(chunks: seq<Chunk>, k: nat)
    requires k <= |chunks|
    ensures Data(chunks) == Data(chunks[..k]) + DataFrom(chunks, k)
    decreases |chunks| - k
  {
    if k == |chunks| {
      assert chunks[..k] == chunks;
    } else {
      DataIsFrom(chunks, k + 1);
      assert chunks[..k + 1][..k] == chunks[..k];
    }
  }

  lemma BytesConcat(a: seq<Cell>, b: seq<Cell>)
    ensures Bytes(a + b) == Bytes(a) + Bytes(b)
  {
  }

  /** Past the framed reads the wire is the data. */
  lemma {:induction false} RawTail(chunks: seq<Chunk>, k: nat, n: nat)
    requires n <= k <= |chunks| && AllFit(chunks, n)
    ensures Bytes(EncodeFrom(chunks, k, n)) == DataFrom(chunks, k) && Frames(chunks, k, n) == 0
    decreases |chunks| - k
  {
    hide Bytes, Wire;
    if k < |chunks| {
      RawTail(chunks, k + 1, n);
      BytesConcat(Wire(chunks[k], false), EncodeFrom(chunks, k + 1, n));
      RawWire(chunks[k]);
    } else {
      NoBytes();
    }
  }

  lemma NoBytes()
    ensures Bytes([]) == []
  {
  }

  lemma RawWire(chunk: Chunk)
    ensures Bytes(Wire(chunk, false)) == chunk.data
  {
    BytesOfCells(chunk.data, true);
  }

  /** Where the frames end. */
  function Boundary(chunks: seq<Chunk>, k: nat, n: nat): (b: nat)
    requires k <= |chunks|
    ensures k <= b <= |chunks|
  {
    if n <= k then k else if n <= |chunks| then n else |chunks|
  }

  /** The data of the framed reads. */
  function FramedFrom(chunks: seq<Chunk>, k: nat, n: nat): seq<Byte>
    requires k <= |chunks|
    decreases |chunks| - k
  {
    if n <= k || k == |chunks| then [] else chunks[k].data + FramedFrom(chunks, k + 1, n)
  }

  lemma {:induction false} DataSplits(chunks: seq<Chunk>, k: nat, n: nat)
    requires k <= |chunks|
    ensures DataFrom(chunks, k) == FramedFrom(chunks, k, n) + DataFrom(chunks, Boundary(chunks, k, n))
    decreases |chunks| - k
  {
    if k < n && k < |chunks| {
      DataSplits(chunks, k + 1, n);
    }
  }

  /** The frames that were put on are taken off; what follows them is read with what is left of the count. */
  lemma {:induction false} DecodeFrames(chunks: seq<Chunk>, k: nat, n: nat, m: nat)
    requires k <= |chunks| && AllFit(chunks, n) && Frames(chunks, k, n) <= m
    ensures var rest := Decode(DataFrom(chunks, Boundary(chunks, k, n)), m - Frames(chunks, k, n));
            Decode(Bytes(EncodeFrom(chunks, k, n)), m) == Plain(FramedFrom(chunks, k, n) + rest.payload, rest.clean)
    decreases |chunks| - k
  {
    hide Decode, Frame, DataFrom;
    if n <= k || k == |chunks| {
      AfterFrames(chunks, k, n);
    } else {
      var r := chunks[k];
      assert r.Fits();
      BytesConcat(Wire(r, true), EncodeFrom(chunks, k + 1, n));
      assert Boundary(chunks, k, n) == Boundary(chunks, k + 1, n);
      if r.data == [] {
        DecodeFrames(chunks, k + 1, n, m);
        assert Bytes(EncodeFrom(chunks, k, n)) == Bytes(EncodeFrom(chunks, k + 1, n));
        assert FramedFrom(chunks, k, n) == FramedFrom(chunks, k + 1, n);
      } else {
        DecodeFrames(chunks, k + 1, n, m - 1);
        DecodeFrame(r, Bytes(EncodeFrom(chunks, k + 1, n)), m);
      }
    }
  }

  lemma AfterFrames(chunks: seq<Chunk>, k: nat, n: nat)
    requires k <= |chunks| && AllFit(chunks, n) && (n <= k || k == |chunks|)
    ensures Bytes(EncodeFrom(chunks, k, n)) == DataFrom(chunks, Boundary(chunks, k, n)) && Frames(chunks, k, n) == 0
    ensures FramedFrom(chunks, k, n) == []
  {
    if n <= k {
      RawTail(chunks, k, n);
    }
  }

  /** Padding put on and taken off with the same count gives the bytes back exactly when the count was used up by
      non-empty reads, or nothing was read beyond it. Empty reads use up the count on one side only. */
  lemma RoundTrip(chunks: seq<Chunk>, n: nat)
    requires AllFit(chunks, n)
    ensures Frames(chunks, 0, n) <= n
    ensures Decode(Bytes(Encode(chunks, n)), n) == Plain(Data(chunks), true)
            <==> Frames(chunks, 0, n) == n || DataFrom(chunks, Boundary(chunks, 0, n)) == []
  {
    hide Decode, Encode, EncodeFrom, Data, DataFrom, Frames, FramedFrom;
    FramesBound(chunks, 0, n);
    EncodeIsFrom(chunks, 0, n);
    DataIsFrom(chunks, 0);
    assert chunks[..0] == [];
    Nothing(n);
    var tail := DataFrom(chunks, Boundary(chunks, 0, n));
    var left := n - Frames(chunks, 0, n);
    DataSplits(chunks, 0, n);
    DecodeFrames(chunks, 0, n, n);
    assert [] + EncodeFrom(chunks, 0, n) == EncodeFrom(chunks, 0, n);
    assert [] + DataFrom(chunks, 0) == DataFrom(chunks, 0);
    DecodeShrinks(tail, left);
    DecodeEnds(tail, left);
  }

  lemma Nothing(n: nat)
    ensures Encode([], n) == [] && Data([]) == []
  {
  }

  lemma DecodeEnds(wire: seq<Byte>, n: nat)
    ensures n == 0 || wire == [] ==> Decode(wire, n) == Plain(wire, true)
  {
  }

  lemma {:induction false} FramesBound(chunks: seq<Chunk>, k: nat, n: nat)
    requires k <= |chunks|
    ensures Frames(chunks, k, n) <= if k <= n then n - k else 0
    decreases |chunks| - k
  {
    if k < |chunks| {
      FramesBound(chunks, k + 1, n);
    }
  }

  lemma {:induction false} FramesFull(chunks: seq<Chunk>, k: nat, n: nat)
    requires k <= n <= |chunks| && forall j :: k <= j < n ==> chunks[j].data != []
    ensures Frames(chunks, k, n) == n - k
    decreases |chunks| - k
  {
    if k < n {
      FramesFull(chunks, k + 1, n);
    } else {
      FramesBound(chunks, k, n);
    }
  }

  /** In particular, any split of a stream into non-empty reads survives, with any padding, and so does an empty read at
      the end of it. */
  lemma NonEmptyReadsSurvive(chunks: seq<Chunk>, n: nat)
    requires AllFit(chunks, n) && forall k :: 0 <= k < |chunks| - 1 ==> chunks[k].data != []
    ensures Decode(Bytes(Encode(chunks, n)), n) == Plain(Data(chunks), true)
  {
    RoundTrip(chunks, n);
    if n < |chunks| {
      FramesFull(chunks, 0, n);
    }
  }

  /** And an empty first read loses bytes: with a count of one, [1, 2, 3] after it is taken for a header. */
  lemma EmptyReadLoses()
    ensures var chunks := [Chunk([], 0), Chunk([1, 2, 3], 0)];
            Decode(Bytes(Encode(chunks, 1)), 1) != Plain(Data(chunks), true)
  {
    var chunks := [Chunk([], 0), Chunk([1, 2, 3], 0)];
    RoundTrip(chunks, 1);
    assert Frames(chunks, 2, 1) == 0 && Frames(chunks, 1, 1) == 0 && Frames(chunks, 0, 1) == 0;
    assert DataFrom(chunks, 1) == [1, 2, 3] + DataFrom(chunks, 2);
  }
}
