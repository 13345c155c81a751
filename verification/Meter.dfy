/** The copy loop of a tunnel and its payload counter (docker/naive-live-meter/live_meter.go). */
module Meter {
  import opened Common
  import opened Padding

  datatype Mode = NoPadding | AddPadding | RemovePadding

  datatype IoError = Eof | UnexpectedEof | Broken | ShortWrite | InvalidCount | WriteFailed

  class Counter {
    var value: nat

    constructor ()
      ensures value == 0
    {
      value := 0;
    }
  }

  /** A reader: the bytes still to come, and how many more reads it may answer with nothing. */
  class Source {
    var data: seq<Byte>
    var budget: nat
    /** Whether a read may break off. */
    const faults: bool

    constructor (data: seq<Byte>, budget: nat, faults: bool)
      ensures this.data == data && this.faults == faults
    {
      this.data, this.budget, this.faults := data, budget, faults;
    }

    method Fill(buf: array<Byte>, lo: nat, n: nat)
      requires lo + n <= buf.Length && n <= |data|
      modifies `data, buf
      ensures data == old(data)[n..] && buf[lo..lo + n] == old(data)[..n]
      ensures forall k :: 0 <= k < lo ==> buf[k] == old(buf[k])
    {
      forall k | 0 <= k < n {
        buf[lo + k] := data[k];
      }
      data := data[n..];
    }

    /** `Read`: some bytes, none, or an error, possibly both. The end of the stream comes after its last byte. */
    method Read(buf: array<Byte>, lo: nat, hi: nat) returns (n: nat, er: Option<IoError>)
      requires lo < hi <= buf.Length
      modifies this, buf
      ensures n <= hi - lo && n <= |old(data)|
      ensures data == old(data)[n..] && buf[lo..lo + n] == old(data)[..n]
      ensures forall k :: 0 <= k < lo ==> buf[k] == old(buf[k])
      ensures er in {None, Some(Eof), Some(Broken)} && (er == Some(Eof) ==> data == []) && (er == Some(Broken) ==> faults)
      ensures budget + |data| <= old(budget + |data|) && (er.None? ==> budget + |data| < old(budget + |data|))
    {
      n, er := *, *;
      if n > hi - lo || n > |data| {
        n := 0;
      }
      if n == 0 && budget == 0 && data != [] {
        n := 1;
      }
      Fill(buf, lo, n);
      if er != None && (er != Some(Eof) || data != []) {
        er := if faults then Some(Broken) else None;
      }
      if er.None? && n == 0 {
        if budget == 0 {
          er := Some(Eof);
        } else {
          budget := budget - 1;
        }
      }
    }

    /** `io.ReadFull`: all of it; nothing at the end of the stream; or part of it and an error. */
    method ReadFull(buf: array<Byte>, length: nat) returns (n: nat, er: Option<IoError>)
      requires length <= buf.Length
      modifies `data, buf
      ensures n <= length && n <= |old(data)| && data == old(data)[n..] && buf[..n] == old(data)[..n]
      ensures er.None? <==> n == length
      ensures er == Some(Eof) ==> n == 0 && data == []
      ensures er == Some(UnexpectedEof) ==> n > 0 && data == []
      ensures er.Some? ==> er.value in {Eof, UnexpectedEof, Broken} && (er.value.Broken? ==> faults)
    {
      n := *;
      var breaks: bool := *;
      if n >= length || n > |data| || !breaks || !faults {
        n := if length <= |data| then length else |data|;
        er := if n == length then None else if n == 0 then Some(Eof) else Some(UnexpectedEof);
      } else {
        er := Some(Broken);
      }
      Fill(buf, 0, n);
    }

    /** `io.CopyN` into nothing: a stream that ends too early just ends. */
    method Discard(count: nat) returns (er: Option<IoError>)
      modifies `data
      ensures er.None? ==> count <= |old(data)| && data == old(data)[count..]
      ensures er == Some(Eof) ==> |old(data)| < count && data == []
      ensures er.Some? ==> er.value in {Eof, Broken} && (er.value.Broken? ==> faults)
    {
      var breaks: bool := *;
      if faults && breaks && count > 0 {
        return Some(Broken);
      }
      if count <= |data| {
        data := data[count..];
        return None;
      }
      data := [];
      return Some(Eof);
    }
  }

  /** A writer: what it has accepted. It may accept less than it is given, and its count may be nonsense. */
  class Sink {
    var received: seq<Byte>
    const faults: bool

    constructor (faults: bool)
      ensures received == [] && this.faults == faults
    {
      received, this.faults := [], faults;
    }

    method Write(buf: array<Byte>, n: nat) returns (nw: int, failed: bool)
      requires n <= buf.Length
      modifies this
      ensures 0 <= nw <= n ==> received == old(received) + buf[..nw]
      ensures !faults ==> nw == n && !failed
    {
      nw, failed := *, *;
      if !faults {
        nw, failed := n, false;
      }
      if 0 <= nw <= n {
        received := received + buf[..nw];
      }
    }

    method Flush() returns (ok: bool)
      ensures !faults ==> ok
    {
      ok := *;
      ok := ok || !faults;
    }
  }

  /** A read of the first kind: framed in place, around the bytes read into the middle of the buffer. */
  method ReadFramed(src: Source, buf: array<Byte>) returns (nr: nat, er: Option<IoError>, chunk: Chunk)
    requires buf.Length >= BUFFER
    modifies src, buf
    ensures chunk.Fits() && nr == |Wire(chunk, true)| <= buf.Length && buf[..nr] == Bytes(Wire(chunk, true))
    ensures old(src.data) == chunk.data + src.data
    ensures er in {None, Some(Eof), Some(Broken)} && (er == Some(Eof) ==> src.data == []) && (er == Some(Broken) ==> src.faults)
  {
    var draw: nat := *;
    var padding: Byte := draw % 256;
    nr, er := src.Read(buf, 3, BUFFER - 3 - padding);
    chunk := Chunk(buf[3..3 + nr], padding);
    if nr > 0 {
      Wrap(buf, chunk);
      nr := nr + 3 + padding;
      FrameBytes(chunk);
    } else {
      assert buf[..0] == Bytes([]);
    }
  }

  /** Write a frame around the payload that is already in its place. */
  method Wrap(buf: array<Byte>, chunk: Chunk)
    requires buf.Length >= BUFFER && chunk.Fits() && buf[3..3 + |chunk.data|] == chunk.data
    modifies buf
    ensures buf[..3 + |chunk.data| + chunk.padding] == Header(chunk) + chunk.data + Zeros(chunk.padding)
  {
    var nr, padding := |chunk.data|, chunk.padding as nat;
    buf[0], buf[1], buf[2] := nr / 256, nr % 256, chunk.padding;
    forall k | 3 + nr <= k < 3 + nr + padding {
      buf[k] := 0;
    }
    assert buf[..3] == Header(chunk);
    assert buf[3..3 + nr] == chunk.data;
    assert buf[3 + nr..3 + nr + padding] == Zeros(padding);
    assert buf[..3 + nr + padding] == buf[..3] + buf[3..3 + nr] + buf[3 + nr..3 + nr + padding];
  }

  lemma FrameBytes(r: Chunk)
    requires r.Fits()
    ensures Bytes(Frame(r)) == Header(r) + r.data + Zeros(r.padding)
  {
  }

  /** A frame taken apart: `got` is what it carried, `m` how many frames are still expected. */
  method ReadUnframed(src: Source, buf: array<Byte>, ghost m: nat) returns (nr: nat, er: Option<IoError>)
    requires buf.Length >= BUFFER && m > 0
    modifies src`data, buf
    ensures nr <= buf.Length && buf[..nr] <= Decode(old(src.data), m).payload
    ensures er.None? ==>
              Decode(old(src.data), m)
              == Plain(buf[..nr] + Decode(src.data, m - 1).payload, Decode(src.data, m - 1).clean)
    ensures er == Some(Eof) ==> Decode(old(src.data), m) == Plain(buf[..nr], true)
    ensures er == Some(UnexpectedEof) ==> !Decode(old(src.data), m).clean
    ensures er.Some? ==> er.value in {Eof, UnexpectedEof, Broken} && (er.value.Broken? ==> src.faults)
  {
    hide Decode, Length;
    ghost var wire := src.data;
    DecodeEnds(wire, m);
    var n;
    n, er := src.ReadFull(buf, 3);
    if er.Some? {
      assert buf[..0] == [];
      if |wire| < 3 {
        DecodeShort(wire, m);
      }
      return 0, er;
    }
    var length, padding := buf[0] as nat * 256 + buf[1] as nat, buf[2] as nat;
    HeaderRead(wire, buf[..3]);
    DecodeNext(wire, m, length, padding);
    ghost var rest := src.data;
    nr, er := src.ReadFull(buf, length);
    assert er.None? ==> buf[..nr] == rest[..length];
    assert er == Some(Eof) || er == Some(UnexpectedEof) ==> buf[..nr] == rest;
    if er.None? {
      er := src.Discard(padding);
    } else if length <= |rest| {
      assert rest[..nr] <= rest[..length];
    }
  }

  lemma DecodeShort(wire: seq<Byte>, m: nat)
    requires m > 0 && |wire| < 3
    ensures Decode(wire, m) == Plain([], wire == [])
  {
  }

  lemma HeaderRead(wire: seq<Byte>, header: seq<Byte>)
    requires |wire| >= 3 && header == wire[..3]
    ensures header[0] as nat * 256 + header[1] as nat == Length(wire) && header[2] == wire[2]
  {
  }

  /** One write and its accounting: `head`, `data` and `tail` are the framing before, the payload and the framing after. */
  method Deliver(dst: Sink, buf: array<Byte>, counter: Counter, nr: nat, start: nat, length: nat,
                 ghost head: seq<Byte>, ghost data: seq<Byte>, ghost tail: seq<Byte>)
    returns (nw: int, err: Option<IoError>)
    requires nr <= buf.Length && buf[..nr] == head + data + tail && |head| == start && |data| == length
    modifies dst, counter
    ensures err != Some(InvalidCount) ==>
              var wire := Cells(head, false) + Cells(data, true) + Cells(tail, false);
              && 0 <= nw <= nr == |wire| && (err.None? ==> nw == nr)
              && dst.received == old(dst.received) + Bytes(wire[..nw])
              && counter.value == old(counter.value) + |Payload(wire[..nw])|
    ensures !dst.faults ==> err.None?
  {
    hide Payload;
    var failed;
    nw, failed := dst.Write(buf, nr);
    if nw < 0 || nw > nr {
      return nw, Some(InvalidCount);
    }
    var n := nw - start;
    if n > length {
      n := length;
    }
    if n > 0 {
      counter.value := counter.value + n;
    }
    PartialPayload(head, data, tail, nw);
    WireBytes(head, data, tail, nw);
    assert buf[..nw] == buf[..nr][..nw];
    if failed {
      return nw, Some(WriteFailed);
    }
    if nw != nr {
      return nw, Some(ShortWrite);
    }
    var flushed := dst.Flush();
    return nw, if flushed then None else Some(WriteFailed);
  }

  lemma WireBytes(head: seq<Byte>, data: seq<Byte>, tail: seq<Byte>, n: nat)
    requires n <= |head| + |data| + |tail|
    ensures Bytes((Cells(head, false) + Cells(data, true) + Cells(tail, false))[..n]) == (head + data + tail)[..n]
  {
  }

  /** The payload a stream carries from one end of a copy to the other. */
  ghost function Carried(mode: Mode, data: seq<Byte>, n: nat): Plain {
    if mode.RemovePadding? then Decode(data, n) else Plain(data, true)
  }

  /** The part of a write that is not payload, before it and after it. */
  ghost function Head(chunk: Chunk, framed: bool): seq<Byte>
    requires framed ==> chunk.Fits()
  {
    if framed && chunk.data != [] then Header(chunk) else []
  }

  ghost function Tail(chunk: Chunk, framed: bool): seq<Byte> {
    if framed && chunk.data != [] then Zeros(chunk.padding) else []
  }

  lemma WireParts(chunk: Chunk, framed: bool)
    requires framed ==> chunk.Fits()
    ensures Wire(chunk, framed)
            == Cells(Head(chunk, framed), false) + Cells(chunk.data, true) + Cells(Tail(chunk, framed), false)
    ensures Bytes(Wire(chunk, framed)) == Head(chunk, framed) + chunk.data + Tail(chunk, framed)
  {
  }

  /** What a read takes from a stream that was `before` and is `after`. */
  ghost predicate Took(mode: Mode, framed: bool, before: seq<Byte>, after: seq<Byte>, m: nat, chunk: Chunk,
                       er: Option<IoError>)
    requires framed ==> m > 0
  {
    && (framed && mode.AddPadding? ==> chunk.Fits())
    && chunk.data <= Carried(mode, before, m).payload
    && (!mode.RemovePadding? ==> before == chunk.data + after)
    && (er.None? ==>
          var rest := Carried(mode, after, if framed then m - 1 else m);
          Carried(mode, before, m) == Plain(chunk.data + rest.payload, rest.clean))
    && (er == Some(Eof) ==>
          Carried(mode, before, m) == Plain(chunk.data, true) && (!mode.RemovePadding? ==> after == []))
    && (er == Some(UnexpectedEof) ==> !Carried(mode, before, m).clean)
  }

  /** One read of any kind. The chunk is what it put into the buffer; what is still to come is carried on. */
  method ReadNext(src: Source, buf: array<Byte>, mode: Mode, framed: bool, ghost m: nat)
    returns (nr: nat, start: nat, length: nat, er: Option<IoError>, chunk: Chunk)
    requires buf.Length >= BUFFER && (framed ==> m > 0 && !mode.NoPadding?) && (mode.RemovePadding? && !framed ==> m == 0)
    modifies src, buf
    ensures var wrapped := framed && mode.AddPadding?;
            && (wrapped ==> chunk.Fits())
            && nr == |Wire(chunk, wrapped)| <= buf.Length && buf[..nr] == Bytes(Wire(chunk, wrapped))
            && start == |Head(chunk, wrapped)| && length == |chunk.data|
    ensures Took(mode, framed, old(src.data), src.data, m, chunk, er)
    ensures er.Some? ==> er.value in {Eof, UnexpectedEof, Broken} && (er.value.Broken? ==> src.faults)
    ensures er.None? && !framed ==> src.budget + |src.data| < old(src.budget + |src.data|)
  {
    hide Frame;
    start := 0;
    if framed && mode.AddPadding? {
      nr, er, chunk := ReadFramed(src, buf);
      start, length := if chunk.data == [] then 0 else 3, |chunk.data|;
      return;
    }
    if framed {
      nr, er := ReadUnframed(src, buf, m);
    } else {
      nr, er := src.Read(buf, 0, buf.Length);
      RawDecode(old(src.data));
      RawDecode(src.data);
      assert old(src.data) == buf[0..nr] + src.data;
    }
    assert buf[0..nr] == buf[..nr];
    length := nr;
    chunk := Chunk(buf[..nr], 0);
    RawWire(chunk);
  }

  lemma RawDecode(data: seq<Byte>)
    ensures Decode(data, 0) == Plain(data, true)
  {
  }

  /** What was carried so far, and what is still to come, make the whole. */
  ghost predicate Along(mode: Mode, all: seq<Byte>, n: nat, cells: seq<Cell>, chunks: seq<Chunk>, left: seq<Byte>, m: nat) {
    var rest := Carried(mode, left, m);
    && Carried(mode, all, n) == Plain(Payload(cells) + rest.payload, rest.clean)
    && (!mode.AddPadding? ==> Bytes(cells) == Payload(cells))
    && (mode.AddPadding? ==> AllFit(chunks, n) && cells == Encode(chunks, n) && all == Data(chunks) + left)
  }

  /** However a copy ended: the payload that arrived is a prefix of what the stream carries, and with padding added, what
      arrived is a prefix of the padded stream of the reads. */
  ghost predicate Partial(mode: Mode, all: seq<Byte>, n: nat, cells: seq<Cell>, chunks: seq<Chunk>) {
    && Payload(cells) <= Carried(mode, all, n).payload
    && (!mode.AddPadding? ==> Bytes(cells) == Payload(cells))
    && (mode.AddPadding? ==> AllFit(chunks, n) && cells <= Encode(chunks, n) && Data(chunks) <= all)
  }

  /** A copy that ended well carried everything. */
  ghost predicate Complete(mode: Mode, all: seq<Byte>, n: nat, cells: seq<Cell>, chunks: seq<Chunk>) {
    && Carried(mode, all, n) == Plain(Payload(cells), true)
    && (mode.AddPadding? ==> AllFit(chunks, n) && cells == Encode(chunks, n) && Data(chunks) == all)
  }

  ghost function Grown(mode: Mode, chunks: seq<Chunk>, chunk: Chunk): seq<Chunk> {
    if mode.AddPadding? then chunks + [chunk] else chunks
  }

  lemma Start(mode: Mode, all: seq<Byte>, n: nat)
    ensures Payload([]) == [] && Bytes([]) == [] && Along(mode, all, n, [], [], all, n)
  {
  }

  lemma {:induction false} NextChunk(chunks: seq<Chunk>, chunk: Chunk, n: nat)
    requires AllFit(chunks, n) && (|chunks| < n ==> chunk.Fits())
    ensures AllFit(chunks + [chunk], n) && Data(chunks + [chunk]) == Data(chunks) + chunk.data
    ensures Encode(chunks + [chunk], n) == Encode(chunks, n) + Wire(chunk, |chunks| < n)
  {
    assert (chunks + [chunk])[..|chunks|] == chunks;
  }

  /** A read, and the part of it that was written. */
  lemma StepPart(mode: Mode, all: seq<Byte>, n: nat, cells: seq<Cell>, chunks: seq<Chunk>, before: seq<Byte>,
                 after: seq<Byte>, m: nat, chunk: Chunk, framed: bool, er: Option<IoError>, nw: nat)
    requires Along(mode, all, n, cells, chunks, before, m) && (framed ==> m > 0)
    requires Took(mode, framed, before, after, m, chunk, er) && (mode.AddPadding? ==> (framed <==> |chunks| < n))
    requires nw <= |Wire(chunk, framed && mode.AddPadding?)|
    ensures var wire := Wire(chunk, framed && mode.AddPadding?);
            && Partial(mode, all, n, cells + wire[..nw], Grown(mode, chunks, chunk))
            && Payload(cells + wire[..nw]) == Payload(cells) + Payload(wire[..nw])
  {
    hide Payload, Encode, Data, Wire, AllFit, Bytes, Decode;
    var wrapped := framed && mode.AddPadding?;
    var wire := Wire(chunk, wrapped);
    WirePart(chunk, wrapped, nw);
    PayloadConcat(cells, wire[..nw]);
    PrefixAfter(Payload(cells), Payload(wire[..nw]), chunk.data, Carried(mode, before, m).payload);
    if mode.AddPadding? {
      NextChunk(chunks, chunk, n);
      assert Data(chunks) + chunk.data + after == all;
    } else {
      BytesConcat(cells, wire[..nw]);
    }
  }

  lemma WirePart(chunk: Chunk, wrapped: bool, nw: nat)
    requires (wrapped ==> chunk.Fits()) && nw <= |Wire(chunk, wrapped)|
    ensures var part := Wire(chunk, wrapped)[..nw];
            Payload(part) <= chunk.data && (!wrapped ==> Bytes(part) == Payload(part))
  {
    hide Payload, Wire, Cells;
    WireParts(chunk, wrapped);
    PartialPayload(Head(chunk, wrapped), chunk.data, Tail(chunk, wrapped), nw);
    WireBytes(Head(chunk, wrapped), chunk.data, Tail(chunk, wrapped), nw);
    assert [] + chunk.data + [] == chunk.data;
  }

  lemma PrefixAfter(sent: seq<Byte>, part: seq<Byte>, data: seq<Byte>, rest: seq<Byte>)
    requires part <= data <= rest
    ensures sent + part <= sent + rest
  {
  }

  /** A read that was written in full. */
  lemma StepWhole(mode: Mode, all: seq<Byte>, n: nat, cells: seq<Cell>, chunks: seq<Chunk>, before: seq<Byte>,
                  after: seq<Byte>, m: nat, chunk: Chunk, framed: bool, er: Option<IoError>)
    requires Along(mode, all, n, cells, chunks, before, m) && (framed ==> m > 0)
    requires Took(mode, framed, before, after, m, chunk, er) && (mode.AddPadding? ==> (framed <==> |chunks| < n))
    ensures var next := cells + Wire(chunk, framed && mode.AddPadding?);
            && (er.None? ==> Along(mode, all, n, next, Grown(mode, chunks, chunk), after, if framed then m - 1 else m))
            && (er == Some(Eof) ==> Complete(mode, all, n, next, Grown(mode, chunks, chunk)))
            && (er == Some(Eof) ==> Carried(mode, all, n).clean)
            && (er == Some(UnexpectedEof) ==> !Carried(mode, all, n).clean)
  {
    hide Payload, Encode, Data, Wire, AllFit, Decode;
    var wrapped := framed && mode.AddPadding?;
    var wire := Wire(chunk, wrapped);
    StepPart(mode, all, n, cells, chunks, before, after, m, chunk, framed, er, |wire|);
    assert wire[..|wire|] == wire;
    WirePayload(chunk, wrapped);
    if mode.AddPadding? {
      NextChunk(chunks, chunk, n);
    }
  }

  /** `liveIoCopy`, with `n` for `NumFirstPaddings`. `cells` is what reached the destination, payload told apart from
      framing; `chunks` are the reads. The counter grew by exactly the payload that was accepted, however the copy
      ended. */
  method LiveIoCopy(dst: Sink, src: Source, buf: array<Byte>, mode: Mode, n: nat, counter: Counter)
    returns (written: int, err: Option<IoError>, ghost cells: seq<Cell>, ghost chunks: seq<Chunk>)
    requires buf.Length >= BUFFER
    modifies dst, src, buf, counter
    ensures err != Some(InvalidCount) ==>
              && dst.received == old(dst.received) + Bytes(cells) && written == |cells|
              && counter.value == old(counter.value) + |Payload(cells)|
    ensures Partial(mode, old(src.data), n, cells, chunks)
    ensures err.None? ==> Complete(mode, old(src.data), n, cells, chunks)
    ensures !src.faults && !dst.faults ==>
              err == if Carried(mode, old(src.data), n).clean then None else Some(UnexpectedEof)
  {
    hide Payload, Wire, Along, Took, Partial, Complete, Head, Tail, Carried, Bytes;
    written, err, cells, chunks := 0, None, [], [];
    var frames := 0;
    ghost var all := src.data;
    Start(mode, all, n);
    while true
      invariant 0 <= frames <= n && (mode.AddPadding? ==> frames == if |chunks| < n then |chunks| else n)
      invariant dst.received == old(dst.received) + Bytes(cells) && written == |cells|
      invariant counter.value == old(counter.value) + |Payload(cells)|
      invariant Along(mode, all, n, cells, chunks, src.data, n - frames)
      decreases n - frames, src.budget + |src.data|
    {
      var framed := !mode.NoPadding? && frames < n;
      ghost var m, before, sent := n - frames, src.data, cells;
      var nr, start, length, er, chunk := ReadNext(src, buf, mode, framed, m);
      if framed {
        frames := frames + 1;
      }
      ghost var wire := Wire(chunk, framed && mode.AddPadding?);
      WireParts(chunk, framed && mode.AddPadding?);
      StepPart(mode, all, n, sent, chunks, before, src.data, m, chunk, framed, er, 0);
      StepWhole(mode, all, n, sent, chunks, before, src.data, m, chunk, framed, er);
      assert sent + wire[..0] == sent;
      ghost var earlier := chunks;
      chunks := Grown(mode, chunks, chunk);
      if nr > 0 {
        var nw;
        nw, err := Deliver(dst, buf, counter, nr, start, length,
                           Head(chunk, framed && mode.AddPadding?), chunk.data, Tail(chunk, framed && mode.AddPadding?));
        if err == Some(InvalidCount) {
          return;
        }
        StepPart(mode, all, n, sent, earlier, before, src.data, m, chunk, framed, er, nw);
        BytesConcat(sent, wire[..nw]);
        written, cells := written + nw, sent + wire[..nw];
        if err.Some? {
          return;
        }
        assert wire[..nw] == wire;
      } else {
        assert sent + wire == sent;
      }
      if er.Some? {
        err := if er == Some(Eof) then None else er;
        return;
      }
    }
  }

  /** Both ends of a tunnel: what one end pads, the other unpads. When both copies end well the bytes arrive unchanged,
      exactly if the padding count was used up by non-empty reads or nothing was read beyond it; and then both do end well
      when nothing fails. */
  method Tunnel(data: seq<Byte>, budget: nat, n: nat, faults: bool)
    returns (out: seq<Byte>, sent: nat, received: nat, well: bool, ghost chunks: seq<Chunk>)
    ensures well ==> Data(chunks) == data && AllFit(chunks, n) && sent == |data| && received == |out|
    ensures well ==> (out == data <==> Frames(chunks, 0, n) == n || DataFrom(chunks, Boundary(chunks, 0, n)) == [])
    ensures !faults && (Frames(chunks, 0, n) == n || DataFrom(chunks, Boundary(chunks, 0, n)) == []) ==> well
  {
    hide Payload, Decode, Encode, Data, AllFit, Frames, DataFrom, Boundary;
    var src := new Source(data, budget, faults);
    var mid := new Sink(faults);
    var end := new Sink(faults);
    var buf := new Byte[BUFFER](_ => 0);
    var up := new Counter();
    var down := new Counter();
    var written, err;
    ghost var cells;
    written, err, cells, chunks := LiveIoCopy(mid, src, buf, AddPadding, n, up);
    ghost var wire := mid.received;
    assert err.None? ==> wire == Bytes(cells);
    var onward := new Source(mid.received, budget, faults);
    var written2, err2;
    ghost var cells2, chunks2;
    written2, err2, cells2, chunks2 := LiveIoCopy(end, onward, buf, RemovePadding, n, down);
    out, sent, received, well := end.received, up.value, down.value, err.None? && err2.None?;
    if err.None? {
      EncodePayload(chunks, n);
      RoundTrip(chunks, n);
    }
    if well {
      assert out == Bytes(cells2) == Payload(cells2);
      assert Decode(wire, n) == Plain(out, true);
    }
  }
}
