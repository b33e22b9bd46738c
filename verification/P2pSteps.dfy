/**
 Steps of a send or receive: ncclProxyComputeP2p (src/proxy.cc) announces a number of steps to the
 proxy, runSend and runRecv (src/device/sendrecv.h) make one step per turn of their loops.
 */
module P2pSteps {
  import opened Arith

  datatype Protocol = Simple | LL

  /** The chunk a step moves: with LL half of it is flags. */
  function Effective(proto: Protocol, chunkSize: nat): nat { if proto.LL? then chunkSize / 2 else chunkSize }

  /** nsteps of ncclProxyComputeP2p. */
  function HostSteps(proto: Protocol, chunkSize: nat, count: nat, reg: bool): nat
    requires Effective(proto, chunkSize) >= 1
  {
    var n := DivUp(count, Effective(proto, chunkSize));
    if n == 0 || reg then 1 else n
  }

  /** One step: `size` bytes from `offset` on. */
  datatype Piece = Piece(offset: nat, size: nat)

  /** Pieces that follow one another from 0 to `end`, none longer than `chunk`, and none empty unless it is the only one. */
  predicate Consecutive(pieces: seq<Piece>, end: nat, chunk: nat)
    decreases |pieces|
  {
    if pieces == [] then end == 0
    else
      var p, front := pieces[|pieces| - 1], pieces[..|pieces| - 1];
      p.size <= chunk && end == p.offset + p.size && (front != [] ==> p.size > 0) && Consecutive(front, p.offset, chunk)
  }

  /** What a piece takes of a chunk: an LL line of 16 bytes carries 8 bytes of data, the rest are flags. */
  function OnTheWire(proto: Protocol, size: nat): nat { if proto.LL? then 16 * DivUp(size, 8) else size }

  /** Every piece, with its flags, fits the chunk. */
  predicate FitChunk(proto: Protocol, pieces: seq<Piece>, chunk: nat) {
    forall k :: 0 <= k < |pieces| ==>
      && (if proto.LL? then 2 * pieces[k].size else pieces[k].size) <= chunk
      && (chunk % 16 == 0 ==> OnTheWire(proto, pieces[k].size) <= chunk)
  }

  lemma {:induction false} PiecesFit(proto: Protocol, pieces: seq<Piece>, end: nat, chunk: nat)
    requires Consecutive(pieces, end, Effective(proto, chunk))
    ensures FitChunk(proto, pieces, chunk)
  {
    if pieces != [] {
      var front, p := pieces[..|pieces| - 1], pieces[|pieces| - 1];
      PiecesFit(proto, front, p.offset, chunk);
      if proto.LL? && chunk % 16 == 0 { LinesFit(p.size, chunk / 16); }
      forall k | 0 <= k < |pieces|
        ensures (if proto.LL? then 2 * pieces[k].size else pieces[k].size) <= chunk
        ensures chunk % 16 == 0 ==> OnTheWire(proto, pieces[k].size) <= chunk
      {
        if k < |front| { assert front[k] == pieces[k]; }
      }
    }
  }

  lemma LinesFit(size: nat, lines: nat)
    requires size <= 8 * lines
    ensures DivUp(size, 8) <= lines
  {
  }

  /** The do-while loop of runSend and runRecv: as many steps as the host announced, and unless registered, all bytes in order. */
  method RunLoop(proto: Protocol, chunk: nat, count: nat, reg: bool) returns (pieces: seq<Piece>)
    requires Effective(proto, chunk) >= 1
    ensures |pieces| == HostSteps(proto, chunk, count, reg)
    ensures Consecutive(pieces, if reg then Min(Effective(proto, chunk), count) else count, Effective(proto, chunk))
    ensures FitChunk(proto, pieces, chunk)
  {
    var chunkSize := chunk;
    if proto.LL? { chunkSize := chunkSize / 2; }
    var nelem := Min(chunkSize, count);
    pieces := [Piece(0, nelem)];
    var offset: nat := nelem;
    assert pieces[..0] == [];
    while offset < count && !reg
      invariant nelem <= offset <= count && (reg ==> |pieces| == 1 && offset == nelem)
      invariant pieces != [] && Consecutive(pieces, offset, chunkSize)
      invariant offset == Min(|pieces| * chunkSize, count) && (|pieces| - 1) * chunkSize < Max(count, 1)
    {
      var n := Min(chunkSize, count - offset);
      var more := pieces + [Piece(offset, n)];
      assert more[..|pieces|] == pieces;
      assert (|pieces| + 1) * chunkSize == |pieces| * chunkSize + chunkSize;
      pieces := more;
      offset := offset + n;
    }
    StepsAreDivUp(count, chunkSize, |pieces|);
    PiecesFit(proto, pieces, offset, chunk);
  }

  lemma StepsAreDivUp(count: nat, chunk: nat, n: nat)
    requires chunk >= 1 && n >= 1
    ensures count <= n * chunk && (n - 1) * chunk < count ==> n == DivUp(count, chunk)
    ensures count == 0 ==> DivUp(count, chunk) == 0
  {
    var d := DivUp(count, chunk);
    assert (n - 1) * chunk == n * chunk - chunk && (d - 1) * chunk == d * chunk - chunk;
    if count == 0 && d >= 1 { MulMono(1, d, chunk); }
    if count <= n * chunk && (n - 1) * chunk < count {
      if d < n { MulMono(d, n - 1, chunk); } else if n < d { MulMono(n, d - 1, chunk); }
    }
  }
}
