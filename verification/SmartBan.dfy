/**
 * Checking a piece's data block by block as it streams past, to find the peers whose blocks do not
 * match. Data comes in writes of any size; a block that is cut is put together in a buffer.
 */
module SmartBan {

  type Byte = nat
  type Peer = nat

  // Which peers sent something else for a block; what a cache of past blocks answers.
  type Cache = (nat, seq<Byte>) -> set<Peer>

  function Concat(blocks: seq<seq<Byte>>): seq<Byte>
    decreases |blocks|
  {
    if blocks == [] then [] else Concat(blocks[..|blocks| - 1]) + blocks[|blocks| - 1]
  }

  // Consecutive blocks of the data, all full.
  ghost predicate Full(blocks: seq<seq<Byte>>, size: nat) {
    forall i :: 0 <= i < |blocks| ==> |blocks[i]| == size
  }

  /** Consecutive blocks of the data, all full except that the last may be short. */
  ghost predicate Cuts(blocks: seq<seq<Byte>>, data: seq<Byte>, size: nat) {
    && Concat(blocks) == data
    && (forall i :: 0 <= i < |blocks| - 1 ==> |blocks[i]| == size)
    && (blocks != [] ==> 0 < |blocks[|blocks| - 1]| <= size)
  }

  // The reference: cut block after block off the front.
  function Blocks(data: seq<Byte>, size: nat): seq<seq<Byte>>
    requires size > 0
  {
    if data == [] then []
    else if |data| <= size then [data]
    else [data[..size]] + Blocks(data[size..], size)
  }

  function Indexed(blocks: seq<seq<Byte>>, first: nat): seq<(nat, seq<Byte>)> {
    seq(|blocks|, i requires 0 <= i < |blocks| => (first + i, blocks[i]))
  }

  function BadPeers(cache: Cache, checked: seq<(nat, seq<Byte>)>): set<Peer>
    decreases |checked|
  {
    if checked == [] then {}
    else
      var (index, block) := checked[|checked| - 1];
      BadPeers(cache, checked[..|checked| - 1]) + cache(index, block)
  }

  lemma ConcatOne(blocks: seq<seq<Byte>>, b: seq<Byte>)
    ensures Concat(blocks + [b]) == Concat(blocks) + b
  {
    assert (blocks + [b])[..|blocks|] == blocks;
  }

  lemma {:induction false} ConcatFront(b: seq<Byte>, blocks: seq<seq<Byte>>)
    ensures Concat([b] + blocks) == b + Concat(blocks)
    decreases |blocks|
  {
    if blocks == [] {
      assert [b] + blocks == [b];
      assert [b][..0] == [];
    } else {
      var init, last := blocks[..|blocks| - 1], blocks[|blocks| - 1];
      ConcatFront(b, init);
      assert [b] + blocks == [b] + init + [last];
      ConcatOne([b] + init, last);
    }
  }

  /** There is only one way to cut data into such blocks. */
  lemma {:induction false} CutsAreBlocks(blocks: seq<seq<Byte>>, data: seq<Byte>, size: nat)
    requires size > 0 && Cuts(blocks, data, size)
    ensures blocks == Blocks(data, size)
    decreases |blocks|
  {
    if blocks != [] {
      var b, rest := blocks[0], blocks[1..];
      assert blocks == [b] + rest;
      ConcatFront(b, rest);
      if rest == [] {
        assert blocks == [b] && data == b;
      } else {
        assert rest[|rest| - 1] == blocks[|blocks| - 1];
        assert data[size..] == Concat(rest) && data[..size] == b;
        assert Cuts(rest, Concat(rest), size);
        ConcatNonEmpty(rest);
        CutsAreBlocks(rest, Concat(rest), size);
      }
    }
  }

  lemma ConcatNonEmpty(blocks: seq<seq<Byte>>)
    requires blocks != [] && |blocks[|blocks| - 1]| > 0
    ensures |Concat(blocks)| > 0
  {
  }

  lemma {:induction false} BadPeersAre(cache: Cache, checked: seq<(nat, seq<Byte>)>, p: Peer)
    ensures p in BadPeers(cache, checked) <==> exists i :: 0 <= i < |checked| && p in cache(checked[i].0, checked[i].1)
    decreases |checked|
  {
    if checked != [] {
      var init := checked[..|checked| - 1];
      BadPeersAre(cache, init, p);
      if p in BadPeers(cache, init) {
        var i :| 0 <= i < |init| && p in cache(init[i].0, init[i].1);
        assert checked[i] == init[i];
      }
      forall i | 0 <= i < |checked| && p in cache(checked[i].0, checked[i].1) ensures p in BadPeers(cache, checked) {
        assert i < |init| ==> checked[i] == init[i];
      }
    }
  }

  function Least(a: nat, b: nat): nat { if a < b then a else b }

  // Block i covers the data from i sizes on, one size long or to the end.
  function BlockOf(data: seq<Byte>, size: nat, i: nat): seq<Byte>
    requires i * size <= |data|
  {
    data[i * size..Least(|data|, i * size + size)]
  }

  function Offset(size: nat, i: nat): nat { if i == 0 then 0 else Offset(size, i - 1) + size }

  lemma {:induction false} OffsetIs(size: nat, i: nat)
    ensures Offset(size, i) == i * size
  {
    if i > 0 {
      OffsetIs(size, i - 1);
      assert i * size == (i - 1) * size + size;
    }
  }

  lemma Shift(data: seq<Byte>, size: nat, lo: nat, hi: nat)
    requires size <= lo <= hi <= |data|
    ensures data[size..][lo - size..hi - size] == data[lo..hi]
  {
  }

  lemma {:induction false} BlocksFrom(data: seq<Byte>, size: nat, i: nat, at: nat)
    requires size > 0 && at == Offset(size, i)
    ensures i < |Blocks(data, size)| <==> at < |data|
    ensures at < |data| ==> Blocks(data, size)[i] == data[at..Least(|data|, at + size)]
    decreases |data|
  {
    if i > 0 && |data| > size {
      BlocksFrom(data[size..], size, i - 1, at - size);
      if at < |data| {
        Shift(data, size, at, Least(|data|, at + size));
      }
    }
  }

  lemma BlocksAt(data: seq<Byte>, size: nat, i: nat)
    requires size > 0
    ensures i < |Blocks(data, size)| <==> i * size < |data|
    ensures i * size < |data| ==> Blocks(data, size)[i] == BlockOf(data, size, i)
  {
    OffsetIs(size, i);
    BlocksFrom(data, size, i, i * size);
  }

  /** A peer is found bad exactly if some block of the data, at its place and under its number, tells
      against it. */
  lemma BadWhen(cache: Cache, first: nat, size: nat, data: seq<Byte>, p: Peer)
    requires size > 0
    ensures p in BadPeers(cache, Indexed(Blocks(data, size), first)) <==>
              exists i: nat :: i * size < |data| && p in cache(first + i, BlockOf(data, size, i))
  {
    var blocks := Blocks(data, size);
    var checked := Indexed(blocks, first);
    BadPeersAre(cache, checked, p);
    if p in BadPeers(cache, checked) {
      var i :| 0 <= i < |checked| && p in cache(checked[i].0, checked[i].1);
      BlocksAt(data, size, i);
      assert checked[i] == (first + i, blocks[i]);
    }
    if i: nat :| i * size < |data| && p in cache(first + i, BlockOf(data, size, i)) {
      BlocksAt(data, size, i);
      assert checked[i] == (first + i, blocks[i]);
    }
  }

  class BlockCheckingWriter {
    const cache: Cache
    const first: nat
    const chunkBuffer: array<Byte>
    var requestIndex: nat
    var badPeers: set<Peer>
    var bufferUsed: nat
    // What was checked, and all that was written, so far.
    ghost var blocks: seq<seq<Byte>>
    ghost var written: seq<Byte>

    ghost predicate Valid()
      reads this, chunkBuffer
    {
      && chunkBuffer.Length > 0 && bufferUsed < chunkBuffer.Length
      && Full(blocks, chunkBuffer.Length)
      && Concat(blocks) + chunkBuffer[..bufferUsed] == written
      && requestIndex == first + |blocks|
      && badPeers == BadPeers(cache, Indexed(blocks, first))
    }

    constructor (cache: Cache, first: nat, chunkSize: nat)
      requires chunkSize > 0
      ensures Valid() && written == [] && this.cache == cache && this.first == first
      ensures chunkBuffer.Length == chunkSize && fresh(chunkBuffer)
    {
      this.cache, this.first := cache, first;
      chunkBuffer := new Byte[chunkSize];
      requestIndex, badPeers, bufferUsed, blocks, written := first, {}, 0, [], [];
    }

    method CheckBlock(b: seq<Byte>)
      requires requestIndex == first + |blocks| && badPeers == BadPeers(cache, Indexed(blocks, first))
      modifies this`requestIndex, this`badPeers, this`blocks
      ensures blocks == old(blocks) + [b] && requestIndex == first + |blocks|
      ensures badPeers == BadPeers(cache, Indexed(blocks, first))
    {
      var more := cache(requestIndex, b);
      badPeers := badPeers + more;
      requestIndex := requestIndex + 1;
      assert Indexed(blocks + [b], first)[..|blocks|] == Indexed(blocks, first);
      blocks := blocks + [b];
    }

    // The buffer is full, or holds the end of the piece.
    method CheckBufferedBlock()
      requires bufferUsed != 0 && bufferUsed <= chunkBuffer.Length
      requires requestIndex == first + |blocks| && badPeers == BadPeers(cache, Indexed(blocks, first))
      modifies this`requestIndex, this`badPeers, this`blocks, this`bufferUsed
      ensures bufferUsed == 0 && blocks == old(blocks) + [old(chunkBuffer[..bufferUsed])]
      ensures requestIndex == first + |blocks| && badPeers == BadPeers(cache, Indexed(blocks, first))
    {
      var b := chunkBuffer[..bufferUsed];
      bufferUsed := 0;
      CheckBlock(b);
    }

    method Fill(b: seq<Byte>)
      requires bufferUsed + |b| <= chunkBuffer.Length
      modifies chunkBuffer, this`bufferUsed
      ensures bufferUsed == old(bufferUsed) + |b|
      ensures chunkBuffer[..bufferUsed] == old(chunkBuffer[..bufferUsed]) + b
    {
      forall i | 0 <= i < |b| {
        chunkBuffer[bufferUsed + i] := b[i];
      }
      bufferUsed := bufferUsed + |b|;
    }

    // Completes a cut block as far as the data goes.
    method FinishPartialBlock(b: seq<Byte>) returns (n: nat)
      requires Valid()
      modifies this, chunkBuffer
      ensures Valid() && n <= |b| && written == old(written) + b[..n]
      ensures n < |b| ==> bufferUsed == 0
    {
      if bufferUsed == 0 {
        assert b[..0] == [];
        return 0;
      }
      n := if |b| < chunkBuffer.Length - bufferUsed then |b| else chunkBuffer.Length - bufferUsed;
      Fill(b[..n]);
      written := written + b[..n];
      if bufferUsed >= chunkBuffer.Length {
        ConcatOne(blocks, chunkBuffer[..bufferUsed]);
        CheckBufferedBlock();
      }
    }

    // Checks the whole blocks from a position on, straight from the data.
    method WriteBlocks(data: seq<Byte>, from: nat) returns (n: nat)
      requires Valid() && bufferUsed == 0 && from <= |data|
      modifies this
      ensures Valid() && bufferUsed == 0 && from <= n <= |data| && |data| - n < chunkBuffer.Length
      ensures written == old(written) + data[from..n]
    {
      n := from;
      var size := chunkBuffer.Length;
      while |data| - n >= size
        invariant Valid() && from <= n <= |data| && bufferUsed == 0 && written == old(written) + data[from..n]
      {
        var b := data[n..n + size];
        ConcatOne(blocks, b);
        CheckBlock(b);
        written := written + b;
        assert data[from..n] + b == data[from..n + size];
        n := n + size;
      }
    }

    /** Takes in all of the data, checking every block it completes. */
    method Write(data: seq<Byte>) returns (n: nat)
      requires Valid()
      modifies this, chunkBuffer
      ensures Valid() && n == |data| && written == old(written) + data
    {
      n := FinishPartialBlock(data);
      if n == |data| {
        assert data[..n] == data;
        return;
      }
      ghost var partial := n;
      n := WriteBlocks(data, n);
      Fill(data[n..]);
      written := written + data[n..];
      assert data[..partial] + data[partial..n] + data[n..] == data;
      n := |data|;
    }

    /** Checks what is left. The blocks checked are then exactly the blocks of all that was written,
        with consecutive indexes. */
    method Flush()
      requires Valid()
      modifies this`requestIndex, this`badPeers, this`blocks, this`bufferUsed
      ensures bufferUsed == 0 && written == old(written)
      ensures blocks == Blocks(written, chunkBuffer.Length)
      ensures requestIndex == first + |blocks|
      ensures badPeers == BadPeers(cache, Indexed(blocks, first))
    {
      if bufferUsed != 0 {
        ConcatOne(blocks, chunkBuffer[..bufferUsed]);
        CheckBufferedBlock();
      } else {
        assert Concat(blocks) + [] == Concat(blocks);
      }
      CutsAreBlocks(blocks, written, chunkBuffer.Length);
    }
  }

  /** However a piece's data is split into writes, the peers found are those that some block of the
      whole data, cut at the chunk size and numbered from the piece's first request, tells against. */
  method CheckPiece(cache: Cache, first: nat, chunkSize: nat, writes: seq<seq<Byte>>) returns (bad: set<Peer>)
    requires chunkSize > 0
    ensures bad == BadPeers(cache, Indexed(Blocks(Concat(writes), chunkSize), first))
    ensures forall p :: p in bad <==>
              exists i: nat :: i * chunkSize < |Concat(writes)|
                               && p in cache(first + i, BlockOf(Concat(writes), chunkSize, i))
  {
    var w := new BlockCheckingWriter(cache, first, chunkSize);
    for i := 0 to |writes|
      invariant w.Valid() && w.written == Concat(writes[..i]) && fresh(w) && fresh(w.chunkBuffer)
    {
      var n := w.Write(writes[i]);
      assert writes[..i + 1] == writes[..i] + [writes[i]];
      ConcatOne(writes[..i], writes[i]);
    }
    assert writes[..|writes|] == writes;
    w.Flush();
    bad := w.badPeers;
    forall p ensures p in bad <==>
      exists i: nat :: i * chunkSize < |Concat(writes)| && p in cache(first + i, BlockOf(Concat(writes), chunkSize, i))
    {
      BadWhen(cache, first, chunkSize, Concat(writes), p);
    }
  }
}
