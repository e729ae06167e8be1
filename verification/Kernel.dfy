// The gather kernel: one thread block per buffer, THREADBLOCK_SIZE lanes striding over its bytes.

module Kernel {
  import opened Memory
  import opened Layout
  import opened Arithmetic

  const THREADBLOCK_SIZE: nat := 512
  const INT_LIMIT: int := 0x8000_0000

  // ---------------------------------------------------------------------------
  // What the threads do

  // Narrowing of a size_t to an int.
  function ToInt(n: nat): (r: int)
    ensures r <= n && (r == n <==> n < INT_LIMIT)
  {
    var low := n % 0x1_0000_0000;
    if low < INT_LIMIT then low else low - 0x1_0000_0000
  }

  // Byte 'byteIdx' of the buffer of thread block 'blk' is stored.
  datatype Store = Store(blk: nat, byteIdx: nat)

  function WordStores(blk: nat, first: nat, width: nat): (r: seq<Store>)
    ensures |r| == width && forall i :: 0 <= i < width ==> r[i] == Store(blk, first + i)
  {
    seq(width, i requires 0 <= i => Store(blk, first + i))
  }

  // The stores of one lane: every THREADBLOCK_SIZE-th word of its block, each word being 'width' bytes.
  function LaneStores(blk: nat, elem: nat, count: nat, width: nat): seq<Store>
    decreases count - elem
  {
    if elem >= count then []
    else WordStores(blk, elem * width, width) + LaneStores(blk, elem + THREADBLOCK_SIZE, count, width)
  }

  // The int that counts the words of a lane does not overflow.
  predicate LaneEnds(elem: nat, count: nat)
    decreases count - elem
  {
    elem < count ==> elem + THREADBLOCK_SIZE < INT_LIMIT && LaneEnds(elem + THREADBLOCK_SIZE, count)
  }

  // Words of four bytes when the size and both addresses allow it, single bytes otherwise.
  function Width(size: int, aligned: bool): nat {
    if size % 4 == 0 && aligned then 4 else 1
  }

  function Words(size: int, aligned: bool): nat {
    if size < 0 then 0 else size / Width(size, aligned)
  }

  function BlockStores(blk: nat, count: nat, width: nat, lanes: nat): seq<Store> {
    if lanes == 0 then [] else BlockStores(blk, count, width, lanes - 1) + LaneStores(blk, lanes - 1, count, width)
  }

  // The stores of the first 'n' thread blocks.
  function AllStores(sizes: seq<nat>, aligned: seq<bool>, n: nat): seq<Store>
    requires n <= |sizes| == |aligned|
  {
    if n == 0 then []
    else
      var size := ToInt(sizes[n - 1]);
      AllStores(sizes, aligned, n - 1)
      + BlockStores(n - 1, Words(size, aligned[n - 1]), Width(size, aligned[n - 1]), THREADBLOCK_SIZE)
  }

  // 'stores' is some order of the stores that all lanes of all thread blocks make.
  predicate Interleaving(sizes: seq<nat>, aligned: seq<bool>, stores: seq<Store>) {
    |sizes| == |aligned| && multiset(stores) == multiset(AllStores(sizes, aligned, |sizes|))
  }

  ghost predicate Ends(sizes: seq<nat>, aligned: seq<bool>)
    requires |sizes| == |aligned|
  {
    forall i, lane {:trigger LaneEnds(lane, Words(ToInt(sizes[i]), aligned[i]))} ::
      0 <= i < |sizes| && 0 <= lane < THREADBLOCK_SIZE ==> LaneEnds(lane, Words(ToInt(sizes[i]), aligned[i]))
  }

  // Carrying the stores out, one after the other, on the bytes at the output pointer.
  function Run(out: seq<byte>, pointers: seq<seq<byte>>, offsets: seq<nat>, stores: seq<Store>): (r: seq<byte>)
    requires |pointers| == |offsets|
    ensures |r| == |out|
    decreases |stores|
  {
    if stores == [] then out
    else
      var s := stores[0];
      var at := if s.blk < |offsets| then ToInt(offsets[s.blk]) + s.byteIdx else -1;
      var out' :=
        if 0 <= at < |out| && s.byteIdx < |pointers[s.blk]| then out[at := pointers[s.blk][s.byteIdx]] else out;
      Run(out', pointers, offsets, stores[1..])
  }

  // ---------------------------------------------------------------------------
  // Which bytes are stored

  lemma {:induction false} LaneWithin(blk: nat, elem: nat, count: nat, width: nat, s: Store)
    requires s in LaneStores(blk, elem, count, width)
    ensures s.blk == blk && s.byteIdx < count * width
    decreases count - elem
  {
    if s in WordStores(blk, elem * width, width) {
      assert (elem + 1) * width == elem * width + width;
      MulMonotone(elem + 1, count, width);
    } else {
      LaneWithin(blk, elem + THREADBLOCK_SIZE, count, width, s);
    }
  }

  // Word 'word' is one of those lane 'elem' comes to, if it is a number of strides further on.
  lemma {:induction false} LaneReaches(blk: nat, elem: nat, count: nat, width: nat, word: nat, i: nat, strides: nat)
    requires word < count && i < width && word == elem + strides * THREADBLOCK_SIZE
    ensures Store(blk, word * width + i) in LaneStores(blk, elem, count, width)
    decreases strides
  {
    if strides == 0 {
      assert WordStores(blk, elem * width, width)[i] == Store(blk, word * width + i);
    } else {
      LaneReaches(blk, elem + THREADBLOCK_SIZE, count, width, word, i, strides - 1);
    }
  }

  lemma {:induction false} BlockWithin(blk: nat, count: nat, width: nat, lanes: nat, s: Store)
    requires s in BlockStores(blk, count, width, lanes)
    ensures s.blk == blk && s.byteIdx < count * width
  {
    if s in LaneStores(blk, lanes - 1, count, width) {
      LaneWithin(blk, lanes - 1, count, width, s);
    } else {
      BlockWithin(blk, count, width, lanes - 1, s);
    }
  }

  lemma {:induction false} LaneInBlock(blk: nat, count: nat, width: nat, lanes: nat, lane: nat, s: Store)
    requires lane < lanes && s in LaneStores(blk, lane, count, width)
    ensures s in BlockStores(blk, count, width, lanes)
  {
    if lane < lanes - 1 { LaneInBlock(blk, count, width, lanes - 1, lane, s); }
  }

  // Every byte of every word is stored by some lane.
  lemma {:induction false} LanesCover(blk: nat, count: nat, width: nat, byteIdx: nat)
    requires width > 0 && byteIdx < count * width
    ensures Store(blk, byteIdx) in BlockStores(blk, count, width, THREADBLOCK_SIZE)
  {
    var word, i := byteIdx / width, byteIdx % width;
    assert byteIdx == word * width + i;
    if word >= count { MulMonotone(count, word, width); }
    var lane := word % THREADBLOCK_SIZE;
    LaneReaches(blk, lane, count, width, word, i, word / THREADBLOCK_SIZE);
    LaneInBlock(blk, count, width, THREADBLOCK_SIZE, lane, Store(blk, byteIdx));
  }

  lemma {:induction false} WordsAreBytes(size: int, aligned: bool)
    ensures Width(size, aligned) > 0
    ensures Words(size, aligned) * Width(size, aligned) == if size < 0 then 0 else size
  {}

  // One thread block stores exactly the bytes below the size it is given.
  lemma {:induction false} BlockStoresAre(blk: nat, size: int, aligned: bool, s: Store)
    ensures s in BlockStores(blk, Words(size, aligned), Width(size, aligned), THREADBLOCK_SIZE) <==>
            s.blk == blk && s.byteIdx < size
  {
    hide Words, Width, BlockStores;
    var count, width := Words(size, aligned), Width(size, aligned);
    WordsAreBytes(size, aligned);
    if s in BlockStores(blk, count, width, THREADBLOCK_SIZE) { BlockWithin(blk, count, width, THREADBLOCK_SIZE, s); }
    if s.blk == blk && s.byteIdx < size { LanesCover(blk, count, width, s.byteIdx); }
  }

  // A launch stores exactly the bytes below the narrowed size of each buffer.
  lemma {:induction false} StoresAre(sizes: seq<nat>, aligned: seq<bool>, n: nat, s: Store)
    requires n <= |sizes| == |aligned|
    ensures s in AllStores(sizes, aligned, n) <==> s.blk < n && s.byteIdx < ToInt(sizes[s.blk])
  {
    hide ToInt, Words, Width, BlockStores;
    if n > 0 {
      StoresAre(sizes, aligned, n - 1, s);
      BlockStoresAre(n - 1, ToInt(sizes[n - 1]), aligned[n - 1], s);
    }
  }

  lemma {:induction false} InterleavingIs(sizes: seq<nat>, aligned: seq<bool>, stores: seq<Store>, s: Store)
    requires Interleaving(sizes, aligned, stores)
    ensures s in stores <==> s.blk < |sizes| && s.byteIdx < ToInt(sizes[s.blk])
  {
    StoresAre(sizes, aligned, |sizes|, s);
    assert s in stores <==> s in multiset(stores);
  }

  // ---------------------------------------------------------------------------
  // When a launch gathers

  // The sizes and offsets of buffers that have bytes survive the narrowing, with a stride to spare for the counter.
  ghost predicate Narrow(parts: seq<seq<byte>>) {
    forall i :: 0 <= i < |parts| && parts[i] != [] ==>
      |parts[i]| + THREADBLOCK_SIZE <= INT_LIMIT && Off(parts, i) < INT_LIMIT
  }

  lemma {:induction false} NarrowCounts(parts: seq<seq<byte>>)
    requires Narrow(parts)
    ensures forall i :: 0 <= i < |parts| ==> ToInt(Sizes(parts)[i]) + THREADBLOCK_SIZE <= INT_LIMIT
  {
    hide ToInt;
    forall i | 0 <= i < |parts| ensures ToInt(Sizes(parts)[i]) + THREADBLOCK_SIZE <= INT_LIMIT {
      if parts[i] == [] { assert ToInt(0) == 0; }
    }
  }

  lemma {:induction false} LaneEndsWithin(elem: nat, count: nat)
    requires count + THREADBLOCK_SIZE <= INT_LIMIT
    ensures LaneEnds(elem, count)
    decreases count - elem
  {
    if elem < count { LaneEndsWithin(elem + THREADBLOCK_SIZE, count); }
  }

  lemma {:induction false} LaneOverflows(elem: nat, count: nat, strides: nat)
    requires count == elem + strides * THREADBLOCK_SIZE + 1 && count + THREADBLOCK_SIZE > INT_LIMIT
    ensures !LaneEnds(elem, count)
    decreases strides
  {
    if strides > 0 { LaneOverflows(elem + THREADBLOCK_SIZE, count, strides - 1); }
  }

  // Storing a byte of a narrow list puts it where the concatenation has it.
  lemma {:induction false} StoreRight(parts: seq<seq<byte>>, s: Store)
    requires Narrow(parts) && s.blk < |parts| && s.byteIdx < |parts[s.blk]|
    ensures var at := ToInt(Off(parts, s.blk)) + s.byteIdx;
      at == Off(parts, s.blk) + s.byteIdx < Total(parts) && Concat(parts)[at] == parts[s.blk][s.byteIdx]
  {
    hide ToInt, Off;
    OffStep(parts, s.blk);
    OffMonotone(parts, s.blk + 1, |parts|);
    ConcatAt(parts, |parts|, s.blk, Off(parts, s.blk) + s.byteIdx);
  }

  // After some stores, every byte is the one before or the gathered one; the stored ones are gathered.
  lemma {:induction false} StoresGather(out: seq<byte>, parts: seq<seq<byte>>, stores: seq<Store>, p: nat)
    requires Narrow(parts) && Total(parts) <= |out| && p < |out|
    requires forall s :: s in stores ==> s.blk < |parts| && s.byteIdx < |parts[s.blk]|
    ensures var r := Run(out, parts, Offsets(parts), stores);
      && (r[p] == out[p] || (p < Total(parts) && r[p] == Concat(parts)[p]))
      && (p < Total(parts) && out[p] == Concat(parts)[p] ==> r[p] == Concat(parts)[p])
    ensures (exists s :: s in stores && Off(parts, s.blk) + s.byteIdx == p) ==>
      p < Total(parts) && Run(out, parts, Offsets(parts), stores)[p] == Concat(parts)[p]
    decreases |stores|
  {
    hide Narrow, Off, Concat, Total, ToInt;
    if stores != [] {
      var s := stores[0];
      assert s in stores;
      StoreRight(parts, s);
      TotalIs(parts);
      assert forall x :: x in stores[1..] ==> x in stores;
      var out' := out[Off(parts, s.blk) + s.byteIdx := parts[s.blk][s.byteIdx]];
      assert Run(out, parts, Offsets(parts), stores) == Run(out', parts, Offsets(parts), stores[1..]);
      StoresGather(out', parts, stores[1..], p);
      if x :| x in stores && Off(parts, x.blk) + x.byteIdx == p {
        if x != s { assert x in stores[1..]; }
      }
    }
  }

  lemma {:induction false} TotalIs(parts: seq<seq<byte>>)
    ensures Total(parts) == |Concat(parts)|
  {}

  // Whatever the order of the threads, and whichever blocks move whole words, a launch on the host arrays
  // of a run lays the buffers side by side from the output pointer on, and touches nothing else.
  lemma {:induction false} KernelGathers(out: seq<byte>, parts: seq<seq<byte>>, aligned: seq<bool>, stores: seq<Store>)
    requires Narrow(parts) && Total(parts) <= |out| && Interleaving(Sizes(parts), aligned, stores)
    ensures Ends(Sizes(parts), aligned)
    ensures Run(out, parts, Offsets(parts), stores) == Splice(out, 0, Concat(parts))
  {
    var r := Run(out, parts, Offsets(parts), stores);
    forall s ensures s in stores <==> s.blk < |parts| && s.byteIdx < |parts[s.blk]| {
      InterleavingIs(Sizes(parts), aligned, stores, s);
    }
    forall i, lane | 0 <= i < |parts| && 0 <= lane < THREADBLOCK_SIZE
      ensures LaneEnds(lane, Words(ToInt(Sizes(parts)[i]), aligned[i]))
    {
      LaneEndsWithin(lane, Words(|parts[i]|, aligned[i]));
    }
    hide Interleaving, Narrow;
    forall p | 0 <= p < |out| ensures r[p] == Splice(out, 0, Concat(parts))[p] {
      StoresGather(out, parts, stores, p);
      if p < Total(parts) {
        var k := Owner(parts, |parts|, p);
        assert Store(k, p - Off(parts, k)) in stores;
      }
    }
  }

  // ---------------------------------------------------------------------------
  // When it does not

  // Launches on buffers of these sizes end, and gather, whatever the bytes, the addresses and the order.
  ghost predicate AlwaysGathers(sizes: seq<nat>) {
    forall parts, aligned, stores, out :: GathersOnce(sizes, parts, aligned, stores, out)
  }

  ghost predicate GathersOnce(sizes: seq<nat>, parts: seq<seq<byte>>, aligned: seq<bool>, stores: seq<Store>,
      out: seq<byte>)
  {
    Sizes(parts) == sizes && Total(parts) <= |out| && Interleaving(sizes, aligned, stores) ==>
      Ends(sizes, aligned) && Run(out, parts, Offsets(parts), stores) == Splice(out, 0, Concat(parts))
  }

  lemma {:induction false} SameOffsets(a: seq<seq<byte>>, b: seq<seq<byte>>, k: nat)
    requires Sizes(a) == Sizes(b) && k <= |a|
    ensures |a| == |b| && Off(a, k) == Off(b, k)
  {
    assert |Sizes(a)| == |Sizes(b)|;
    if k > 0 {
      SameOffsets(a, b, k - 1);
      assert Sizes(a)[k - 1] == Sizes(b)[k - 1];
    }
  }

  lemma {:induction false} NarrowSizes(a: seq<seq<byte>>, b: seq<seq<byte>>)
    requires Sizes(a) == Sizes(b) && Narrow(a)
    ensures Narrow(b)
  {
    forall i | 0 <= i < |b| && b[i] != []
      ensures |b[i]| + THREADBLOCK_SIZE <= INT_LIMIT && Off(b, i) < INT_LIMIT
    {
      SameOffsets(b, a, i);
      assert Sizes(a)[i] == Sizes(b)[i];
    }
  }

  // Buffers of given sizes in which only one byte is not zero.
  function OneByte(sizes: seq<nat>, i: nat, b: nat): (r: seq<seq<byte>>)
    ensures Sizes(r) == sizes
    ensures forall j, c :: 0 <= j < |r| && 0 <= c < |r[j]| ==> r[j][c] == if j == i && c == b then 1 else 0
  {
    var r := seq(|sizes|, j requires 0 <= j < |sizes| =>
      seq(sizes[j], c requires 0 <= c => if j == i && c == b then 1 as byte else 0));
    assert Sizes(r) == sizes;
    r
  }

  // A byte that is never stored, or stored elsewhere, stays zero.
  lemma {:induction false} StaysZero(out: seq<byte>, parts: seq<seq<byte>>, i: nat, b: nat, stores: seq<Store>, p: nat)
    requires p < |out| && out[p] == 0 && i < |parts|
    requires forall j, c :: 0 <= j < |parts| && 0 <= c < |parts[j]| && (j != i || c != b) ==> parts[j][c] == 0
    requires Store(i, b) in stores ==> ToInt(Off(parts, i)) + b != p
    ensures Run(out, parts, Offsets(parts), stores)[p] == 0
    decreases |stores|
  {
    hide ToInt, Off;
    if stores != [] {
      var s := stores[0];
      assert s in stores;
      var at := if s.blk < |parts| then ToInt(Off(parts, s.blk)) + s.byteIdx else -1;
      var out' := if 0 <= at < |out| && s.byteIdx < |parts[s.blk]| then out[at := parts[s.blk][s.byteIdx]] else out;
      assert out'[p] == 0;
      assert forall x :: x in stores[1..] ==> x in stores;
      StaysZero(out', parts, i, b, stores[1..], p);
    }
  }

  // Its last byte is the one that is not zero.
  lemma {:induction false} LastByte(sizes: seq<nat>, i: nat, out: seq<byte>)
    requires i < |sizes| && sizes[i] > 0 && Total(OneByte(sizes, i, sizes[i] - 1)) <= |out|
    ensures var parts := OneByte(sizes, i, sizes[i] - 1); var p := Off(parts, i) + sizes[i] - 1;
      |parts| == |sizes| && p < Total(parts) && Splice(out, 0, Concat(parts))[p] == 1
  {
    hide Off, Concat;
    var parts := OneByte(sizes, i, sizes[i] - 1);
    assert |Sizes(parts)| == |sizes| && |parts[i]| == Sizes(parts)[i];
    OffStep(parts, i);
    OffMonotone(parts, i + 1, |parts|);
    TotalIs(parts);
    LastConcat(parts, i);
  }

  lemma {:induction false} LastConcat(parts: seq<seq<byte>>, i: nat)
    requires i < |parts| && parts[i] != []
    ensures var p := Off(parts, i) + |parts[i]| - 1; p < Total(parts) && Concat(parts)[p] == parts[i][|parts[i]| - 1]
  {
    hide Off;
    OffStep(parts, i);
    ConcatAt(parts, |parts|, i, Off(parts, i) + |parts[i]| - 1);
  }

  // A buffer whose size or offset does not fit an int is not gathered.
  lemma {:induction false} WideFails(sizes: seq<nat>, i: nat)
    requires i < |sizes| && sizes[i] > 0
    requires sizes[i] >= INT_LIMIT || Off(OneByte(sizes, i, sizes[i] - 1), i) >= INT_LIMIT
    ensures !AlwaysGathers(sizes)
  {
    hide Off, Concat, Total, AllStores, OneByte;
    var b := sizes[i] - 1;
    var parts := OneByte(sizes, i, b);
    var aligned := seq(|sizes|, _ => false);
    var stores := AllStores(sizes, aligned, |sizes|);
    assert Interleaving(sizes, aligned, stores);
    var out := seq(Total(parts), _ => 0 as byte);
    var p := Off(parts, i) + b;
    LastByte(sizes, i, out);
    StoresAre(sizes, aligned, |sizes|, Store(i, b));
    StaysZero(out, parts, i, b, stores, p);
    assert !GathersOnce(sizes, parts, aligned, stores, out);
  }

  // A lane of a buffer of nearly 2^31 bytes that is moved byte by byte counts past the greatest int.
  lemma {:induction false} LongFails(sizes: seq<nat>, i: nat)
    requires i < |sizes| && INT_LIMIT - THREADBLOCK_SIZE < sizes[i] < INT_LIMIT
    ensures !AlwaysGathers(sizes)
  {
    var parts := OneByte(sizes, i, 0);
    var aligned := seq(|sizes|, _ => false);
    var stores := AllStores(sizes, aligned, |sizes|);
    assert Interleaving(sizes, aligned, stores);
    var out := seq(Total(parts), _ => 0 as byte);
    var lane := (sizes[i] - 1) % THREADBLOCK_SIZE;
    LaneOverflows(lane, sizes[i], (sizes[i] - 1) / THREADBLOCK_SIZE);
    assert !LaneEnds(lane, Words(ToInt(sizes[i]), aligned[i]));
    assert !GathersOnce(sizes, parts, aligned, stores, out);
  }

  // Launches gather exactly when every buffer that has bytes is narrow, however large the whole run is.
  lemma {:induction false} KernelExact(parts: seq<seq<byte>>)
    ensures AlwaysGathers(Sizes(parts)) <==> Narrow(parts)
  {
    var sizes := Sizes(parts);
    if Narrow(parts) {
      forall parts', aligned, stores, out ensures GathersOnce(sizes, parts', aligned, stores, out) {
        if Sizes(parts') == sizes && Total(parts') <= |out| && Interleaving(sizes, aligned, stores) {
          NarrowSizes(parts, parts');
          KernelGathers(out, parts', aligned, stores);
        }
      }
    } else {
      var i :| 0 <= i < |parts| && parts[i] != []
               && !(|parts[i]| + THREADBLOCK_SIZE <= INT_LIMIT && Off(parts, i) < INT_LIMIT);
      SameOffsets(parts, OneByte(sizes, i, sizes[i] - 1), i);
      if sizes[i] >= INT_LIMIT || Off(parts, i) >= INT_LIMIT { WideFails(sizes, i); } else { LongFails(sizes, i); }
    }
  }

  // The third buffer starts at 2^31, so its bytes are stored before the output pointer.
  lemma {:induction false} FarOffset(parts: seq<seq<byte>>)
    requires Sizes(parts) == [0x4000_0000, 0x4000_0000, 1]
    ensures Off(parts, 2) == 0x8000_0000 && ToInt(Off(parts, 2)) == -0x8000_0000 && !AlwaysGathers(Sizes(parts))
  {
    assert |Sizes(parts)| == |parts| && Sizes(parts)[0] == 0x4000_0000 && Sizes(parts)[1] == 0x4000_0000;
    assert |parts[0]| == Sizes(parts)[0] && |parts[1]| == Sizes(parts)[1] && |parts[2]| == Sizes(parts)[2];
    assert Off(parts, 2) == Off(parts, 1) + |parts[1]| && Off(parts, 1) == Off(parts, 0) + |parts[0]|;
    KernelExact(parts);
  }

  // More than 2^31 bytes in all do no harm.
  lemma {:induction false} ThreeGibibytes(parts: seq<seq<byte>>)
    requires Sizes(parts) == [0x6000_0000, 0x6000_0000]
    ensures Total(parts) == 0xC000_0000 && AlwaysGathers(Sizes(parts))
  {
    hide AlwaysGathers, Off;
    assert |Sizes(parts)| == |parts| && |parts[0]| == Sizes(parts)[0] && |parts[1]| == Sizes(parts)[1];
    TwoOffsets(parts);
    assert Narrow(parts);
    KernelExact(parts);
  }

  lemma {:induction false} TwoOffsets(parts: seq<seq<byte>>)
    requires |parts| == 2
    ensures Off(parts, 0) == 0 && Off(parts, 1) == |parts[0]| && Off(parts, 2) == |parts[0]| + |parts[1]|
  {
    OffStep(parts, 0);
    OffStep(parts, 1);
  }
}
