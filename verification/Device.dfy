// The machine the copies run on: the blocks, the CUDA stream and its event.

module Devices {
  import opened Memory
  import opened Layout
  import opened Kernel

  // The responses of a batch: which are still to be sent, and whether the program has used one that was not.
  datatype Responses = Responses(live: seq<bool>, crashed: bool)

  class Device {
    const risky: set<nat>       // the requests that copies, tasks and allocations may be refused for
    const roomy: bool           // whether the pinned pool always has room
    const hostile: bool         // whether copies go wrong wherever they can
    var mem: Mem
    var stream: seq<Copy>       // issued, not landed
    var marked: nat             // how many of them the event covers
    var crashed: bool           // whether a response that is no longer there has been used

    constructor (risky: set<nat>, roomy: bool, hostile: bool, mem: Mem)
      ensures this.risky == risky && this.roomy == roomy && this.hostile == hostile
      ensures this.mem == mem && stream == [] && marked == 0 && !crashed
    {
      this.risky, this.roomy, this.hostile := risky, roomy, hostile;
      this.mem, stream, marked, crashed := mem, [], 0, false;
    }

    // Whether something done for these requests may be refused. Any of them may be the cause.
    predicate MayFail(owners: set<nat>) {
      risky != {} && (owners == {} || owners * risky != {})
    }

    // A response is used: its pointer is null, or its outputs are released, once it has been sent.
    method Use(there: bool)
      modifies `crashed
      ensures crashed == (old(crashed) || !there)
    {
      crashed := crashed || !there;
    }

    ghost predicate Valid()
      reads this
    {
      marked <= |stream| && forall c :: c in stream ==> Fits(mem, c)
    }

    // The memory once the stream has drained.
    ghost function Eventual(): (r: Mem)
      requires Valid()
      reads this
    {
      Apply(mem, stream)
    }

    // How many copies the stream lands next. A hostile one lands none before it is waited for.
    method Progress() returns (k: nat)
      ensures k <= |stream| && (hostile ==> k == 0)
    {
      k :| k <= |stream| && (hostile ==> k == 0) by { assert 0 <= |stream|; }
    }

    // The stream lands the first 'k' copies.
    method LandFirst(k: nat, ghost want: Want)
      requires Valid() && Sound(mem, stream, want) && k <= |stream|
      modifies this
      ensures Valid() && Sound(mem, stream, want) && Eventual() == old(Eventual())
      ensures stream == old(stream)[k..] && mem == Landed(old(mem), old(stream), k)
      ensures marked == Drop(old(marked), k)
      ensures Better(old(mem), mem, want) && crashed == old(crashed)
    {
      assert stream == stream[..k] + stream[k..];
      ApplyAppend(mem, stream[..k], stream[k..], want);
      ApplyBetter(mem, stream[..k], want);
      mem := Apply(mem, stream[..k]);
      stream := stream[k..];
      marked := if marked <= k then 0 else marked - k;
    }

    method StreamSynchronize(ghost want: Want)
      requires Valid() && Sound(mem, stream, want)
      modifies this
      ensures Valid() && stream == [] && marked == 0 && crashed == old(crashed)
      ensures mem == old(Eventual()) && Eventual() == mem && Sound(mem, stream, want)
    {
      assert stream[..|stream|] == stream;
      LandFirst(|stream|, want);
    }

    method EventRecord()
      requires Valid()
      modifies `marked
      ensures Valid() && marked == |stream|
    {
      marked := |stream|;
    }

    method EventSynchronize(ghost want: Want)
      requires Valid() && Sound(mem, stream, want)
      modifies this
      ensures Valid() && Sound(mem, stream, want) && Eventual() == old(Eventual())
      ensures stream == old(stream)[old(marked)..] && mem == Landed(old(mem), old(stream), old(marked)) && marked == 0
      ensures Better(old(mem), mem, want) && crashed == old(crashed)
    {
      LandFirst(marked, want);
    }

    // A pinned buffer. Ordinary memory is returned when the pinned pool has no room.
    method Allocate(size: nat) returns (blk: nat, actual: MemoryType)
      requires Valid()
      modifies `mem
      ensures blk == |old(mem)| && |mem| == blk + 1 && mem[..blk] == old(mem) && |mem[blk]| == size
      ensures actual == CpuPinned || (actual == Cpu && size > 0 && !roomy)
    {
      assert |seq(size, i => 0 as byte)| == size;
      var content: seq<byte> :| |content| == size;
      blk := |mem|;
      mem := mem + [content];
      actual := CpuPinned;
      var room: bool := *;
      if size > 0 && !roomy && !room { actual := Cpu; }
    }

    // A block is given back. Whoever gets it next may write to it at any time: its bytes are anything from now on,
    // and on a hostile machine all of them are others than before.
    method Release(blk: nat)
      requires Valid() && blk < |mem|
      modifies `mem
      ensures Valid() && |mem| == |old(mem)| && mem == old(mem)[blk := mem[blk]] && |mem[blk]| == |old(mem)[blk]|
      ensures hostile ==> Differs(old(mem)[blk], mem[blk])
    {
      var content: seq<byte> :| |content| == |mem[blk]| && (hostile ==> Differs(mem[blk], content))
        by { OthersDiffer(mem[blk]); }
      mem := mem[blk := content];
    }

    // The buffer for an output.
    method AllocateOutput(size: nat) returns (blk: nat)
      requires Valid()
      modifies `mem
      ensures blk == |old(mem)| && |mem| == blk + 1 && mem[..blk] == old(mem) && |mem[blk]| == size
    {
      var actual;
      blk, actual := Allocate(size);
    }

    // The gather kernel, launched on the stream: one thread block for each buffer. The launch may be refused; its
    // threads store in any order, and the alignment of the addresses is anything.
    method RunGatherKernel(dst: nat, base: nat, pointers: seq<seq<byte>>, sizes: seq<nat>, offsets: seq<nat>)
      returns (ok: bool, aligned: seq<bool>, stores: seq<Store>)
      requires Valid() && dst < |mem| && base + Total(pointers) <= |mem[dst]|
      requires |pointers| == |sizes| == |offsets|
      requires forall i :: 0 <= i < |sizes| ==> ToInt(sizes[i]) + THREADBLOCK_SIZE <= INT_LIMIT
      modifies `stream
      ensures Valid() && Interleaving(sizes, aligned, stores)
      ensures stream ==
        if ok then old(stream) + [Launched(mem, dst, base, pointers, offsets, stores)] else old(stream)
    {
      aligned :| |aligned| == |sizes| by { assert |seq(|sizes|, _ => false)| == |sizes|; }
      stores :| Interleaving(sizes, aligned, stores)
        by { assert Interleaving(sizes, aligned, AllStores(sizes, aligned, |sizes|)); }
      ok := *;
      if ok {
        stream := stream + [Launched(mem, dst, base, pointers, offsets, stores)];
      }
    }

    // cudaMemcpyAsync, cudaLaunchHostFunc or memcpy, for the sake of the requests 'owners'.
    method CopyBuffer(c: Copy, srcType: MemoryType, dstType: MemoryType, onStream: bool, owners: set<nat>)
      returns (ok: bool, cudaUsed: bool)
      requires Valid() && Fits(mem, c)
      modifies `mem, `stream
      ensures Valid()
      ensures cudaUsed == (ok && (srcType.Gpu? || dstType.Gpu? || onStream))
      ensures !ok ==> MayFail(owners) && (srcType.Gpu? || dstType.Gpu?)
      ensures hostile && MayFail(owners) && (srcType.Gpu? || dstType.Gpu?) ==> !ok
      ensures mem == (if ok && !cudaUsed then Do(old(mem), c) else old(mem))
      ensures stream == (if cudaUsed then old(stream) + [c] else old(stream))
    {
      ok, cudaUsed := true, false;
      if !srcType.Gpu? && !dstType.Gpu? {
        if onStream {
          stream := stream + [c];
          cudaUsed := true;
        } else {
          mem := Do(mem, c);
        }
        return;
      }
      ok := Accepted(owners);
      if hostile && MayFail(owners) { ok := false; }
      if ok {
        stream := stream + [c];
        cudaUsed := true;
      }
    }

    // Whether a call made for the requests 'owners' succeeds.
    method Accepted(owners: set<nat>) returns (ok: bool)
      ensures !ok ==> MayFail(owners)
    {
      var refused: bool := *;
      ok := !MayFail(owners) || !refused;
    }
  }

  // What a launch puts on the stream, to be written from 'base' of block 'dst' on. Bytes that no thread stores to
  // are as they are at the launch.
  function Launched(m: Mem, dst: nat, base: nat, pointers: seq<seq<byte>>, offsets: seq<nat>,
      stores: seq<Store>): (r: Copy)
    requires dst < |m| && base + Total(pointers) <= |m[dst]| && |pointers| == |offsets|
    ensures Fits(m, r)
  {
    Copy(dst, base, Bytes(Kernel.Run(m[dst][base..base + Total(pointers)], pointers, offsets, stores)))
  }

  predicate Differs(a: seq<byte>, b: seq<byte>) {
    |a| == |b| && forall p :: 0 <= p < |a| ==> a[p] != b[p]
  }

  function Others(data: seq<byte>): (r: seq<byte>)
    ensures |r| == |data| && forall p :: 0 <= p < |r| ==> r[p] == if data[p] == 0 then 1 else 0
  {
    seq(|data|, p requires 0 <= p < |data| => if data[p] == 0 then 1 as byte else 0)
  }

  lemma {:induction false} OthersDiffer(data: seq<byte>)
    ensures Differs(data, Others(data))
  {}

  function Drop(n: nat, k: nat): nat {
    if n <= k then 0 else n - k
  }

  function Landed(m: Mem, ops: seq<Copy>, k: nat): Mem
    requires k <= |ops| && forall c :: c in ops ==> Fits(m, c)
  {
    assert forall c :: c in ops[..k] ==> c in ops;
    Apply(m, ops[..k])
  }

  // A launch on narrow buffers lays them side by side, in whatever order its threads store.
  lemma {:induction false} LaunchedGathers(m: Mem, dst: nat, base: nat, pointers: seq<seq<byte>>, aligned: seq<bool>,
      stores: seq<Store>)
    requires dst < |m| && base + Total(pointers) <= |m[dst]| && Narrow(pointers)
    requires Interleaving(Sizes(pointers), aligned, stores)
    ensures Launched(m, dst, base, pointers, Offsets(pointers), stores) == Copy(dst, base, Bytes(Concat(pointers)))
  {
    hide Narrow, Interleaving, Kernel.Run;
    var window := m[dst][base..base + Total(pointers)];
    KernelGathers(window, pointers, aligned, stores);
    assert Splice(window, 0, Concat(pointers)) == Concat(pointers);
  }
}
