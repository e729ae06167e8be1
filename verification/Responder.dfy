// BackendResponder: hands every response its slice of each output tensor.

module Responders {
  import opened Memory
  import opened Devices
  import opened ScatterBooks
  import opened Handouts
  import opened Shapes

  // 'places' says where the client wants its outputs; others are left in the memory of the tensor.
  datatype Request = Request(batchSize: nat, requested: set<string>, inputShapes: map<string, seq<int>>,
      places: map<string, MemoryType>)

  const NO_BATCHING: nat := 0

  function PlaceOf(r: Request, name: string, preferred: MemoryType): MemoryType {
    if name in r.places then r.places[name] else preferred
  }

  // An output tensor, and how many bytes of it belong to each request.
  datatype Cut = Cut(name: string, tensor: nat, memType: MemoryType, sizes: seq<int>)

  function Owners(list: seq<Slot>): (r: set<nat>)
    ensures forall k :: k in r <==> exists x :: x in list && x.req == k
  {
    var r := set j | 0 <= j < |list| :: list[j].req;
    assert forall k, x | x in list && x.req == k :: k in r by {
      forall k, x | x in list && x.req == k ensures k in r {
        var j :| 0 <= j < |list| && list[j] == x;
      }
    }
    r
  }

  class BackendResponder {
    const dev: Device
    const requests: seq<Request>
    const live: array<bool>             // which responses have not been sent yet
    const maxBatchSize: nat
    const pinnedEnabled: bool
    const useEvent: bool
    const copyOnStream: bool

    var needSync: bool
    var pendingPinnedSize: nat
    var pendingPinnedOffset: nat
    var pendingPinnedOutputs: seq<Slot>
    var deferredPinned: seq<Deferred>
    var pinnedMemories: seq<nat>        // pinned buffers to hold on to
    var outputs: seq<Slot>              // of all the responses

    ghost var want: Want
    ghost var book: Book
    ghost var uses: seq<nat>            // how often each response has been given an output, or been refused one

    // The machine is idle and the output tensors are there.
    constructor (dev: Device, requests: seq<Request>, live: array<bool>, maxBatchSize: nat, pinnedEnabled: bool,
                 useEvent: bool, copyOnStream: bool)
      requires live.Length == |requests| && dev.Valid() && dev.stream == [] && !dev.crashed
      ensures Ready() && book.before == dev.mem && outputs == [] && uses == seq(|requests|, _ => 0)
      ensures this.dev == dev && this.requests == requests && this.live == live && this.maxBatchSize == maxBatchSize
      ensures this.pinnedEnabled == pinnedEnabled && this.useEvent == useEvent && this.copyOnStream == copyOnStream
    {
      this.dev, this.requests, this.live, this.maxBatchSize := dev, requests, live, maxBatchSize;
      this.pinnedEnabled, this.useEvent, this.copyOnStream := pinnedEnabled, useEvent, copyOnStream;
      needSync := false;
      pendingPinnedSize, pendingPinnedOffset, pendingPinnedOutputs := 0, 0, [];
      deferredPinned, pinnedMemories, outputs := [], [], [];
      uses := seq(|requests|, _ => 0);
      want := seq(|dev.mem|, b requires 0 <= b < |dev.mem| reads dev => Sure(dev.mem[b]));
      book := Book(dev.mem, {}, [], [], Run(0, 0, []), [], map[]);
    }

    ghost function Now(): View
      reads this, dev, live
    {
      View(dev.mem, dev.stream, want, live[..], book)
    }

    ghost predicate FieldsOk()
      reads this`pendingPinnedSize, this`pendingPinnedOffset, this`pendingPinnedOutputs, this`deferredPinned
      reads this`outputs, this`book, this`pinnedMemories
    {
      && outputs == book.slots && deferredPinned == book.deferred
      && (forall j :: 0 <= j < |pinnedMemories| ==> pinnedMemories[j] in book.pins)
      && pendingPinnedOutputs == book.pending.list && pendingPinnedSize == Size(pendingPinnedOutputs)
      && pendingPinnedOffset == book.pending.base && (pendingPinnedOutputs == [] ==> pendingPinnedOffset == 0)
    }

    ghost predicate Orderly()
      reads this, dev, live
    {
      && dev.Valid() && live.Length == |requests|
      && Balanced(Now()) && SameShape(dev.mem, want)
      && FieldsOk() && |uses| == |requests|
    }

    // No pinned buffer has been released while copies out of it were in flight.
    ghost predicate Valid()
      reads this, dev, live
    {
      Orderly() && book.spoilt == map[]
    }

    ghost function Kind(): Setup {
      Setup(dev.risky, dev.roomy, dev.hostile, pinnedEnabled, copyOnStream)
    }

    ghost predicate Tracking()
      reads this`book, this`uses, live, dev
    {
      Tracked(book, uses, Seen(), Kind())
    }

    ghost function Seen(): Responses
      reads dev, live
    {
      Responses(live[..], dev.crashed)
    }

    // Copies in flight and slices still to be handed out are known of.
    ghost predicate KnownBy(flag: bool)
      reads this`deferredPinned, dev`stream
    {
      (dev.stream != [] ==> flag) && (deferredPinned != [] ==> flag)
    }

    // Between two calls.
    ghost predicate Ready()
      reads this, dev, live
    {
      && Valid() && KnownBy(needSync) && book.hand == [] && pendingPinnedOutputs == []
      && (useEvent ==> dev.marked == |dev.stream|) && Tracking()
    }

    // -------------------------------------------------------------------------
    // The machine moves

    method Land()
      requires Valid()
      modifies dev
      ensures Valid() && Eventual(Now()) == old(Eventual(Now())) && Better(old(dev.mem), dev.mem, want)
      ensures forall c :: c in dev.stream ==> c in old(dev.stream)
      ensures dev.crashed == old(dev.crashed) && (dev.hostile ==> dev.stream == old(dev.stream))
    {
      hide Balanced, Sound, Better, Eventual, Apply, SameShape, Fits;
      ghost var v := Now();
      BalancedFacts(v);
      var k := dev.Progress();
      dev.LandFirst(k, want);
      LandKeeps(v, k);
      assert Now() == v.(mem := dev.mem, stream := dev.stream);
      BalancedFacts(Now());
    }

    // The response of an output is sent: nothing is promised to its buffer any more, and the pointer is null.
    method Fail(s: Slot)
      requires Valid() && s in outputs
      modifies live, dev`crashed, this`want
      ensures Valid() && Has(Eventual(Now()), want, s) && Eventual(Now()) == old(Eventual(Now()))
      ensures Weaker(old(want), want) && |want| == |old(want)|
      ensures forall b :: 0 <= b < |want| && want[b] != old(want)[b] ==> b == s.block
      ensures s.req < live.Length && live[..] == old(live[..])[s.req := false]
      ensures dev.crashed == (old(dev.crashed) || !old(live[s.req]))
    {
      hide Balanced, Holds, Eventual, SameShape, SlotOk, Weaker, Size;
      ghost var v := Now();
      SlotInRange(v, s);
      Send(s.req);
      ForgetSlot(Now(), s);
      want := want[s.block := Nothing(s.size)];
      BalancedFacts(Now());
    }

    method Send(req: nat)
      requires Valid() && req < live.Length
      modifies live, dev`crashed
      ensures Valid() && Eventual(Now()) == old(Eventual(Now()))
      ensures live[..] == old(live[..])[req := false] && dev.crashed == (old(dev.crashed) || !old(live[req]))
    {
      hide Balanced, Eventual;
      ghost var v := Now();
      dev.Use(live[req]);
      live[req] := false;
      KillKeeps(v, live[..]);
    }

    // CopyBuffer, into the buffer of output 's'. If it fails the response is sent.
    method Issue(s: Slot, c: Copy, srcType: MemoryType) returns (ok: bool, cudaUsed: bool)
      requires Valid() && s in outputs && c.dst == s.block && c.off == 0 && c.src.Len() == s.size
      requires Fits(dev.mem, c) && Aligned(want, c) && Routed(book, c)
      requires Fed(dev.mem, want, c) && Fed(Eventual(Now()), want, c)
      modifies dev, live, this`want
      ensures Valid() && Has(Eventual(Now()), want, s)
      ensures Better(old(Eventual(Now())), Eventual(Now()), old(want)) && Better(old(dev.mem), dev.mem, old(want))
      ensures Gave(s, ok)
      ensures !ok ==> s.req in dev.risky && (srcType.Gpu? || s.memType.Gpu?)
      ensures dev.hostile && s.req in dev.risky && (srcType.Gpu? || s.memType.Gpu?) ==> !ok
      ensures cudaUsed == (ok && (srcType.Gpu? || s.memType.Gpu? || copyOnStream))
      ensures dev.stream == if cudaUsed then old(dev.stream) + [c] else old(dev.stream)
    {
      hide Balanced, Aligned, Better, Holds, Eventual, Fed, Routed, SameShape, SlotOk, Weaker, Size, Fits, Sound;
      ghost var v := Now();
      BalancedFacts(v);
      SlotFacts(v, s);
      SlotInRange(v, s);
      BetterRefl(dev.mem, want);
      BetterRefl(Eventual(v), want);
      WeakerRefl(want);
      ok, cudaUsed := dev.CopyBuffer(c, srcType, s.memType, copyOnStream, {s.req});
      if ok {
        CopyKeeps(v, c, cudaUsed);
        assert Now() == if cudaUsed then v.(stream := v.stream + [c]) else v.(mem := Do(v.mem, c));
        BalancedFacts(Now());
      } else {
        assert Now() == v;
        Fail(s);
      }
    }

    lemma {:induction false} SlotInRange(v: View, s: Slot)
      requires Balanced(v) && s in v.book.slots
      ensures s.req < |v.live| && s.block < |v.want| && s.block !in v.book.pins
    {
      SlotFacts(v, s);
    }

    // The output has been seen to; its response has been sent, if the copy failed.
    twostate predicate Gave(s: Slot, ok: bool)
      reads this, live, dev
    {
      && |want| == |old(want)| && Weaker(old(want), want)
      && (forall b :: 0 <= b < |want| && want[b] != old(want)[b] ==> b == s.block)
      && s.req < live.Length
      && live[..] == (if ok then old(live[..]) else old(live[..])[s.req := false])
      && dev.crashed == (old(dev.crashed) || (!ok && !old(live[s.req])))
    }

    // -------------------------------------------------------------------------
    // One output

    // The output would extend the pending run, or start one.
    ghost predicate Queueable(t: nat, off: nat)
      reads this`book, this`pendingPinnedSize, this`pendingPinnedOffset, this`pendingPinnedOutputs
    {
      && (pendingPinnedSize > 0 ==> pendingPinnedOffset + pendingPinnedSize == off)
      && (pendingPinnedOutputs != [] ==> book.pending.tensor == t)
    }

    // A buffer for the output is allocated; it is in hand, neither filled nor queued.
    method Take(idx: nat, name: string, size: nat, off: nat, t: nat, tensorType: MemoryType) returns (s: Slot)
      requires Valid() && book.hand == [] && idx < |requests|
      requires t < |book.before| && off + size <= |book.before[t]|
      modifies dev`mem, this`want, this`book, this`outputs
      ensures Valid() && s.(block := 0) ==
        Slot(idx, name, t, tensorType, off, size, 0, PlaceOf(requests[idx], name, tensorType))
      ensures outputs == old(outputs) + [s] && book == old(book).(slots := outputs, hand := [s])
      ensures forall x :: x in old(outputs) ==> x.block < s.block
    {
      hide Balanced, Sound, SlotOk, Eventual, SameShape, Size;
      ghost var v := Now();
      BalancedFacts(v);
      var blk := dev.AllocateOutput(size);
      s := Slot(idx, name, t, tensorType, off, size, blk, PlaceOf(requests[idx], name, tensorType));
      forall x | x in outputs ensures x.block < s.block { SlotInRange(v, x); }
      TakeKeeps(v, dev.mem[blk], s);
      outputs := outputs + [s];
      want := want + [Sure(book.before[t][off..off + size])];
      book := book.(slots := book.slots + [s], hand := book.hand + [s]);
      assert dev.mem == v.mem + [dev.mem[blk]];
      BalancedFacts(Now());
    }

    method Queue(s: Slot)
      requires Valid() && book.hand == [s] && s in outputs && Queueable(s.tensor, s.off)
      requires s.tensor < |book.before| && s.off + s.size <= |book.before[s.tensor]|
      modifies this`book, this`pendingPinnedSize, this`pendingPinnedOffset, this`pendingPinnedOutputs
      ensures Valid() && book == old(book).(hand := [], pending := book.pending)
      ensures book.pending.tensor == s.tensor && Queueable(s.tensor, s.off + s.size)
      ensures pendingPinnedOutputs == old(pendingPinnedOutputs) + [s]
    {
      hide Balanced, Size, Eventual;
      ghost var run := QueueKeeps(Now(), s);
      if pendingPinnedSize == 0 {
        pendingPinnedOffset := s.off;
      }
      pendingPinnedSize := pendingPinnedSize + s.size;
      pendingPinnedOutputs := pendingPinnedOutputs + [s];
      book := book.(hand := [], pending := run);
    }

    ghost method Give(s: Slot)
      requires Valid() && book.hand == [s] && Has(Eventual(Now()), want, s)
      modifies this`book
      ensures Valid() && book == old(book).(hand := [])
    {
      hide Balanced, Size, Eventual, Has;
      GiveKeeps(Now(), s);
      book := book.(hand := []);
    }

    // Gives the response of request 'idx' a buffer for the output, and copies its slice of the tensor there,
    // or puts it on the pending run. The allocation may fail.
    method SetFixedSizeOutputBuffer(idx: nat, name: string, size: nat, off: nat, t: nat, tensorType: MemoryType,
                                    usePinned: MemoryType)
      returns (cudaCopy: bool)
      requires Valid() && Tracking() && book.hand == [] && idx < live.Length && live[idx]
      requires t < |book.before| && off + size <= |book.before[t]| && Queueable(t, off) && book.pending.tensor == t
      requires usePinned == Kind().UsePinned(tensorType)
      requires Queued(pendingPinnedOutputs, tensorType, idx, live[..], Kind())
      modifies dev, live, this`want, this`book, this`outputs, this`uses
      modifies this`pendingPinnedSize, this`pendingPinnedOffset, this`pendingPinnedOutputs
      ensures Valid() && Tracking() && book.hand == [] && book.before == old(book.before) && book.pending.tensor == t
      ensures Queued(pendingPinnedOutputs, tensorType, idx + 1, live[..], Kind()) && uses == Used(old(uses), idx)
      ensures |old(outputs)| <= |outputs| <= |old(outputs)| + 1 && outputs[..|old(outputs)|] == old(outputs)
      ensures forall s :: s in outputs[|old(outputs)|..] ==>
        s.(block := 0) == Slot(idx, name, t, tensorType, off, size, 0, PlaceOf(requests[idx], name, tensorType))
      ensures live[..] == old(live[..]) || (idx in dev.risky && live[..] == old(live[..])[idx := false])
      ensures dev.crashed == old(dev.crashed)
      ensures live[idx] ==> |outputs| == |old(outputs)| + 1
      ensures pendingPinnedOutputs == old(pendingPinnedOutputs) || Queueable(t, off + size)
      ensures pendingPinnedOutputs == old(pendingPinnedOutputs) ==>
        pendingPinnedSize == old(pendingPinnedSize) && pendingPinnedOffset == old(pendingPinnedOffset)
        && book.pending == old(book.pending)
      ensures deferredPinned == old(deferredPinned)
      ensures dev.stream != [] ==> cudaCopy || old(dev.stream) != []
    {
      hide Balanced, Size, Eventual, SameShape, SlotOk, Tracked, Setup.Staged, Setup.UsePinned, Used, Queued;
      cudaCopy := false;
      ghost var b, r := book, Seen();
      PendingAre();
      ghost var s := Slot(idx, name, t, tensorType, off, size, 0, tensorType);
      var got := dev.Accepted({idx});
      if got {
        s, cudaCopy := Provide(idx, name, size, off, t, tensorType, usePinned);
        TrackedTaken(b, book, uses, r, Seen(), Kind(), s);
      } else {
        Send(idx);
        TrackedRefused(book, uses, r, Seen(), Kind(), idx);
      }
      QueuedNext(b.pending.list, tensorType, idx, r.live, live[..], Kind(), s);
      uses := Used(uses, idx);
    }

    // The response is given a buffer, and its slice is copied there or queued.
    method Provide(idx: nat, name: string, size: nat, off: nat, t: nat, tensorType: MemoryType, usePinned: MemoryType)
      returns (ghost s: Slot, cudaCopy: bool)
      requires Valid() && book.hand == [] && idx < live.Length && live[idx]
      requires t < |book.before| && off + size <= |book.before[t]| && Queueable(t, off) && book.pending.tensor == t
      requires usePinned == Kind().UsePinned(tensorType)
      modifies dev, live, this`want, this`book, this`outputs
      modifies this`pendingPinnedSize, this`pendingPinnedOffset, this`pendingPinnedOutputs
      ensures Valid() && outputs == old(outputs) + [s] && forall x :: x in old(outputs) ==> x.block < s.block
      ensures s.(block := 0) ==
        Slot(idx, name, t, tensorType, off, size, 0, PlaceOf(requests[idx], name, tensorType))
      ensures book == old(book).(slots := outputs, pending := book.pending) && book.pending.tensor == t
      ensures live[..] == old(live[..]) || (idx in dev.risky && live[..] == old(live[..])[idx := false])
      ensures dev.crashed == old(dev.crashed) && (dev.stream != [] ==> cudaCopy || old(dev.stream) != [])
      ensures if Kind().Staged(s)
              then pendingPinnedOutputs == old(pendingPinnedOutputs) + [s] && Queueable(t, off + size)
                   && live[..] == old(live[..])
              else book.pending == old(book.pending) && pendingPinnedSize == old(pendingPinnedSize)
                   && pendingPinnedOffset == old(pendingPinnedOffset)
    {
      hide Balanced, Size, Eventual, SameShape, SlotOk, Setup.Staged, Setup.UsePinned;
      cudaCopy := false;
      var x := Take(idx, name, size, off, t, tensorType);
      StagedIs(x);
      assert x in outputs by { assert outputs[|outputs| - 1] == x; }
      if usePinned != CpuPinned && x.memType == usePinned {
        Queue(x);
      } else {
        cudaCopy := Fill(x, tensorType);
      }
      s := x;
    }

    // The output in hand gets its slice straight out of the tensor.
    method Fill(s: Slot, tensorType: MemoryType) returns (cudaCopy: bool)
      requires Valid() && book.hand == [s] && s in outputs && s.req < live.Length && live[s.req]
      requires s.tensor < |book.before| && s.off + s.size <= |book.before[s.tensor]|
      modifies dev, live, this`want, this`book
      ensures Valid() && book == old(book).(hand := [])
      ensures live[..] == old(live[..]) || (s.req in dev.risky && live[..] == old(live[..])[s.req := false])
      ensures dev.crashed == old(dev.crashed)
      ensures dev.stream != [] ==> cudaCopy || old(dev.stream) != []
    {
      hide Balanced, Size, Eventual, Has, Sound, Better, SameShape, Weaker, SlotOk, Aligned, Fed, Routed, Fits;
      Land();
      SlotCopy(Now(), s, s.off);
      var ok;
      ok, cudaCopy := Issue(s, Copy(s.block, 0, Slice(s.tensor, s.off, s.size)), tensorType);
      Give(s);
      assert dev.stream != [] ==> dev.stream[0] in dev.stream;
    }

    lemma {:induction false} StagedIs(s: Slot)
      ensures Kind().Staged(s) <==>
        Kind().UsePinned(s.from) != CpuPinned && s.memType == Kind().UsePinned(s.from)
    {}

    lemma {:induction false} PendingAre()
      requires Orderly()
      ensures forall x :: x in pendingPinnedOutputs ==> x in outputs
    {
      hide Eventual, Sound;
      forall x | x in pendingPinnedOutputs ensures x in outputs {
        var j :| 0 <= j < |pendingPinnedOutputs| && pendingPinnedOutputs[j] == x;
        assert RunOk(book, book.pending);
        assert EntryOk(book, book.pending, j);
      }
    }

    // -------------------------------------------------------------------------
    // The pending pinned run

    method AllocatePinned(t: nat) returns (pin: nat, actual: MemoryType)
      requires Valid() && t < |book.before| && t == book.pending.tensor
      modifies dev`mem, this`want, this`book
      ensures Valid() && book == old(book).(pins := book.pins) && book.pins == old(book.pins) + {pin}
      ensures Staging(book, want, pin, book.pending)
      ensures pendingPinnedOffset + pendingPinnedSize <= |book.before[t]|
      ensures actual == CpuPinned || (actual == Cpu && pendingPinnedSize > 0 && !dev.roomy)
      ensures forall p :: p in old(book.pins) ==> p < pin
      ensures forall c :: c in dev.stream ==> c.dst != pin && (c.src.Slice? ==> c.src.blk != pin)
    {
      hide Balanced, Sound, SlotOk, Eventual, SameShape, Size, RunOk, Staging;
      ghost var v := Now();
      BalancedFacts(v);
      PendingBase();
      PinsBelow();
      pin, actual := dev.Allocate(pendingPinnedSize);
      PinKeeps(v, dev.mem[pin]);
      StreamBelow(v);
      ghost var run := book.pending;
      want := want + [Sure(book.before[run.tensor][run.base..run.base + Size(run.list)])];
      book := book.(pins := book.pins + {pin});
      assert dev.mem == v.mem + [dev.mem[pin]];
      BalancedFacts(Now());
    }

    lemma {:induction false} StreamBelow(v: View)
      requires Balanced(v)
      ensures forall c :: c in v.stream && c.src.Slice? ==> c.src.blk < |v.mem|
    {
      hide Balanced;
      BalancedFacts(v);
    }

    lemma {:induction false} PinsBelow()
      requires Orderly()
      ensures forall p :: p in book.pins ==> p < |dev.mem|
    {}

    lemma {:induction false} PendingBase()
      requires Valid() && book.pending.tensor < |book.before|
      ensures pendingPinnedOffset <= |book.before[book.pending.tensor]|
    {}

    // Without a pinned buffer: each slice straight out of the tensor.
    method FlushDirect(t: nat, tensorType: MemoryType, ghost n: nat) returns (cudaCopy: bool)
      requires Valid() && t < |book.before| && t == book.pending.tensor
      requires Queued(pendingPinnedOutputs, tensorType, n, live[..], Kind())
      modifies dev, live, this`want
      ensures Valid() && AllHave(Eventual(Now()), want, pendingPinnedOutputs, |pendingPinnedOutputs|)
      ensures dev.crashed == old(dev.crashed) && forall k :: 0 <= k < live.Length && live[k] ==> old(live[k])
      ensures forall k :: 0 <= k < live.Length && old(live[k]) && !live[k] ==>
        k in dev.risky && exists x :: x in pendingPinnedOutputs && x.req == k
      ensures !cudaCopy ==> forall c :: c in dev.stream ==> c in old(dev.stream)
    {
      hide Balanced, Size, Eventual, Has, Sound, Better, SameShape, Weaker, SlotOk, Aligned, Fed, Routed, Fits, RunOk,
           Span, Setup.Staged;
      cudaCopy := false;
      var offset := 0;
      SpanZero(pendingPinnedOutputs);
      PendingBase();
      PendingFacts(Now());
      for i := 0 to |pendingPinnedOutputs|
        invariant Valid() && offset == Span(pendingPinnedOutputs, i)
        invariant AllHave(Eventual(Now()), want, pendingPinnedOutputs, i)
        invariant dev.crashed == old(dev.crashed) && forall k :: 0 <= k < live.Length && live[k] ==> old(live[k])
        invariant forall k :: 0 <= k < live.Length && old(live[k]) && !live[k] ==>
          k in dev.risky && exists x :: x in pendingPinnedOutputs && x.req == k
        invariant forall j :: i <= j < |pendingPinnedOutputs| ==> live[pendingPinnedOutputs[j].req]
        invariant !cudaCopy ==> forall c :: c in dev.stream ==> c in old(dev.stream)
      {
        var s := pendingPinnedOutputs[i];
        EntryFacts(book, book.pending, i);
        ghost var e, w := Eventual(Now()), want;
        var used := CopyDirect(s, t, pendingPinnedOffset + offset, tensorType);
        AllHaveStays(e, Eventual(Now()), w, want, pendingPinnedOutputs, i);
        cudaCopy := cudaCopy || used;
        offset := offset + s.size;
      }
    }

    // The slice of a pending output, straight out of the tensor.
    method CopyDirect(s: Slot, t: nat, from: nat, tensorType: MemoryType) returns (cudaUsed: bool)
      requires Valid() && s in outputs && t == s.tensor < |book.before|
      requires if s.size > 0 then from == s.off else from <= |book.before[s.tensor]|
      requires s.req < live.Length && live[s.req]
      modifies dev, live, this`want
      ensures Valid() && Has(Eventual(Now()), want, s) && Weaker(old(want), want) && |want| == |old(want)|
      ensures Better(old(Eventual(Now())), Eventual(Now()), want)
      ensures live[..] == old(live[..]) || (s.req in dev.risky && live[..] == old(live[..])[s.req := false])
      ensures dev.crashed == old(dev.crashed)
      ensures !cudaUsed ==> forall c :: c in dev.stream ==> c in old(dev.stream)
    {
      hide Balanced, Size, Eventual, Has, Sound, Better, SameShape, Weaker, SlotOk, Aligned, Fed, Routed, Fits;
      Touch(s);
      Land();
      SlotCopy(Now(), s, from);
      ghost var e, w := Eventual(Now()), want;
      var ok;
      ok, cudaUsed := Issue(s, Copy(s.block, 0, Slice(t, from, s.size)), tensorType);
      BetterWeaker(e, Eventual(Now()), w, want);
    }

    // The output of a response is read.
    method Touch(s: Slot)
      requires Valid() && s in outputs
      modifies dev`crashed
      ensures Valid() && s.req < live.Length && dev.crashed == (old(dev.crashed) || !live[s.req])
    {
      hide Balanced, Eventual, SlotOk, Size;
      SlotInRange(Now(), s);
      dev.Use(live[s.req]);
    }

    // Copies went on: memory only got better, and fewer bytes are promised, but none fewer of the pinned buffers.
    twostate predicate WentOn()
      reads this, dev, live
    {
      && Better(old(dev.mem), dev.mem, want) && Better(old(Eventual(Now())), Eventual(Now()), want)
      && Weaker(old(want), want) && |want| == |old(want)|
      && (forall p :: p in old(book).pins && p < |want| ==> want[p] == old(want)[p])
    }

    lemma {:induction false} Reflexive()
      requires Orderly()
      ensures Better(Eventual(Now()), Eventual(Now()), want) && Better(dev.mem, dev.mem, want) && Weaker(want, want)
    {
      BalancedFacts(Now());
      BetterRefl(dev.mem, want);
      BetterRefl(Eventual(Now()), want);
    }

    // One slice out of a pinned buffer.
    method HandOutOne(d: Deferred, i: nat, offset: nat) returns (cudaUsed: bool)
      requires Valid() && Staging(book, want, d.pin, d.run) && i < |d.run.list| && offset == Span(d.run.list, i)
      requires Holds(dev.mem, want, d.pin, 0, Size(d.run.list))
      requires Holds(Eventual(Now()), want, d.pin, 0, Size(d.run.list))
      modifies dev, live, this`want
      ensures Valid() && WentOn() && Has(Eventual(Now()), want, d.run.list[i])
      ensures Given(old(Seen()), Seen(), [d.run.list[i]], Kind())
      ensures Span(d.run.list, i + 1) == offset + d.run.list[i].size
      ensures !cudaUsed ==> forall c :: c in dev.stream ==> c in old(dev.stream)
      ensures forall c :: c in dev.stream ==>
        c in old(dev.stream) || (c == HandCopy(d, i) && Kind().Async(d.run.list[i]))
      ensures dev.hostile ==> forall c :: c in old(dev.stream) ==> c in dev.stream
      ensures dev.hostile && Kind().Async(d.run.list[i]) && !Kind().Refusable(d.run.list[i]) ==>
        HandCopy(d, i) in dev.stream
    {
      hide Balanced, Size, Eventual, Has, Sound, Better, SameShape, Weaker, SlotOk, Aligned, Fed, Routed, Fits, RunOk,
           Span, Holds, Given;
      var s := d.run.list[i];
      ghost var m, w, seen := dev.mem, want, Seen();
      EntryFacts(book, d.run, i);
      Touch(s);
      Land();
      Reflexive();
      BalancedFacts(Now());
      BetterHolds(m, dev.mem, want, d.pin, 0, Size(d.run.list));
      HandOut(Now(), d.pin, d.run, i, dev.mem);
      HandOut(Now(), d.pin, d.run, i, Eventual(Now()));
      SlotInRange(Now(), s);
      ghost var m1, e1 := dev.mem, Eventual(Now());
      var ok;
      ok, cudaUsed := Issue(s, Copy(s.block, 0, Slice(d.pin, offset, s.size)), CpuPinned);
      GivenOne(seen, Seen(), s, Kind());
      BetterWeaker(m, m1, w, want);
      BetterWeaker(m1, dev.mem, w, want);
      BetterWeaker(e1, Eventual(Now()), w, want);
      BetterTrans(m, m1, dev.mem, want);
    }

    // Out of a pinned buffer that has its bytes: to each response its slice.
    method HandOutAll(d: Deferred) returns (cudaCopy: bool)
      requires Valid() && Staging(book, want, d.pin, d.run)
      requires Holds(dev.mem, want, d.pin, 0, Size(d.run.list))
      requires Holds(Eventual(Now()), want, d.pin, 0, Size(d.run.list))
      modifies dev, live, this`want
      ensures Valid() && WentOn() && AllHave(Eventual(Now()), want, d.run.list, |d.run.list|)
      ensures Given(old(Seen()), Seen(), d.run.list, Kind())
      ensures PutOn(d, |d.run.list|, old(dev.stream), dev.stream, Kind())
      ensures !cudaCopy ==> forall c :: c in dev.stream ==> c in old(dev.stream)
    {
      hide Balanced, Size, Eventual, Has, Sound, Better, SameShape, Weaker, SlotOk, RunOk, Span, Staging, Holds, Given,
           PutOn, Setup.Async, Setup.Refusable;
      cudaCopy := false;
      var offset := 0;
      ghost var list := d.run.list;
      SpanZero(list);
      Reflexive();
      StagingFacts(book, want, d.pin, d.run);
      GivenNothing(Seen(), Kind());
      PutOnNone(d, dev.stream, Kind());
      for i := 0 to |d.run.list|
        invariant Valid() && WentOn() && offset == Span(list, i)
        invariant AllHave(Eventual(Now()), want, list, i)
        invariant Given(old(Seen()), Seen(), list[..i], Kind())
        invariant PutOn(d, i, old(dev.stream), dev.stream, Kind())
        invariant !cudaCopy ==> forall c :: c in dev.stream ==> c in old(dev.stream)
      {
        ghost var m, e, w, seen, stream := dev.mem, Eventual(Now()), want, Seen(), dev.stream;
        PinStays(old(dev.mem), m, old(want), want, d.pin, d.run);
        PinStays(old(Eventual(Now())), e, old(want), want, d.pin, d.run);
        var used := HandOutOne(d, i, offset);
        AllHaveStays(e, Eventual(Now()), w, want, list, i);
        BetterWeaker(old(dev.mem), m, w, want);
        BetterTrans(old(dev.mem), m, dev.mem, want);
        BetterWeaker(old(Eventual(Now())), e, w, want);
        BetterTrans(old(Eventual(Now())), e, Eventual(Now()), want);
        WeakerTrans(old(want), w, want);
        GivenJoin(old(Seen()), seen, Seen(), list[..i], [list[i]], Kind());
        assert list[..i] + [list[i]] == list[..i + 1];
        PutOnNext(d, i, old(dev.stream), stream, dev.stream, Kind());
        cudaCopy := cudaCopy || used;
        offset := offset + d.run.list[i].size;
      }
      assert list[..|list|] == list;
    }

    lemma {:induction false} PinStays(m: Mem, m': Mem, w: Want, w': Want, pin: nat, run: Run)
      requires Staging(book, w, pin, run) && pin < |w'| && w'[pin] == w[pin] && Better(m, m', w')
      requires Holds(m, w, pin, 0, Size(run.list))
      ensures Staging(book, w', pin, run) && Holds(m', w', pin, 0, Size(run.list))
    {
      hide Size, RunOk;
      forall p | 0 <= p < Size(run.list) && p < |m'[pin]| && p < |w'[pin]| ensures Okay(w'[pin][p], m'[pin][p]) {
        assert Okay(w[pin][p], m[pin][p]);
      }
    }

    // The slices of a run in one piece, from the tensor to a pinned buffer.
    method CopyBlock(pin: nat, run: Run, tensorType: MemoryType) returns (ok: bool, cudaUsed: bool)
      requires Valid() && Staging(book, want, pin, run)
      modifies dev
      ensures Valid() && dev.crashed == old(dev.crashed)
      ensures ok ==> Holds(Eventual(Now()), want, pin, 0, Size(run.list))
      ensures ok && !cudaUsed ==> Holds(dev.mem, want, pin, 0, Size(run.list))
      ensures !cudaUsed ==> forall c :: c in dev.stream ==> c in old(dev.stream)
      ensures cudaUsed == (ok && (tensorType.Gpu? || copyOnStream))
      ensures !ok ==> tensorType.Gpu? && dev.MayFail(Owners(run.list))
      ensures dev.hostile && tensorType.Gpu? && dev.MayFail(Owners(run.list)) ==> !ok
    {
      hide Balanced, Size, Eventual, Has, Sound, Better, SameShape, Weaker, RunOk, Span, Staging, Holds, Fits,
           Aligned, Routed, Fed, Owners;
      Land();
      ghost var v := Now();
      PinCopy(v, pin, run);
      BalancedFacts(v);
      var c := Copy(pin, 0, Slice(run.tensor, run.base, Size(run.list)));
      ok, cudaUsed := dev.CopyBuffer(c, tensorType, CpuPinned, copyOnStream, Owners(run.list));
      if !ok {
        assert Now() == v;
        return;
      }
      CopyKeeps(v, c, cudaUsed);
      assert Now() == if cudaUsed then v.(stream := v.stream + [c]) else v.(mem := Do(v.mem, c));
      BalancedFacts(Now());
      if !cudaUsed { DoFed(v.mem, c, want); }
    }

    // The block copy has been refused, so every response of the run is sent. No copy is in flight, and the outputs
    // of these responses are read next.
    method FailAll(run: Run)
      requires Valid() && RunOk(book, run)
      modifies live, dev`crashed, this`want
      ensures Valid() && AllHave(Eventual(Now()), want, run.list, |run.list|)
      ensures forall k :: 0 <= k < live.Length && live[k] ==> old(live[k])
      ensures old(dev.crashed) ==> dev.crashed
      ensures if run.list == [] then Seen() == old(Seen()) else dev.crashed
    {
      hide Balanced, Size, Eventual, Has, Sound, Better, SameShape, Weaker, SlotOk, RunOk, Span, Holds;
      Reflexive();
      for i := 0 to |run.list|
        invariant Valid() && AllHave(Eventual(Now()), want, run.list, i) && Eventual(Now()) == old(Eventual(Now()))
        invariant |want| == |old(want)| && Weaker(old(want), want)
        invariant forall k :: 0 <= k < live.Length && live[k] ==> old(live[k])
        invariant i == 0 ==> live[..] == old(live[..]) && dev.crashed == old(dev.crashed)
        invariant i > 0 ==> run.list[0].req < live.Length && !live[run.list[0].req]
        invariant old(dev.crashed) ==> dev.crashed
      {
        ghost var w := want;
        EntryFacts(book, run, i);
        Fail(run.list[i]);
        Reflexive();
        WeakerTrans(old(want), w, want);
        AllHaveStays(Eventual(Now()), Eventual(Now()), w, want, run.list, i);
      }
      if run.list != [] {
        EntryFacts(book, run, 0);
        Touch(run.list[0]);
      }
    }

    // The pending run through a pinned buffer: in one piece from the tensor, then handed out at once,
    // or in Finalize if the first copy is in flight.
    method FlushPinned(pin: nat, t: nat, tensorType: MemoryType, ghost n: nat) returns (cudaCopy: bool)
      requires Valid() && Tracking() && t == book.pending.tensor && Staging(book, want, pin, book.pending)
      requires book.hand == [] && Queued(pendingPinnedOutputs, tensorType, n, live[..], Kind())
      requires forall i :: 0 <= i < |book.deferred| ==> book.deferred[i].pin < pin
      modifies dev, live, this`want, this`book, this`deferredPinned, this`pinnedMemories
      modifies this`pendingPinnedSize, this`pendingPinnedOffset, this`pendingPinnedOutputs
      ensures Valid() && Tracking() && pendingPinnedOutputs == [] && pendingPinnedSize == 0
      ensures book == old(book).(pending := Run(t, 0, []), deferred := deferredPinned)
      ensures Spared(old(Seen()), Seen(), dev.risky)
      ensures !cudaCopy ==> deferredPinned == old(deferredPinned)
      ensures !cudaCopy ==> forall c :: c in dev.stream ==> c in old(dev.stream)
    {
      hide Balanced, Size, Eventual, Has, Sound, Better, SameShape, Weaker, RunOk, Span, Staging, Holds, Tracked,
           Queued, Closed, Given, PutOn, Spared, AllHave;
      var d := Deferred(pin, Run(t, pendingPinnedOffset, pendingPinnedOutputs));
      PendingAre();
      StagingRun(book, want, pin, d.run);
      SparedRefl(Seen(), dev.risky);
      var ok;
      ok, cudaCopy := CopyBlock(pin, d.run, tensorType);
      ghost var risky := HostileRun(d.run.list, tensorType, ok);
      if cudaCopy {
        DeferRun(d, t, tensorType, n);
        return;
      }
      if ok {
        cudaCopy := HandOutAll(d);
        ClosedGiven(book, uses, old(Seen()), Seen(), Kind(), tensorType, n);
      } else {
        FailAll(d.run);
        ClosedFailed(book, uses, old(Seen()), Seen(), Kind(), tensorType, n, risky);
      }
      pinnedMemories := pinnedMemories + [pin];
      CloseRun(t, old(Seen()));
    }

    // The pending run waits in its pinned buffer.
    method DeferRun(d: Deferred, t: nat, tensorType: MemoryType, ghost n: nat)
      requires Valid() && Tracking() && book.hand == [] && d.run == Run(t, pendingPinnedOffset, pendingPinnedOutputs)
      requires t == book.pending.tensor && Staging(book, want, d.pin, d.run) && d.pin in book.pins
      requires Holds(Eventual(Now()), want, d.pin, 0, Size(d.run.list)) && (tensorType.Gpu? || copyOnStream)
      requires Queued(pendingPinnedOutputs, tensorType, n, live[..], Kind())
      requires forall x :: x in pendingPinnedOutputs ==> x in outputs
      requires forall i :: 0 <= i < |book.deferred| ==> book.deferred[i].pin < d.pin
      requires dev.hostile && tensorType.Gpu? ==> forall x :: x in pendingPinnedOutputs ==> x.req !in dev.risky
      modifies this`book, this`deferredPinned
      modifies this`pendingPinnedSize, this`pendingPinnedOffset, this`pendingPinnedOutputs
      ensures Valid() && Tracking() && pendingPinnedOutputs == [] && pendingPinnedSize == 0
      ensures book == old(book).(pending := Run(t, 0, []), deferred := deferredPinned)
    {
      hide Balanced, Size, Eventual, SameShape, RunOk, Staging, Holds, Tracked, Queued;
      DeferKeeps(Now(), d.pin);
      TrackedDeferred(book, book.(pending := Run(t, 0, []), deferred := book.deferred + [d]), uses, Seen(), Kind(), d,
                      n, tensorType);
      SizeNone();
      deferredPinned := deferredPinned + [d];
      pendingPinnedSize, pendingPinnedOffset, pendingPinnedOutputs := 0, 0, [];
      book := book.(pending := Run(t, 0, []), deferred := deferredPinned);
    }

    // The pending run is done with.
    method CloseRun(t: nat, ghost start: Responses)
      requires Valid() && Tracked(book, uses, start, Kind()) && Closed(book, uses, start, Seen(), Kind())
      requires t == book.pending.tensor && AllHave(Eventual(Now()), want, pendingPinnedOutputs, |pendingPinnedOutputs|)
      requires forall x :: x in pendingPinnedOutputs ==> x in outputs
      modifies this`book, this`pendingPinnedSize, this`pendingPinnedOffset, this`pendingPinnedOutputs
      ensures Valid() && Tracking() && pendingPinnedOutputs == [] && pendingPinnedSize == 0
      ensures book == old(book).(pending := Run(t, 0, [])) && Spared(start, Seen(), dev.risky)
    {
      hide Balanced, Size, Eventual, SameShape, RunOk, Tracked, Closed, AllHave, Spared;
      CloseKeeps(Now());
      TrackedClosed(book, book.(pending := Run(t, 0, [])), uses, start, Seen(), Kind());
      ClosedSpares(book, uses, start, Seen(), Kind());
      SizeNone();
      pendingPinnedSize, pendingPinnedOffset, pendingPinnedOutputs := 0, 0, [];
      book := book.(pending := Run(t, 0, []));
    }

    // If the block copy has been refused, something may be refused for one of the run; on a hostile machine that is
    // when it is.
    lemma {:induction false} HostileRun(list: seq<Slot>, tensorType: MemoryType, ok: bool) returns (k: nat)
      requires !ok ==> tensorType.Gpu? && dev.MayFail(Owners(list))
      requires dev.hostile && tensorType.Gpu? && dev.MayFail(Owners(list)) ==> !ok
      ensures !ok && list != [] ==> k in dev.risky && exists x :: x in list && x.req == k
      ensures ok && dev.hostile && tensorType.Gpu? ==> forall x :: x in list ==> x.req !in dev.risky
    {
      k := 0;
      if list != [] { assert list[0].req in Owners(list); }
      if !ok && list != [] { k :| k in Owners(list) * dev.risky; }
      forall x | x in list && x.req in dev.risky ensures dev.MayFail(Owners(list)) {
        assert x.req in Owners(list) * dev.risky;
      }
    }

    lemma {:induction false} StagingRun(b: Book, w: Want, pin: nat, run: Run)
      requires Staging(b, w, pin, run)
      ensures RunOk(b, run) && pin in b.pins
    {}

    // Every pending slice is copied, or waits in a pinned buffer.
    method FlushPendingPinned(t: nat, tensorType: MemoryType, ghost n: nat) returns (cudaCopy: bool)
      requires Valid() && Tracking() && t < |book.before| && t == book.pending.tensor && book.hand == []
      requires Queued(pendingPinnedOutputs, tensorType, n, live[..], Kind())
      modifies dev, live, this`want, this`book, this`deferredPinned, this`pinnedMemories
      modifies this`pendingPinnedSize, this`pendingPinnedOffset, this`pendingPinnedOutputs
      ensures Valid() && Tracking() && pendingPinnedOutputs == [] && pendingPinnedSize == 0
      ensures book.before == old(book.before) && book.hand == [] && book.pending.tensor == t
      ensures Queued(pendingPinnedOutputs, tensorType, n, live[..], Kind())
      ensures Spared(old(Seen()), Seen(), dev.risky)
      ensures !cudaCopy ==> deferredPinned == old(deferredPinned)
      ensures !cudaCopy ==> forall c :: c in dev.stream ==> c in old(dev.stream)
    {
      hide Balanced, Size, Eventual, Sound, SameShape, RunOk, Span, Staging, Tracked, Queued, Spared, Closed;
      ghost var b := book;
      PinnedBelow();
      var pin, actual := AllocatePinned(t);
      TrackedPins(b, book, uses, Seen(), Kind());
      if actual != CpuPinned {
        PendingAre();
        ReleaseUnused(pin);
        cudaCopy := FlushDirect(t, tensorType, n);
        ClosedDirect(book, uses, old(Seen()), Seen(), Kind());
        CloseRun(t, old(Seen()));
      } else {
        cudaCopy := FlushPinned(pin, t, tensorType, n);
      }
      QueuedNone(tensorType, n, live[..], Kind());
    }

    lemma {:induction false} PinnedBelow()
      requires Valid() && Tracking()
      ensures forall i :: 0 <= i < |book.deferred| ==> book.deferred[i].pin in book.pins
    {
      hide Balanced;
      forall i | 0 <= i < |book.deferred| ensures book.deferred[i].pin in book.pins {
        assert LineOk(book, book.deferred[i]);
      }
    }

    // A buffer is given back that nobody reads any more, or none ever did.
    method ReleaseUnused(pin: nat)
      requires Orderly() && pin in book.pins && forall d :: d in book.deferred ==> d.pin != pin
      requires forall c :: c in dev.stream ==> c.dst != pin && (c.src.Slice? ==> c.src.blk != pin)
      modifies dev`mem, this`want
      ensures Orderly() && |want| == |old(want)|
    {
      hide Balanced, Eventual, SameShape;
      ghost var v := Now();
      PinsBelow();
      dev.Release(pin);
      UnusedKeeps(v, pin, dev.mem[pin]);
      want := want[pin := Sure(dev.mem[pin])];
      BalancedFacts(Now());
    }

    // -------------------------------------------------------------------------
    // One tensor

    // During a call on tensor 't', before request 'n'.
    ghost predicate Working(t: nat, tensorType: MemoryType, n: nat)
      reads this, dev, live
    {
      && Valid() && KnownBy(needSync) && book.hand == [] && t < |book.before| && book.pending.tensor == t
      && Tracking() && Queued(pendingPinnedOutputs, tensorType, n, live[..], Kind())
    }

    // The pending run is flushed, unless the slice extends it.
    method FlushUnlessNext(idx: nat, off: nat, t: nat, tensorType: MemoryType)
      requires Working(t, tensorType, idx)
      modifies dev, live, this`want, this`book, this`deferredPinned, this`pinnedMemories, this`needSync
      modifies this`pendingPinnedSize, this`pendingPinnedOffset, this`pendingPinnedOutputs
      ensures Working(t, tensorType, idx) && book.before == old(book.before) && Queueable(t, off)
      ensures Spared(old(Seen()), Seen(), dev.risky)
    {
      hide Balanced, Size, Eventual, Tracked, Queued, Spared, SameShape;
      SparedRefl(Seen(), dev.risky);
      if pendingPinnedSize > 0 && off != pendingPinnedSize + pendingPinnedOffset {
        var c := FlushPendingPinned(t, tensorType, idx);
        assert dev.stream != [] ==> dev.stream[0] in dev.stream;
        needSync := needSync || c;
      }
    }

    // One turn of the loop over the responses.
    method ProcessResponse(idx: nat, name: string, size: nat, off: nat, t: nat, tensorType: MemoryType,
        usePinned: MemoryType)
      requires Working(t, tensorType, idx) && idx < |requests| && off + size <= |book.before[t]|
      requires usePinned == Kind().UsePinned(tensorType)
      modifies dev, live, this
      ensures Working(t, tensorType, idx + 1) && book.before == old(book.before)
      ensures |old(outputs)| <= |outputs| <= |old(outputs)| + 1 && outputs[..|old(outputs)|] == old(outputs)
      ensures |outputs| > |old(outputs)| ==> name in requests[idx].requested
      ensures forall s :: s in outputs[|old(outputs)|..] ==>
        s.(block := 0) == Slot(idx, name, t, tensorType, off, size, 0, PlaceOf(requests[idx], name, tensorType))
      ensures Spared(old(Seen()), Seen(), dev.risky)
      ensures live[idx] && name in requests[idx].requested ==> |outputs| == |old(outputs)| + 1
      ensures uses == old(uses) || (name in requests[idx].requested && uses == Used(old(uses), idx))
    {
      hide Balanced, Size, Eventual, Tracked, Setup.UsePinned, Queued, Used, Spared, SameShape, FieldsOk, PlaceOf;
      FlushUnlessNext(idx, off, t, tensorType);
      ghost var seen := Seen();
      if live[idx] && name in requests[idx].requested {
        Answer(idx, name, size, off, t, tensorType, usePinned);
        SparedTrans(old(Seen()), seen, Seen(), dev.risky);
      } else {
        QueuedLater(pendingPinnedOutputs, tensorType, idx, live[..], Kind());
      }
    }

    // The response is given the output.
    method Answer(idx: nat, name: string, size: nat, off: nat, t: nat, tensorType: MemoryType, usePinned: MemoryType)
      requires Working(t, tensorType, idx) && idx < |requests| && live[idx]
      requires off + size <= |book.before[t]| && Queueable(t, off) && usePinned == Kind().UsePinned(tensorType)
      modifies dev, live, this`want, this`book, this`outputs, this`uses, this`needSync
      modifies this`pendingPinnedSize, this`pendingPinnedOffset, this`pendingPinnedOutputs
      ensures Working(t, tensorType, idx + 1) && book.before == old(book.before)
      ensures |old(outputs)| <= |outputs| <= |old(outputs)| + 1 && outputs[..|old(outputs)|] == old(outputs)
      ensures forall s :: s in outputs[|old(outputs)|..] ==>
        s.(block := 0) == Slot(idx, name, t, tensorType, off, size, 0, PlaceOf(requests[idx], name, tensorType))
      ensures Spared(old(Seen()), Seen(), dev.risky) && uses == Used(old(uses), idx)
      ensures live[idx] ==> |outputs| == |old(outputs)| + 1
    {
      hide Balanced, Size, Eventual, Tracked, Setup.UsePinned, Queued, Used, Spared, SameShape, PlaceOf;
      var c := SetFixedSizeOutputBuffer(idx, name, size, off, t, tensorType, usePinned);
      SparedOne(old(Seen()), Seen(), idx, dev.risky);
      needSync := needSync || c;
    }

    // The outputs from number 'from' on are exactly those called 'cut.name' of the first 'n' requests that asked for
    // it, one each, as far as they are still to be answered.
    ghost predicate Provided(os: seq<Slot>, alive: seq<bool>, from: nat, cut: Cut, n: nat)
      requires n <= |requests| == |cut.sizes|
    {
      && from <= |os| && |alive| == |requests|
      && (forall j :: from <= j < |os| ==> AskedBy(os[j], cut, n))
      && (forall i, j :: from <= i < j < |os| ==> os[i].req < os[j].req)
      && (forall k :: 0 <= k < n && alive[k] && cut.name in requests[k].requested ==> Answered(os, from, k, cut))
    }

    ghost predicate AskedBy(s: Slot, cut: Cut, n: nat)
      requires n <= |requests| == |cut.sizes|
    {
      s.req < n && cut.name in requests[s.req].requested && IsFor(s, requests[s.req], s.req, cut)
    }

    ghost predicate Answered(os: seq<Slot>, from: nat, k: nat, cut: Cut)
      requires k < |requests| == |cut.sizes|
    {
      exists j :: from <= j < |os| && IsFor(os[j], requests[k], k, cut)
    }

    lemma {:induction false} ProvidedNext(os: seq<Slot>, os': seq<Slot>, alive: seq<bool>, alive': seq<bool>,
        from: nat, cut: Cut, n: nat)
      requires n < |requests| == |cut.sizes| && Provided(os, alive, from, cut, n) && |alive'| == |requests|
      requires |os| <= |os'| && os'[..|os|] == os
      requires forall s :: s in os'[|os|..] ==> IsFor(s, requests[n], n, cut) && cut.name in requests[n].requested
      requires forall k :: 0 <= k < |alive| && alive'[k] ==> alive[k]
      requires alive'[n] && cut.name in requests[n].requested ==> |os'| > |os|
      requires |os'| <= |os| + 1
      ensures Provided(os', alive', from, cut, n + 1)
    {
      hide IsFor;
      forall j | from <= j < |os'| ensures AskedBy(os'[j], cut, n + 1) {
        if j < |os| {
          assert os'[j] == os[j];
          assert AskedBy(os[j], cut, n);
        } else {
          assert os'[j] == os'[|os|..][j - |os|];
          NewAsked(os'[j], cut, n);
        }
      }
      forall i, j | from <= i < j < |os'| ensures os'[i].req < os'[j].req {
        assert os'[i] == os[i] && AskedBy(os[i], cut, n);
        if j < |os| {
          assert os'[j] == os[j];
        } else {
          assert os'[j] == os'[|os|..][0];
          NewAsked(os'[j], cut, n);
        }
      }
      forall k | 0 <= k < n + 1 && alive'[k] && cut.name in requests[k].requested
        ensures Answered(os', from, k, cut)
      {
        if k < n {
          assert Answered(os, from, k, cut);
          var j :| from <= j < |os| && IsFor(os[j], requests[k], k, cut);
          assert os'[j] == os[j];
        } else {
          assert os'[|os|] == os'[|os|..][0];
        }
      }
    }

    lemma {:induction false} NewAsked(s: Slot, cut: Cut, n: nat)
      requires n < |requests| == |cut.sizes| && IsFor(s, requests[n], n, cut) && cut.name in requests[n].requested
      ensures AskedBy(s, cut, n + 1) && s.req == n
    {}

    // No response has been used more often than it was asked for the output.
    ghost predicate UsedUpTo(was: seq<nat>, now: seq<nat>, name: string, n: nat) {
      && |now| == |was| == |requests|
      && forall k :: 0 <= k < |now| ==>
           was[k] <= now[k] <= was[k] + if k < n && name in requests[k].requested then 1 else 0
    }

    // The same, for the response whose turn it is.
    method ProcessNext(idx: nat, ghost cut: Cut, name: string, size: nat, off: nat, t: nat, tensorType: MemoryType,
        usePinned: MemoryType, ghost from: nat, ghost before: seq<nat>)
      requires Working(t, tensorType, idx) && idx < |requests| && off + size <= |book.before[t]|
      requires |cut.sizes| == |requests| && Provided(outputs, live[..], from, cut, idx)
      requires cut.name == name && cut.tensor == t && cut.memType == tensorType
      requires size == cut.sizes[idx] && off == Before(cut.sizes, idx) && usePinned == Kind().UsePinned(tensorType)
      requires UsedUpTo(before, uses, name, idx)
      modifies dev, live, this
      ensures Working(t, tensorType, idx + 1) && book.before == old(book.before)
      ensures |old(outputs)| <= |outputs| && outputs[..|old(outputs)|] == old(outputs)
      ensures Provided(outputs, live[..], from, cut, idx + 1) && UsedUpTo(before, uses, name, idx + 1)
      ensures Spared(old(Seen()), Seen(), dev.risky)
    {
      hide Balanced, Eventual, Size, Before, Tracked, Queued, Setup.UsePinned;
      ProcessResponse(idx, name, size, off, t, tensorType, usePinned);
      ProvidedNext(old(outputs), outputs, old(live[..]), live[..], from, cut, idx);
    }

    // A call on tensor 't' begins.
    ghost method Begin(t: nat, tensorType: MemoryType)
      requires Ready() && t < |book.before|
      modifies this`book
      ensures Working(t, tensorType, 0) && book.before == old(book.before)
      ensures pendingPinnedOutputs == [] && pendingPinnedOffset == 0
    {
      hide Balanced, Eventual, Size, Tracked;
      AimKeeps(Now(), t);
      TrackedAim(book, book.(pending := Run(t, 0, [])), uses, Seen(), Kind());
      book := book.(pending := Run(t, 0, []));
    }

    // Done with the tensor.
    method Conclude(t: nat, tensorType: MemoryType)
      requires Working(t, tensorType, |requests|)
      modifies dev, live, this
      ensures Ready() && book.before == old(book.before) && outputs == old(outputs) && uses == old(uses)
      ensures Spared(old(Seen()), Seen(), dev.risky)
    {
      hide Balanced, Eventual, Size, Tracked, Queued;
      var c := FlushPendingPinned(t, tensorType, |requests|);
      assert dev.stream != [] ==> dev.stream[0] in dev.stream;
      needSync := needSync || c;
      if needSync && useEvent {
        dev.EventRecord();
      }
    }

    function ShapeFor(shape: seq<int>, k: nat): seq<int>
      requires k < |requests| && (maxBatchSize != NO_BATCHING ==> shape != [])
    {
      if maxBatchSize != NO_BATCHING then shape[0 := requests[k].batchSize] else shape
    }

    function BatchSizes(elementSize: nat, shape: seq<int>): (r: seq<int>)
      requires maxBatchSize != NO_BATCHING ==> shape != []
      ensures |r| == |requests|
    {
      seq(|requests|, k requires 0 <= k < |requests| => ByteSize(elementSize, ShapeFor(shape, k)))
    }

    // Cuts the tensor into slices of the batch size each request has.
    method ProcessTensor(name: string, elementSize: nat, shape: seq<int>, t: nat, tensorType: MemoryType)
      requires Ready() && t < |book.before| && (maxBatchSize != NO_BATCHING ==> shape != [])
      requires Fitting(BatchSizes(elementSize, shape), |book.before[t]|)
      modifies dev, live, this
      ensures Ready() && book.before == old(book.before)
      ensures |old(outputs)| <= |outputs| && outputs[..|old(outputs)|] == old(outputs)
      ensures var cut := Cut(name, t, tensorType, BatchSizes(elementSize, shape));
        Provided(outputs, live[..], |old(outputs)|, cut, |requests|)
      ensures Spared(old(Seen()), Seen(), dev.risky) && UsedUpTo(old(uses), uses, name, |requests|)
    {
      hide Balanced, Eventual, Size, Before, ElementCount, Tracked, Queued, Spared, Provided;
      var usePinned := if pinnedEnabled then GetUsePinnedMemoryType(tensorType) else CpuPinned;
      ghost var cut := Cut(name, t, tensorType, BatchSizes(elementSize, shape));
      var batchnShape, tensorOffset := shape, 0;
      Begin(t, tensorType);
      BeforeZero(cut.sizes);
      SparedRefl(Seen(), dev.risky);
      ProvidedNone(cut);
      for idx := 0 to |requests|
        invariant Working(t, tensorType, idx) && book.before == old(book.before)
        invariant |old(outputs)| <= |outputs| && outputs[..|old(outputs)|] == old(outputs)
        invariant Spared(old(Seen()), Seen(), dev.risky) && UsedUpTo(old(uses), uses, name, idx)
        invariant Provided(outputs, live[..], |old(outputs)|, cut, idx)
        invariant tensorOffset == Before(cut.sizes, idx)
        invariant |batchnShape| == |shape| && (maxBatchSize == NO_BATCHING ==> batchnShape == shape)
        invariant shape != [] ==> batchnShape[1..] == shape[1..]
      {
        if maxBatchSize != NO_BATCHING {
          batchnShape := batchnShape[0 := requests[idx].batchSize];
        }
        assert batchnShape == ShapeFor(shape, idx);
        var size := GetByteSize(elementSize, batchnShape);
        BeforeFits(cut.sizes, idx, |book.before[t]|);
        ghost var seen := Seen();
        ProcessNext(idx, cut, name, size, tensorOffset, t, tensorType, usePinned, |old(outputs)|, old(uses));
        SparedTrans(old(Seen()), seen, Seen(), dev.risky);
        tensorOffset := tensorOffset + size;
      }
      Done(t, tensorType, cut, |old(outputs)|, old(Seen()));
    }

    lemma {:induction false} ProvidedNone(cut: Cut)
      requires |requests| == |cut.sizes| && live.Length == |requests|
      ensures Provided(outputs, live[..], |outputs|, cut, 0)
    {}

    // The last flush, after which the outputs are still those provided.
    method Done(t: nat, tensorType: MemoryType, ghost cut: Cut, ghost from: nat, ghost start: Responses)
      requires Working(t, tensorType, |requests|) && |requests| == |cut.sizes|
      requires Provided(outputs, live[..], from, cut, |requests|) && Spared(start, Seen(), dev.risky)
      modifies dev, live, this
      ensures Ready() && book.before == old(book.before) && outputs == old(outputs) && uses == old(uses)
      ensures Provided(outputs, live[..], from, cut, |requests|) && Spared(start, Seen(), dev.risky)
    {
      hide Balanced, Eventual, Size, Tracked, Queued, IsFor;
      Conclude(t, tensorType);
    }

    ghost predicate Like(inputName: string, shape: seq<int>) {
      forall k :: 0 <= k < |requests| ==>
        inputName in requests[k].inputShapes
        && forall i :: 0 <= i < |shape| && shape[i] == WILDCARD_DIM ==> i < |requests[k].inputShapes[inputName]|
    }

    ghost function InputSizes(inputName: string, elementSize: nat, shape: seq<int>): (r: seq<int>)
      requires Like(inputName, shape)
      ensures |r| == |requests|
    {
      seq(|requests|, k requires 0 <= k < |requests| =>
        ByteSize(elementSize, Resolved(shape, requests[k].inputShapes[inputName])))
    }

    // Cuts the tensor into slices of the shape that an input of each request has.
    method ProcessTensorLikeInput(name: string, inputName: string, elementSize: nat, shape: seq<int>, t: nat,
        tensorType: MemoryType)
      requires Ready() && t < |book.before| && Like(inputName, shape)
      requires Fitting(InputSizes(inputName, elementSize, shape), |book.before[t]|)
      modifies dev, live, this
      ensures Ready() && book.before == old(book.before)
      ensures |old(outputs)| <= |outputs| && outputs[..|old(outputs)|] == old(outputs)
      ensures var cut := Cut(name, t, tensorType, InputSizes(inputName, elementSize, shape));
        Provided(outputs, live[..], |old(outputs)|, cut, |requests|)
      ensures Spared(old(Seen()), Seen(), dev.risky) && UsedUpTo(old(uses), uses, name, |requests|)
    {
      hide Balanced, Eventual, Size, Before, ElementCount, Tracked, Queued, Spared, Provided;
      var usePinned := if pinnedEnabled then GetUsePinnedMemoryType(tensorType) else CpuPinned;
      ghost var cut := Cut(name, t, tensorType, InputSizes(inputName, elementSize, shape));
      var tensorOffset := 0;
      Begin(t, tensorType);
      BeforeZero(cut.sizes);
      SparedRefl(Seen(), dev.risky);
      ProvidedNone(cut);
      for idx := 0 to |requests|
        invariant Working(t, tensorType, idx) && book.before == old(book.before)
        invariant |old(outputs)| <= |outputs| && outputs[..|old(outputs)|] == old(outputs)
        invariant Spared(old(Seen()), Seen(), dev.risky) && UsedUpTo(old(uses), uses, name, idx)
        invariant Provided(outputs, live[..], |old(outputs)|, cut, idx)
        invariant tensorOffset == Before(cut.sizes, idx)
      {
        var outputShape := Resolve(shape, requests[idx].inputShapes[inputName]);
        var size := GetByteSize(elementSize, outputShape);
        BeforeFits(cut.sizes, idx, |book.before[t]|);
        ghost var seen := Seen();
        ProcessNext(idx, cut, name, size, tensorOffset, t, tensorType, usePinned, |old(outputs)|, old(uses));
        SparedTrans(old(Seen()), seen, Seen(), dev.risky);
        tensorOffset := tensorOffset + size;
      }
      Done(t, tensorType, cut, |old(outputs)|, old(Seen()));
    }

    // -------------------------------------------------------------------------
    // Finalize

    // Waits for the first copies, if any slices are still to be handed out.
    method Synchronize()
      requires Ready()
      modifies dev, this`needSync
      ensures dev.crashed == old(dev.crashed)
      ensures Valid() && Arrived(book, dev.mem, want, 0) && (dev.stream != [] ==> needSync)
      ensures if deferredPinned == [] then dev.stream == old(dev.stream) && dev.marked == old(dev.marked)
              else dev.stream == []
    {
      hide Balanced, Eventual, Better, SameShape, Sound, Fits, Apply, Size, Tracked;
      ghost var v := Now();
      BalancedFacts(v);
      if deferredPinned != [] && needSync {
        ghost var k := |dev.stream|;
        assert v.stream[k..] == [] && v.stream[..k] == v.stream;
        if useEvent {
          dev.EventSynchronize(want);
        } else {
          dev.StreamSynchronize(want);
        }
        LandKeeps(v, k);
        assert Now() == v.(mem := dev.mem, stream := dev.stream);
        BalancedFacts(Now());
        DrainedArrived(Now());
        needSync := false;
      }
    }

    // Every slice that waits in a pinned buffer.
    method HandOutDeferred()
      requires Valid() && Arrived(book, dev.mem, want, 0) && (dev.stream != [] ==> needSync)
      requires deferredPinned != [] ==> dev.stream == []
      modifies dev, live, this`want, this`needSync
      ensures Valid() && Handed(book, Eventual(Now()), want, |book.deferred|) && (dev.stream != [] ==> needSync)
      ensures Arrived(book, dev.mem, want, 0) && Given(old(Seen()), Seen(), Flat(deferredPinned), Kind())
      ensures if deferredPinned == [] then dev.marked == old(dev.marked) && dev.stream == old(dev.stream)
              else InFlight(deferredPinned, |deferredPinned|, dev.stream, Kind())
    {
      hide Balanced, Eventual, Better, SameShape, Weaker, Size, Arrived, Handed, AllHave, Staging, Holds, Given, PutOn,
           InFlight;
      GivenNothing(Seen(), Kind());
      HandedNone(book, Eventual(Now()), want);
      InFlightNone(deferredPinned, Kind());
      assert deferredPinned[..0] == [];
      for i := 0 to |deferredPinned|
        invariant Valid() && Arrived(book, dev.mem, want, 0) && Handed(book, Eventual(Now()), want, i)
        invariant Given(old(Seen()), Seen(), Flat(deferredPinned[..i]), Kind())
        invariant dev.stream != [] ==> needSync
        invariant i == 0 ==> dev.marked == old(dev.marked) && dev.stream == old(dev.stream)
        invariant deferredPinned != [] ==> InFlight(deferredPinned, i, dev.stream, Kind())
      {
        ghost var seen, stream := Seen(), dev.stream;
        var c := FinalizeDeferred(i);
        assert dev.stream != [] ==> dev.stream[0] in dev.stream;
        needSync := needSync || c;
        FlatMore(deferredPinned, i);
        GivenJoin(old(Seen()), seen, Seen(), Flat(deferredPinned[..i]), deferredPinned[i].run.list, Kind());
        InFlightNext(deferredPinned, i, stream, dev.stream, Kind());
      }
      assert deferredPinned[..|deferredPinned|] == deferredPinned;
    }

    method FinalizeDeferred(i: nat) returns (cudaUsed: bool)
      requires Valid() && i < |deferredPinned|
      requires Arrived(book, dev.mem, want, 0) && Handed(book, Eventual(Now()), want, i)
      modifies dev, live, this`want
      ensures Valid() && Arrived(book, dev.mem, want, 0) && Handed(book, Eventual(Now()), want, i + 1)
      ensures Given(old(Seen()), Seen(), deferredPinned[i].run.list, Kind())
      ensures PutOn(deferredPinned[i], |deferredPinned[i].run.list|, old(dev.stream), dev.stream, Kind())
      ensures !cudaUsed ==> forall c :: c in dev.stream ==> c in old(dev.stream)
    {
      hide Balanced, Eventual, Better, SameShape, Weaker, Size, Staging, Holds, AllHave, Given, PutOn;
      var d := deferredPinned[i];
      DeferredFacts(Now(), i);
      ghost var m, e, w := dev.mem, Eventual(Now()), want;
      ArrivedHere(i);
      cudaUsed := HandOutAll(d);
      ArrivedStays(book, m, dev.mem, w, want, 0);
      HandedStays(book, e, Eventual(Now()), w, want, i);
    }

    lemma {:induction false} ArrivedHere(i: nat)
      requires i < |book.deferred| && Arrived(book, dev.mem, want, 0)
      ensures Holds(dev.mem, want, book.deferred[i].pin, 0, Size(book.deferred[i].run.list))
    {
      assert ArrivedAt(dev.mem, want, book.deferred[i]);
    }

    // The pinned buffers of the first 'n' deferred runs have been given back.
    ghost predicate Releasing(ds: seq<Deferred>, n: nat)
      requires n <= |ds|
      reads this, dev, live
    {
      Orderly() && Settled(book) && GivenBack(Now(), ds, n, Kind())
    }

    // Gives the pinned buffers of the deferred runs back, while copies out of them may be in flight.
    method ReleaseDeferred(ds: seq<Deferred>)
      requires Releasing(ds, 0)
      modifies dev`mem, this`want, this`book
      ensures Releasing(ds, |ds|) && book == old(book).(spoilt := book.spoilt)
    {
      hide Releasing;
      for i := 0 to |ds|
        invariant Releasing(ds, i) && book == old(book).(spoilt := book.spoilt)
      {
        ReleaseOne(ds, i);
      }
    }

    method ReleaseOne(ds: seq<Deferred>, i: nat)
      requires i < |ds| && Releasing(ds, i)
      modifies dev`mem, this`want, this`book
      ensures Releasing(ds, i + 1) && book == old(book).(spoilt := book.spoilt)
    {
      hide Balanced, Eventual, SameShape, Size, GivenBack, Handing, Released, Differs;
      ghost var v, pin := Now(), ds[i].pin;
      BalancedFacts(v);
      RightHere(v, ds, i, Kind());
      dev.Release(ds[i].pin);
      ghost var v' := Released(v, pin, dev.mem[pin]);
      ReleasedIs(v, pin, dev.mem[pin]);
      GivenNext(v, ds, i, Kind(), dev.mem[pin]);
      ReleaseKeeps(v, pin, dev.mem[pin]);
      want := v'.want;
      book := v'.book;
      assert Now() == v';
    }

    lemma {:induction false} SpoiltNone(ds: seq<Deferred>)
      ensures SpoiltBy(map[], ds, 0, dev.stream) && (book.spoilt == map[] ==> AllWrong(book))
    {}

    lemma {:induction false} LinesHere(before: seq<nat>, r: Responses)
      requires Tracked(book, before, r, Kind()) && deferredPinned == book.deferred
      ensures forall i :: 0 <= i < |deferredPinned| ==> LineOk(book, deferredPinned[i])
      ensures forall i, j :: 0 <= i < j < |deferredPinned| ==> Follows(deferredPinned[i], deferredPinned[j])
    {}

    // Which outputs are spoilt, in terms of what the responder had to wait for.
    lemma {:induction false} AllSpoilt(b: Book, before: seq<nat>, r: Responses)
      requires Orderly() && Tracked(b, before, r, Kind()) && b.slots == outputs
      requires if b.deferred == [] then book.spoilt == map[]
               else InFlight(b.deferred, |b.deferred|, dev.stream, Kind())
                    && SpoiltBy(book.spoilt, b.deferred, |b.deferred|, dev.stream)
      requires forall i :: 0 <= i < |b.deferred| ==> LineOk(book, b.deferred[i])
      ensures forall x :: x in outputs && x.block in book.spoilt ==>
        x in Flat(b.deferred) && copyOnStream && Kind().Staged(x) && x.size > 0
      ensures dev.hostile && copyOnStream ==>
        forall x :: x in outputs && x in Flat(b.deferred) && x.size > 0 && !Kind().Refusable(x) ==>
          x.block in book.spoilt
    {
      hide Balanced, Eventual, SameShape, Size, InFlight, Tracked, LineOk, SpoiltBy, Setup.Refusable, Setup.Staged;
      if b.deferred != [] {
        forall x | x in outputs
          ensures x.block in book.spoilt ==>
                    x in Flat(b.deferred) && copyOnStream && Kind().Staged(x) && x.size > 0
          ensures dev.hostile && copyOnStream && x in Flat(b.deferred) && x.size > 0 && !Kind().Refusable(x) ==>
                    x.block in book.spoilt
        {
          SpoiltAre(Now(), b.deferred, Kind(), x);
          if x.block in book.spoilt { AsyncWaits(b, before, r, Kind(), x); }
        }
      }
    }

    // Nobody waits for anything any more, and the caller is told of every copy still in flight. The program ends if,
    // and only if, the response of an output that waited is gone before the call, or a copy for it is refused and
    // there is another output of the same response to come (certainly, if refusals are). And the pinned buffers are
    // given back: the outputs spoilt are those copied out of them on the stream, as far as these have not landed.
    method Finalize() returns (sync: bool)
      requires Ready()
      modifies dev, live, this
      ensures Orderly() && Settled(book) && book.before == old(book.before) && outputs == old(outputs)
      ensures Spared(old(Seen()), Seen(), dev.risky)
      ensures (!sync ==> dev.stream == []) && (useEvent ==> dev.marked == |dev.stream|)
      ensures Given(old(Seen()), Seen(), Flat(old(deferredPinned)), Kind())
      ensures dev.crashed ==> Blamed(outputs, old(uses), Kind())
      ensures forall x :: x in outputs && x.block in book.spoilt ==>
        x in Flat(old(deferredPinned)) && copyOnStream && Kind().Staged(x) && x.size > 0
      ensures dev.hostile && copyOnStream ==>
        forall x :: x in outputs && x in Flat(old(deferredPinned)) && x.size > 0 && !Kind().Refusable(x) ==>
          x.block in book.spoilt
      ensures dev.hostile ==> AllWrong(book)
      ensures pinnedMemories == old(pinnedMemories)
    {
      hide Balanced, Eventual, Better, SameShape, Weaker, Size, Arrived, Handed, AllHave, Staging, Holds, Given,
           InFlight, Tracked, AllWrong, Blamed, Setup.Refusable;
      Synchronize();
      HandOutDeferred();
      if deferredPinned != [] && needSync && useEvent {
        dev.EventRecord();
      }
      EndBlamed(old(book), old(uses), old(Seen()), Seen(), Kind());
      Clear(old(uses), old(Seen()));
      return needSync;
    }

    // The wait that Finalize asks for.
    method Wait(sync: bool)
      requires Orderly() && (!sync ==> dev.stream == []) && (useEvent ==> dev.marked == |dev.stream|)
      modifies dev
      ensures Orderly() && dev.stream == [] && dev.crashed == old(dev.crashed)
    {
      hide Balanced, Eventual, Better, SameShape, Sound, Fits, Apply, Size;
      ghost var v, k := Now(), |dev.stream|;
      BalancedFacts(v);
      if sync {
        assert v.stream[k..] == [] && v.stream[..k] == v.stream;
        if useEvent { dev.EventSynchronize(want); } else { dev.StreamSynchronize(want); }
        LandKeeps(v, k);
        assert Now() == v.(mem := dev.mem, stream := dev.stream);
        BalancedFacts(Now());
      }
    }

    // The responder goes away after that, and gives back the other pinned buffers.
    method Dispose()
      requires Orderly() && Settled(book) && dev.stream == []
      modifies dev`mem, this`want
      ensures Orderly()
    {
      hide Balanced, Eventual, SameShape, Size;
      for i := 0 to |pinnedMemories|
        invariant Orderly()
      {
        ReleaseUnused(pinnedMemories[i]);
      }
    }

    // The deferred runs have been handed out, and are cleared with their pinned buffers.
    method Clear(ghost before: seq<nat>, ghost r: Responses)
      requires Valid() && Handed(book, Eventual(Now()), want, |book.deferred|)
      requires book.hand == [] && book.pending.list == []
      requires Arrived(book, dev.mem, want, 0) && Tracked(book, before, r, Kind())
      requires deferredPinned != [] ==> InFlight(deferredPinned, |deferredPinned|, dev.stream, Kind())
      modifies dev`mem, this`want, this`book, this`deferredPinned
      ensures Orderly() && Settled(book) && book.before == old(book.before) && outputs == old(outputs)
      ensures forall x :: x in outputs && x.block in book.spoilt ==>
        x in Flat(old(deferredPinned)) && copyOnStream && Kind().Staged(x) && x.size > 0
      ensures dev.hostile && copyOnStream ==>
        forall x :: x in outputs && x in Flat(old(deferredPinned)) && x.size > 0 && !Kind().Refusable(x) ==>
          x.block in book.spoilt
      ensures dev.hostile ==> AllWrong(book)
    {
      hide Balanced, Eventual, Better, SameShape, Weaker, Size, Arrived, Handed, AllHave, Staging, Holds, InFlight,
           Tracked, LineOk, RunOk, Right, Follows, SpoiltBy, AllWrong, Setup.Refusable;
      ghost var b := book;
      var ds := deferredPinned;
      LinesHere(before, r);
      forall i | 0 <= i < |ds| ensures Right(book.before, dev.mem, ds[i]) && RunOk(book, ds[i].run) {
        BalancedFacts(Now());
        ArrivedRight(Now(), dev.mem, i);
      }
      HandedAll(book, Eventual(Now()), want);
      ClearKeeps(Now());
      deferredPinned := [];
      book := book.(deferred := []);
      forall i | 0 <= i < |ds| ensures LineOk(book, ds[i]) && RunOk(book, ds[i].run) { SameLine(b, book, ds[i]); }
      SpoiltNone(ds);
      if ds != [] { ReleaseDeferred(ds); }
      AllSpoilt(b, before, r);
    }
  }

  // Where the slice of request 'k' begins: after those of all requests before it, whether they get one or not.
  function Before(sizes: seq<int>, k: nat): int
    requires k <= |sizes|
  {
    if k == 0 then 0 else Before(sizes, k - 1) + sizes[k - 1]
  }

  lemma {:induction false} BeforeZero(sizes: seq<int>)
    ensures Before(sizes, 0) == 0
  {}

  // The slices lie within a tensor of 'cap' bytes.
  predicate Fitting(sizes: seq<int>, cap: nat) {
    (forall k :: 0 <= k < |sizes| ==> sizes[k] >= 0) && Before(sizes, |sizes|) <= cap
  }

  lemma {:induction false} BeforeMonotone(sizes: seq<int>, i: nat, j: nat)
    requires i <= j <= |sizes| && forall k :: 0 <= k < |sizes| ==> sizes[k] >= 0
    ensures Before(sizes, i) <= Before(sizes, j)
    decreases j
  {
    if i < j { BeforeMonotone(sizes, i, j - 1); }
  }

  lemma {:induction false} BeforeFits(sizes: seq<int>, k: nat, cap: nat)
    requires Fitting(sizes, cap) && k < |sizes|
    ensures 0 <= Before(sizes, k) && sizes[k] >= 0 && Before(sizes, k) + sizes[k] == Before(sizes, k + 1) <= cap
  {
    BeforeMonotone(sizes, 0, k);
    BeforeMonotone(sizes, k + 1, |sizes|);
  }

  // Whether 's' is the output of request 'k', with its slice of the tensor, and where the client wants it.
  predicate IsFor(s: Slot, r: Request, k: nat, cut: Cut)
    requires k < |cut.sizes|
  {
    && s.req == k && s.name == cut.name && s.tensor == cut.tensor && s.from == cut.memType
    && s.memType == PlaceOf(r, cut.name, cut.memType) && s.off == Before(cut.sizes, k) && s.size == cut.sizes[k]
  }
}
