// Warmup data: how large the synthetic buffers are made in a first pass, and how much of them the requests of a
// sample use in a second.

module Warmup {
  import opened Memory
  import opened Shapes
  import opened Arithmetic

  const INT64_LIMIT: int := 0x8000_0000_0000_0000
  const SIZE_OF_INT32: int := 4

  // Conversion of a size_t to int64_t.
  function ToInt64(v: nat): (r: int)
    requires v < SIZE_MODULUS
    ensures r < INT64_LIMIT
  {
    if v < INT64_LIMIT then v else v - SIZE_MODULUS
  }

  // Where the bytes of an input come from; a file that cannot be read has no size.
  datatype Data = NotSet | Zero | Random | File(size: Option<nat>)

  // accepted: whether a request takes an input of that name, type and shape, with its bytes.
  datatype WarmupInput = WarmupInput(dims: seq<int>, elementSize: nat, isString: bool, data: Data, accepted: bool)

  // prepared: whether a request with these inputs can be made ready for inference.
  datatype Setting = Setting(name: string, batchSize: nat, inputs: seq<WarmupInput>, prepared: bool)

  datatype Buffer = ZeroBuffer | RandomBuffer | FileBuffer(size: nat)

  // Bytes given to a request: a buffer and a length.
  datatype Appended = Appended(buffer: Buffer, length: nat)

  datatype Sample = Sample(name: string, zeroSize: nat, randomSize: nat, requests: seq<seq<Appended>>)

  // The byte size as an unsigned number. Strings count as four bytes an element.
  function Bytes(i: WarmupInput): (r: nat)
    ensures r < SIZE_MODULUS
  {
    var size := ToSize(ElementCount(i.dims) * i.elementSize);
    if size == 0 then ToSize(ElementCount(i.dims) * SIZE_OF_INT32) else size
  }

  // Whether the input is in the first pass counted for the zero buffer, or the random one.
  predicate UsesZero(i: WarmupInput) {
    i.data.Zero? || (i.data.Random? && i.isString)
  }

  predicate UsesRandom(i: WarmupInput) {
    i.data.Random? && !i.isString
  }

  function Max(a: int, b: int): int {
    if a < b then b else a
  }

  // The greatest signed size of the inputs that use a buffer.
  function MaxBytes(inputs: seq<WarmupInput>, zero: bool): (r: nat)
    ensures r < INT64_LIMIT
  {
    if inputs == [] then 0
    else
      var was, i := MaxBytes(inputs[..|inputs| - 1], zero), inputs[|inputs| - 1];
      if (if zero then UsesZero(i) else UsesRandom(i)) then Max(ToInt64(Bytes(i)), was) else was
  }

  predicate AnyWildcard(inputs: seq<WarmupInput>) {
    exists k :: 0 <= k < |inputs| && -1 in inputs[k].dims
  }

  // The first pass; none if a dimension is left open.
  method Measure(inputs: seq<WarmupInput>) returns (r: Option<(nat, nat)>)
    ensures r.None? <==> AnyWildcard(inputs)
    ensures r.Some? ==> r.value == (MaxBytes(inputs, true), MaxBytes(inputs, false))
  {
    hide ElementCount, Bytes;
    var maxZero: nat, maxRandom: nat := 0, 0;
    for k := 0 to |inputs|
      invariant !AnyWildcard(inputs[..k])
      invariant maxZero == MaxBytes(inputs[..k], true) && maxRandom == MaxBytes(inputs[..k], false)
    {
      assert inputs[..k + 1][..k] == inputs[..k];
      var count := GetElementCount(inputs[k].dims);
      if -1 !in inputs[k].dims { NeverWildcard(inputs[k].dims); }
      if count == -1 {
        return None;
      }
      var size := ByteCount(inputs[k], count);
      match inputs[k].data {
        case Zero =>
          maxZero := Max(ToInt64(size), maxZero);
        case Random =>
          if inputs[k].isString {
            maxZero := Max(ToInt64(size), maxZero);
          } else {
            maxRandom := Max(ToInt64(size), maxRandom);
          }
        case _ =>
      }
    }
    assert inputs[..|inputs|] == inputs;
    return Some((maxZero, maxRandom));
  }

  function ByteCount(i: WarmupInput, count: int): (r: nat)
    ensures r < SIZE_MODULUS && (count == ElementCount(i.dims) ==> r == Bytes(i))
  {
    var size := ToSize(count * i.elementSize);
    if size == 0 then ToSize(count * SIZE_OF_INT32) else size
  }

  // The data of an input is there, and a request takes it.
  predicate Usable(i: WarmupInput) {
    i.accepted
    && match i.data
       case NotSet => false
       case File(size) => size.Some? && (i.isString || Bytes(i) <= size.value)
       case _ => true
  }

  // What a request is given for an input: synthetic bytes of the shape, zeros for strings; from a file, as many bytes
  // as the shape has, or all of them for strings.
  predicate Carries(x: Appended, i: WarmupInput) {
    match i.data
    case NotSet => false
    case Zero => x.buffer == ZeroBuffer && x.length == Bytes(i)
    case Random => x.buffer == (if i.isString then ZeroBuffer else RandomBuffer) && x.length == Bytes(i)
    case File(size) =>
      size.Some? && x.buffer == FileBuffer(size.value) && x.length == if i.isString then size.value else Bytes(i)
  }

  // A request carries every input.
  predicate Holds(request: seq<Appended>, inputs: seq<WarmupInput>) {
    |request| == |inputs| && forall j :: 0 <= j < |request| ==> Carries(request[j], inputs[j])
  }

  // One request of the second pass.
  method Prepare(inputs: seq<WarmupInput>, prepared: bool) returns (r: Option<seq<Appended>>)
    ensures r.Some? <==> prepared && forall k :: 0 <= k < |inputs| ==> Usable(inputs[k])
    ensures r.Some? ==> Holds(r.value, inputs)
  {
    hide ElementCount, Bytes;
    var request: seq<Appended> := [];
    for k := 0 to |inputs|
      invariant forall j :: 0 <= j < k ==> Usable(inputs[j])
      invariant |request| == k && forall j :: 0 <= j < k ==> Carries(request[j], inputs[j])
    {
      var i := inputs[k];
      var count := GetElementCount(i.dims);
      var size := ByteCount(i, count);
      var buffer;
      match i.data {
        case NotSet =>
          return None;
        case Zero =>
          buffer := ZeroBuffer;
        case Random =>
          buffer := if i.isString then ZeroBuffer else RandomBuffer;
        case File(fileSize) =>
          if fileSize.None? {
            return None;
          }
          if i.isString {
            size := fileSize.value;
          } else if size > fileSize.value {
            return None;
          }
          buffer := FileBuffer(fileSize.value);
      }
      if !i.accepted {
        return None;
      }
      request := request + [Appended(buffer, size)];
    }
    if !prepared {
      return None;
    }
    return Some(request);
  }

  // A sample has the two synthetic buffers of the first pass, and as many requests as its batch size, each of which
  // carries every input.
  predicate Renders(x: Sample, s: Setting) {
    && x.name == s.name && |x.requests| == s.batchSize
    && x.zeroSize == MaxBytes(s.inputs, true) && x.randomSize == MaxBytes(s.inputs, false)
    && forall k :: 0 <= k < |x.requests| ==> Holds(x.requests[k], s.inputs)
  }

  // The settings that are not skipped.
  function Wanted(settings: seq<Setting>): seq<Setting> {
    if settings == [] then []
    else
      var was, s := Wanted(settings[..|settings| - 1]), settings[|settings| - 1];
      if s.batchSize == 0 then was else was + [s]
  }

  predicate Good(s: Setting) {
    s.prepared && forall k :: 0 <= k < |s.inputs| ==> -1 !in s.inputs[k].dims && Usable(s.inputs[k])
  }

  // They stay in their order.
  lemma {:induction false} WantedJoin(a: seq<Setting>, b: seq<Setting>)
    ensures Wanted(a + b) == Wanted(a) + Wanted(b)
  {
    if b == [] {
      assert a + b == a;
    } else {
      var n := |b| - 1;
      assert (a + b)[..|a + b| - 1] == a + b[..n];
      WantedJoin(a, b[..n]);
      assert Wanted(a) + Wanted(b[..n]) + [b[n]] == Wanted(a) + (Wanted(b[..n]) + [b[n]]);
    }
  }

  lemma {:induction false} WantedOne(s: Setting)
    ensures Wanted([s]) == if s.batchSize == 0 then [] else [s]
  {
    assert [s][..0] == [];
  }

  lemma {:induction false} WantedAre(settings: seq<Setting>)
    ensures forall i :: 0 <= i < |Wanted(settings)| ==>
      Wanted(settings)[i].batchSize > 0 && Wanted(settings)[i] in settings
    ensures forall s :: s in settings && s.batchSize > 0 ==> s in Wanted(settings)
  {
    if settings != [] {
      var n := |settings| - 1;
      WantedAre(settings[..n]);
      assert settings == settings[..n] + [settings[n]];
    }
  }

  // A sample for every setting that is not skipped; none at all if one of these is not good.
  method GenerateWarmupData(settings: seq<Setting>) returns (r: Option<seq<Sample>>)
    ensures r.Some? <==> forall i :: 0 <= i < |Wanted(settings)| ==> Good(Wanted(settings)[i])
    ensures r.Some? ==> |r.value| == |Wanted(settings)|
    ensures r.Some? ==> forall i :: 0 <= i < |r.value| ==> Renders(r.value[i], Wanted(settings)[i])
  {
    hide MaxBytes, Usable, Carries, Holds;
    var samples: seq<Sample> := [];
    for n := 0 to |settings|
      invariant |samples| == |Wanted(settings[..n])|
      invariant forall i :: 0 <= i < |samples| ==>
        Good(Wanted(settings[..n])[i]) && Renders(samples[i], Wanted(settings[..n])[i])
    {
      var s := settings[n];
      assert settings[..n + 1][..n] == settings[..n];
      if s.batchSize == 0 {
        continue;
      }
      assert Wanted(settings[..n + 1])[|samples|] == s;
      WantedPrefix(settings, n + 1);
      var sizes := Measure(s.inputs);
      if sizes.None? {
        return None;
      }
      var requests: seq<seq<Appended>> := [];
      for cnt := 0 to s.batchSize
        invariant |requests| == cnt
        invariant cnt > 0 ==> s.prepared && forall k :: 0 <= k < |s.inputs| ==> Usable(s.inputs[k])
        invariant forall k :: 0 <= k < cnt ==> Holds(requests[k], s.inputs)
      {
        var request := Prepare(s.inputs, s.prepared);
        if request.None? {
          return None;
        }
        requests := requests + [request.value];
      }
      samples := samples + [Sample(s.name, sizes.value.0, sizes.value.1, requests)];
    }
    assert settings[..|settings|] == settings;
    return Some(samples);
  }

  lemma {:induction false} WantedPrefix(settings: seq<Setting>, n: nat)
    requires n <= |settings|
    ensures Wanted(settings[..n]) <= Wanted(settings)
    decreases |settings| - n
  {
    if n == |settings| {
      assert settings[..n] == settings;
    } else {
      WantedPrefix(settings, n + 1);
      assert settings[..n + 1][..n] == settings[..n];
    }
  }

  // ---------------------------------------------------------------------------

  function SizeOf(s: Sample, b: Buffer): nat {
    match b
    case ZeroBuffer => s.zeroSize
    case RandomBuffer => s.randomSize
    case FileBuffer(size) => size
  }

  // Every length appended is within its buffer.
  predicate Safe(s: Sample) {
    forall k, j :: 0 <= k < |s.requests| && 0 <= j < |s.requests[k]| ==>
      s.requests[k][j].length <= SizeOf(s, s.requests[k][j].buffer)
  }

  lemma {:induction false} MaxIsMost(inputs: seq<WarmupInput>, zero: bool, j: nat)
    requires j < |inputs| && if zero then UsesZero(inputs[j]) else UsesRandom(inputs[j])
    ensures ToInt64(Bytes(inputs[j])) <= MaxBytes(inputs, zero)
  {
    hide Bytes;
    if j < |inputs| - 1 { MaxIsMost(inputs[..|inputs| - 1], zero, j); }
  }

  // And the buffer is no larger than one of them needs.
  lemma {:induction false} MaxIsOne(inputs: seq<WarmupInput>, zero: bool) returns (j: nat)
    ensures MaxBytes(inputs, zero) > 0 ==>
      && j < |inputs| && MaxBytes(inputs, zero) == ToInt64(Bytes(inputs[j]))
      && if zero then inputs[j].data.Zero? || (inputs[j].data.Random? && inputs[j].isString)
         else inputs[j].data.Random? && !inputs[j].isString
  {
    hide Bytes;
    j := 0;
    if inputs != [] {
      var n := |inputs| - 1;
      j := MaxIsOne(inputs[..n], zero);
      if MaxBytes(inputs, zero) != MaxBytes(inputs[..n], zero) { j := n; }
    }
  }

  // The second pass stays within the buffers of the first exactly when no synthetic input has so many bytes that
  // the first pass takes their number for a negative one. Files are always long enough.
  lemma {:induction false} SampleSafe(x: Sample, s: Setting)
    requires Renders(x, s) && s.batchSize > 0 && forall k :: 0 <= k < |s.inputs| ==> Usable(s.inputs[k])
    ensures Safe(x) <==>
      forall j :: 0 <= j < |s.inputs| && (s.inputs[j].data.Zero? || s.inputs[j].data.Random?) ==>
        Bytes(s.inputs[j]) < INT64_LIMIT
  {
    hide Bytes;
    assert Holds(x.requests[0], s.inputs);
    forall k, j | 0 <= k < |x.requests| && 0 <= j < |s.inputs|
      ensures |x.requests[k]| == |s.inputs|
      ensures x.requests[k][j].length <= SizeOf(x, x.requests[k][j].buffer) <==>
        (s.inputs[j].data.Zero? || s.inputs[j].data.Random? ==> Bytes(s.inputs[j]) < INT64_LIMIT)
    {
      assert Holds(x.requests[k], s.inputs) && Carries(x.requests[k][j], s.inputs[j]) && Usable(s.inputs[j]);
      if UsesZero(s.inputs[j]) { MaxIsMost(s.inputs, true, j); }
      if UsesRandom(s.inputs[j]) { MaxIsMost(s.inputs, false, j); }
    }
  }

  // What a request holds, in numbers of bytes. Dimensions are taken to be of moderate size; elements without a size, as
  // strings are, count as four bytes.
  lemma {:induction false} BytesGiven(x: Sample, s: Setting, k: nat, j: nat)
    requires Renders(x, s) && Good(s) && k < s.batchSize && j < |s.inputs|
    requires var i := s.inputs[j]; i.dims != [] && 0 <= Product(i.dims)
    requires var i := s.inputs[j]; Product(i.dims) * i.elementSize < INT64_LIMIT && Product(i.dims) * 4 < INT64_LIMIT
    ensures |x.requests| == s.batchSize && |x.requests[k]| == |s.inputs|
    ensures var i, given := s.inputs[j], x.requests[k][j];
      var size := Product(i.dims) * if i.elementSize == 0 then 4 else i.elementSize;
      && (i.data.File? && i.isString ==>
           i.data.size.Some? && given == Appended(FileBuffer(i.data.size.value), i.data.size.value))
      && (i.data.File? && !i.isString ==>
           i.data.size.Some? && size <= i.data.size.value && given == Appended(FileBuffer(i.data.size.value), size))
      && (i.data.Zero? || (i.data.Random? && i.isString) ==> given == Appended(ZeroBuffer, size))
      && (i.data.Random? && !i.isString ==> given == Appended(RandomBuffer, size))
  {
    hide Bytes;
    var i := s.inputs[j];
    assert Holds(x.requests[k], s.inputs) && Carries(x.requests[k][j], i) && Usable(i) && -1 !in i.dims;
    NeverWildcard(i.dims);
    NonNegativeSafe(i);
  }

  // Dimensions that are not negative, and not too large, are always safe; a negative one other than -1 passes the
  // check of the first pass and is not.
  lemma {:induction false} NonNegativeSafe(i: WarmupInput)
    requires 0 <= ElementCount(i.dims) && ElementCount(i.dims) * i.elementSize < INT64_LIMIT
    requires ElementCount(i.dims) * SIZE_OF_INT32 < INT64_LIMIT
    ensures Bytes(i) < INT64_LIMIT
    ensures Bytes(i) == ElementCount(i.dims) * if i.elementSize == 0 then SIZE_OF_INT32 else i.elementSize
  {
    var c, e := ElementCount(i.dims), i.elementSize;
    assert c * e >= 0;
    if c > 0 && e > 0 { assert c * e > 0; }
  }

  lemma {:induction false} NegativeUnsafe(x: Sample)
    requires Renders(x, Setting("", 1, [WarmupInput([-2], 4, false, Zero, true)], true))
    ensures Good(Setting("", 1, [WarmupInput([-2], 4, false, Zero, true)], true)) && !Safe(x)
  {
    var i := WarmupInput([-2], 4, false, Zero, true);
    ProductOne(-2);
    assert ElementCount([-2]) == -2;
    SampleSafe(x, Setting("", 1, [i], true));
    assert [i][0] == i;
  }

  // ---------------------------------------------------------------------------

  datatype Callback = Unset | WithPromise | WithNothing

  // OnWarmup: the callback of the first request sets the promise that is waited for, the others set nothing.
  method SetCallbacks(s: Sample) returns (callbacks: seq<Callback>)
    requires |s.requests| > 0
    ensures |callbacks| == |s.requests|
    ensures forall k :: 0 <= k < |callbacks| ==> (callbacks[k] == WithPromise <==> k == 0) && callbacks[k] != Unset
  {
    callbacks := seq(|s.requests|, k => Unset);
    callbacks := callbacks[0 := WithPromise];
    for idx := 1 to |s.requests|
      invariant |callbacks| == |s.requests|
      invariant forall k :: 0 <= k < |callbacks| ==>
        callbacks[k] == if k == 0 then WithPromise else if k < idx then WithNothing else Unset
    {
      callbacks := callbacks[idx := WithNothing];
    }
  }

  // Every sample has at least one request, so that exactly one of them sets the promise.
  lemma {:induction false} SamplesHaveRequests(settings: seq<Setting>, i: nat, x: Sample)
    requires i < |Wanted(settings)| && Renders(x, Wanted(settings)[i])
    ensures |x.requests| == Wanted(settings)[i].batchSize >= 1
  {
    WantedAre(settings);
  }
}
