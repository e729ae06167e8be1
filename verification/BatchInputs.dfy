// Batch inputs: values computed from the shapes that an input has in the requests of a batch, such as the index
// into a ragged tensor. Values are 32-bit integers; a buffer is looked at as its whole words.

module BatchInputs {
  import opened Memory
  import opened Layout
  import opened Arithmetic
  import opened Shapes
  import opened GatherBooks

  datatype Kind = BatchElementCount | BatchAccumulated | BatchAccumulatedWithZero | BatchMaxAsShape

  datatype Status = Success | MissingInput | UnexpectedByteSize | CopyFailed

  // The shape the source input has in each request; None if a request has no such input.
  type InputShapes = seq<Option<seq<int>>>

  const WORD: nat := 4
  const INT32_MODULUS: int := 0x1_0000_0000

  // Conversion to int32_t.
  function ToInt32(v: int): (r: int)
    ensures -0x8000_0000 <= r < 0x8000_0000
    ensures -0x8000_0000 <= v < 0x8000_0000 ==> r == v
  {
    (v + 0x8000_0000) % INT32_MODULUS - 0x8000_0000
  }

  lemma {:induction false} ModUnique(a: int, b: int, m: int, q: int)
    requires m > 0 && a == b + q * m
    ensures a % m == b % m
  {
    var r := b % m;
    assert b == (b / m) * m + r;
    assert a == (b / m + q) * m + r;
    var k := b / m + q - a / m;
    assert a % m - r == k * m;
    assert -m < k * m < m;
    if k >= 1 { MulMonotone(1, k, m); }
    if k <= -1 { MulMonotone(1, -k, m); }
  }

  // Truncation can be done at the end: what is added may have been truncated before.
  lemma {:induction false} Int32Add(a: int, b: int)
    ensures ToInt32(ToInt32(a) + b) == ToInt32(a + b)
    ensures ToInt32(a + ToInt32(b)) == ToInt32(a + b)
    ensures ToInt32(ToSize(a + b)) == ToInt32(a + b)
  {
    Int32Multiple(a);
    Int32Multiple(b);
    var p, q := (a + 0x8000_0000) / INT32_MODULUS, (b + 0x8000_0000) / INT32_MODULUS;
    ModUnique(ToInt32(a) + b + 0x8000_0000, a + b + 0x8000_0000, INT32_MODULUS, -p);
    ModUnique(a + ToInt32(b) + 0x8000_0000, a + b + 0x8000_0000, INT32_MODULUS, -q);
    var s := (a + b) / SIZE_MODULUS;
    assert ToSize(a + b) == a + b - s * SIZE_MODULUS;
    assert s * SIZE_MODULUS == (s * INT32_MODULUS) * INT32_MODULUS;
    ModUnique(ToSize(a + b) + 0x8000_0000, a + b + 0x8000_0000, INT32_MODULUS, -(s * INT32_MODULUS));
  }

  lemma {:induction false} Int32Multiple(a: int)
    ensures ToInt32(a) == a - ((a + 0x8000_0000) / INT32_MODULUS) * INT32_MODULUS
  {}

  function Sum(counts: seq<int>, k: nat): int
    requires k <= |counts|
  {
    if k == 0 then 0 else Sum(counts, k - 1) + counts[k - 1]
  }

  // How many requests, from the front, have the input.
  function Present(shapes: InputShapes): (k: nat)
    ensures k <= |shapes| && (k < |shapes| ==> shapes[k].None?) && forall i :: 0 <= i < k ==> shapes[i].Some?
  {
    if shapes == [] || shapes[0].None? then 0 else 1 + Present(shapes[1..])
  }

  function Counts(shapes: InputShapes): (r: seq<int>)
    ensures |r| == Present(shapes) && forall i :: 0 <= i < |r| ==> r[i] == ElementCount(shapes[i].value)
  {
    seq(Present(shapes), i requires 0 <= i < Present(shapes) => ElementCount(shapes[i].value))
  }

  // A request without the input, or one without room for its value, whichever comes first, is an error.
  function Outcome(shapes: InputShapes, words: nat): Status {
    if Present(shapes) < |shapes| && Present(shapes) <= words then MissingInput
    else if |shapes| > words then UnexpectedByteSize
    else Success
  }

  // Word 'i' of an element count buffer, and of an accumulated element count buffer.
  function CountAt(counts: seq<int>, i: nat): int {
    if i < |counts| then ToInt32(counts[i]) else 0
  }

  function AccumulatedAt(counts: seq<int>, i: nat): int {
    ToInt32(Sum(counts, Min(i + 1, |counts|)))
  }

  // How many of the words are written.
  function Reached(shapes: InputShapes, words: nat): nat {
    if Outcome(shapes, words).Success? then words else Min(Present(shapes), words)
  }

  // A value for each word of a buffer.
  function ValueAt(counts: seq<int>, accumulated: bool, i: nat): int {
    if accumulated then AccumulatedAt(counts, i) else CountAt(counts, i)
  }

  // The 'n' words from 'from' on have got their values, and no other word has changed.
  ghost predicate Written(was: seq<int>, now: seq<int>, from: nat, n: nat, counts: seq<int>, accumulated: bool) {
    && |now| == |was| && from + n <= |now|
    && (forall i :: from <= i < from + n ==> now[i] == ValueAt(counts, accumulated, i - from))
    && (forall i :: 0 <= i < from || from + n <= i < |now| ==> now[i] == was[i])
  }

  lemma {:induction false} WrittenNext(was: seq<int>, now: seq<int>, from: nat, n: nat, counts: seq<int>,
      accumulated: bool, v: int)
    requires Written(was, now, from, n, counts, accumulated) && from + n < |now| && v == ValueAt(counts, accumulated, n)
    ensures Written(was, now[from + n := v], from, n + 1, counts, accumulated)
  {
    hide ValueAt;
  }

  // The words from 'from' on are the buffer.
  method SetElementCount(shapes: InputShapes, buf: array<int>, from: nat, byteSize: nat) returns (status: Status)
    requires from + byteSize / WORD <= buf.Length
    modifies buf
    ensures status == Outcome(shapes, byteSize / WORD)
    ensures Written(old(buf[..]), buf[..], from, Reached(shapes, byteSize / WORD), Counts(shapes), false)
  {
    hide ToInt32, Written, ElementCount;
    var offset := 0;
    ghost var counts := Counts(shapes);
    WrittenNone(buf[..], from, counts, false);
    for idx := 0 to |shapes|
      invariant offset == idx * WORD <= byteSize && idx <= Present(shapes)
      invariant Written(old(buf[..]), buf[..], from, idx, counts, false)
    {
      if shapes[idx].None? {
        return MissingInput;
      }
      if offset + WORD > byteSize {
        return UnexpectedByteSize;
      }
      var count := GetElementCount(shapes[idx].value);
      WrittenNext(old(buf[..]), buf[..], from, idx, counts, false, ToInt32(count));
      buf[from + idx] := ToInt32(count);
      offset := offset + WORD;
    }
    while offset + WORD <= byteSize
      invariant offset % WORD == 0 && |shapes| <= offset / WORD <= byteSize / WORD
      invariant Written(old(buf[..]), buf[..], from, offset / WORD, counts, false)
    {
      WrittenNext(old(buf[..]), buf[..], from, offset / WORD, counts, false, 0);
      buf[from + offset / WORD] := 0;
      offset := offset + WORD;
    }
    return Success;
  }

  lemma {:induction false} WrittenNone(was: seq<int>, from: nat, counts: seq<int>, accumulated: bool)
    requires from <= |was|
    ensures Written(was, was, from, 0, counts, accumulated)
  {}

  method SetAccumulatedElementCount(shapes: InputShapes, buf: array<int>, from: nat,
      byteSize: nat) returns (status: Status)
    requires from + byteSize / WORD <= buf.Length
    modifies buf
    ensures status == Outcome(shapes, byteSize / WORD)
    ensures Written(old(buf[..]), buf[..], from, Reached(shapes, byteSize / WORD), Counts(shapes), true)
  {
    hide ToInt32, ToSize, Written, ElementCount, Product;
    var accumulated: nat := 0;
    var offset := 0;
    ghost var counts := Counts(shapes);
    WrittenNone(buf[..], from, counts, true);
    for idx := 0 to |shapes|
      invariant offset == idx * WORD <= byteSize && idx <= Present(shapes)
      invariant accumulated == ToSize(Sum(counts, idx))
      invariant Written(old(buf[..]), buf[..], from, idx, counts, true)
    {
      if shapes[idx].None? {
        return MissingInput;
      }
      if offset + WORD > byteSize {
        return UnexpectedByteSize;
      }
      var count := GetElementCount(shapes[idx].value);
      SizeAdd(Sum(counts, idx), count);
      accumulated := ToSize(accumulated + ToSize(count));
      Int32Add(Sum(counts, idx), count);
      WrittenNext(old(buf[..]), buf[..], from, idx, counts, true, ToInt32(accumulated));
      buf[from + idx] := ToInt32(accumulated);
      offset := offset + WORD;
    }
    Int32Add(Sum(counts, |counts|), 0);
    while offset + WORD <= byteSize
      invariant offset % WORD == 0 && |shapes| <= offset / WORD <= byteSize / WORD
      invariant Written(old(buf[..]), buf[..], from, offset / WORD, counts, true)
    {
      WrittenNext(old(buf[..]), buf[..], from, offset / WORD, counts, true, ToInt32(accumulated));
      buf[from + offset / WORD] := ToInt32(accumulated);
      offset := offset + WORD;
    }
    return Success;
  }

  lemma {:induction false} SizeAdd(a: int, b: int)
    ensures ToSize(ToSize(a) + ToSize(b)) == ToSize(a + b)
  {
    ModUnique(ToSize(a) + ToSize(b), a + b, SIZE_MODULUS, -(a / SIZE_MODULUS) - b / SIZE_MODULUS);
  }

  // ---------------------------------------------------------------------------

  predicate IsMost(counts: seq<int>, most: int) {
    && 0 <= most && (forall i :: 0 <= i < |counts| ==> counts[i] <= most)
    && (most == 0 || most in counts)
  }

  // The one dimension of the batch input.
  method BatchInputShape(kind: Kind, shapes: InputShapes) returns (status: Status, dim: int)
    ensures kind.BatchElementCount? || kind.BatchAccumulated? ==> status.Success? && dim == |shapes|
    ensures kind.BatchAccumulatedWithZero? ==> status.Success? && dim == |shapes| + 1
    ensures kind.BatchMaxAsShape? ==>
      && status == (if Present(shapes) == |shapes| then Success else MissingInput)
      && IsMost(Counts(shapes), dim)
  {
    hide ElementCount;
    dim := 0;
    match kind
    case BatchElementCount => return Success, |shapes|;
    case BatchAccumulated => return Success, |shapes|;
    case BatchAccumulatedWithZero => return Success, |shapes| + 1;
    case BatchMaxAsShape =>
      for idx := 0 to |shapes|
        invariant idx <= Present(shapes) && IsMost(Counts(shapes)[..idx], dim)
      {
        if shapes[idx].None? {
          assert Counts(shapes)[..idx] == Counts(shapes);
          return MissingInput, dim;
        }
        var count := GetElementCount(shapes[idx].value);
        assert Counts(shapes)[..idx + 1] == Counts(shapes)[..idx] + [count];
        if count > dim {
          dim := count;
        }
      }
      assert Counts(shapes)[..|shapes|] == Counts(shapes);
      return Success, dim;
  }

  // Word 'i' of a batch input.
  function BatchValue(kind: Kind, counts: seq<int>, i: nat): int {
    match kind
    case BatchElementCount => CountAt(counts, i)
    case BatchAccumulated => AccumulatedAt(counts, i)
    case BatchAccumulatedWithZero => if i == 0 then 0 else AccumulatedAt(counts, i - 1)
    case BatchMaxAsShape => 0
  }

  // What becomes of the values, and how many words get one.
  function Result(kind: Kind, shapes: InputShapes, words: nat): (Status, nat) {
    match kind
    case BatchAccumulatedWithZero =>
      if words == 0 then (UnexpectedByteSize, 0) else (Outcome(shapes, words - 1), 1 + Reached(shapes, words - 1))
    case BatchMaxAsShape => (Success, 0)
    case _ => (Outcome(shapes, words), Reached(shapes, words))
  }

  // The words that get a value have it.
  ghost predicate Filled(kind: Kind, shapes: InputShapes, now: seq<int>) {
    var n := Result(kind, shapes, |now|).1;
    n <= |now| && forall i :: 0 <= i < n ==> now[i] == BatchValue(kind, Counts(shapes), i)
  }

  // The others are what they were.
  ghost predicate RestKept(kind: Kind, shapes: InputShapes, was: seq<int>, now: seq<int>) {
    |now| == |was| && forall i :: Result(kind, shapes, |now|).1 <= i < |now| ==> now[i] == was[i]
  }

  lemma {:induction false} WrittenFills(kind: Kind, shapes: InputShapes, was: seq<int>, now: seq<int>)
    requires match kind
             case BatchElementCount => Written(was, now, 0, Reached(shapes, |was|), Counts(shapes), false)
             case BatchAccumulated => Written(was, now, 0, Reached(shapes, |was|), Counts(shapes), true)
             case BatchAccumulatedWithZero =>
               |was| > 0 && Written(was[0 := 0], now, 1, Reached(shapes, |was| - 1), Counts(shapes), true)
             case BatchMaxAsShape => now == was
    ensures Filled(kind, shapes, now) && RestKept(kind, shapes, was, now)
  {
    hide Reached, Counts, CountAt, AccumulatedAt;
    var n := Result(kind, shapes, |now|).1;
    forall i | 0 <= i < n ensures now[i] == BatchValue(kind, Counts(shapes), i) {
      if kind.BatchAccumulatedWithZero? && i > 0 { assert now[i] == ValueAt(Counts(shapes), true, i - 1); }
    }
  }

  // Writes the values into a buffer that the host can write to.
  method FillBuffer(kind: Kind, shapes: InputShapes, buf: array<int>, byteSize: nat)
    requires buf.Length == byteSize / WORD
    requires kind.BatchAccumulatedWithZero? ==> byteSize >= WORD
    modifies buf
    ensures Filled(kind, shapes, buf[..]) && RestKept(kind, shapes, old(buf[..]), buf[..])
  {
    hide Written, Reached, Counts, Outcome, Filled, RestKept;
    match kind
    case BatchElementCount =>
      var status := SetElementCount(shapes, buf, 0, byteSize);
      WrittenFills(kind, shapes, old(buf[..]), buf[..]);
    case BatchAccumulated =>
      var status := SetAccumulatedElementCount(shapes, buf, 0, byteSize);
      WrittenFills(kind, shapes, old(buf[..]), buf[..]);
    case BatchAccumulatedWithZero =>
      buf[0] := 0;
      assert buf[..] == old(buf[..])[0 := 0];
      var status := SetAccumulatedElementCount(shapes, buf, 1, byteSize - WORD);
      WrittenFills(kind, shapes, old(buf[..]), buf[..]);
    case BatchMaxAsShape =>
      WrittenFills(kind, shapes, old(buf[..]), buf[..]);
  }

  // No word that should have a value has it.
  ghost predicate AllWrong(kind: Kind, shapes: InputShapes, now: seq<int>) {
    forall i :: 0 <= i < Result(kind, shapes, |now|).1 && i < |now| ==> now[i] != BatchValue(kind, Counts(shapes), i)
  }

  // The values go into a host buffer, and from there to the device if that is where they belong. Only that last
  // copy can be reported as failed: what SetElementCount and SetAccumulatedElementCount report is dropped. The host
  // buffer is given back on return, so what reaches the device is anything if the copy is 'late': if it has not
  // landed by then. On a hostile machine it never has, and all is wrong. 'buf' is what it is after the copy.
  method ProcessBatchInput(kind: Kind, shapes: InputShapes, buf: array<int>, byteSize: nat, memType: MemoryType,
      hostile: bool) returns (status: Status, late: bool)
    requires buf.Length == byteSize / WORD
    requires kind.BatchAccumulatedWithZero? ==> byteSize >= WORD
    modifies buf
    ensures status.Success? || (status.CopyFailed? && memType.Gpu? && buf[..] == old(buf[..]))
    ensures status.Success? && !late ==> Filled(kind, shapes, buf[..])
    ensures late ==> status.Success? && memType.Gpu? && !kind.BatchMaxAsShape?
    ensures hostile && status.Success? && memType.Gpu? && !kind.BatchMaxAsShape? ==>
      late && AllWrong(kind, shapes, buf[..])
    ensures status.Success? && !memType.Gpu? ==> RestKept(kind, shapes, old(buf[..]), buf[..])
  {
    late := false;
    if !memType.Gpu? {
      hide Filled, RestKept;
      FillBuffer(kind, shapes, buf, byteSize);
      return Success, late;
    }
    var internal := new int[buf.Length];
    FillBuffer(kind, shapes, internal, byteSize);
    if kind.BatchMaxAsShape? {
      return Success, late;
    }
    var copied: bool := *;
    if !copied {
      return CopyFailed, late;
    }
    late := *;
    late := late || hostile;
    if late { Overwrite(internal, hostile); }
    forall i | 0 <= i < buf.Length {
      buf[i] := internal[i];
    }
    assert buf[..] == internal[..];
    return Success, late;
  }

  // The buffer has been given back, and is written to by whoever got it next.
  method Overwrite(buf: array<int>, hostile: bool)
    modifies buf
    ensures hostile ==> forall i :: 0 <= i < buf.Length ==> buf[i] != old(buf[i])
  {
    for i := 0 to buf.Length
      invariant forall j :: i <= j < buf.Length ==> buf[j] == old(buf[j])
      invariant hostile ==> forall j :: 0 <= j < i ==> buf[j] != old(buf[j])
    {
      var word: int := *;
      buf[i] := if hostile && word == buf[i] then word + 1 else word;
    }
  }

  // ---------------------------------------------------------------------------
  // What the values mean

  // The sum of the first 'n' words of an element count buffer.
  function SumOfWords(counts: seq<int>, n: nat): int {
    if n == 0 then 0 else SumOfWords(counts, n - 1) + CountAt(counts, n - 1)
  }

  lemma {:induction false} WordsSum(counts: seq<int>, n: nat)
    ensures ToInt32(SumOfWords(counts, n)) == ToInt32(Sum(counts, Min(n, |counts|)))
  {
    hide ToInt32;
    if n > 0 {
      WordsSum(counts, n - 1);
      if n <= |counts| {
        Int32Add(SumOfWords(counts, n - 1), counts[n - 1]);
        Int32Add(SumOfWords(counts, n - 1), ToInt32(counts[n - 1]));
        Int32Add(Sum(counts, n - 1), counts[n - 1]);
      }
    }
  }

  // At every word, padding included, the accumulated buffer is the sum of the element count buffer up to there
  // (in 32-bit arithmetic), and the form with a zero in front is the same one word later.
  lemma {:induction false} AccumulatedSums(counts: seq<int>, i: nat)
    ensures BatchValue(BatchAccumulated, counts, i) == ToInt32(SumOfWords(counts, i + 1))
    ensures BatchValue(BatchAccumulatedWithZero, counts, i) == ToInt32(SumOfWords(counts, i))
    ensures BatchValue(BatchAccumulatedWithZero, counts, i + 1) == BatchValue(BatchAccumulated, counts, i)
  {
    hide ToInt32;
    WordsSum(counts, i + 1);
    WordsSum(counts, i);
    if i == 0 { ZeroFits(); }
  }

  lemma {:induction false} ZeroFits()
    ensures ToInt32(0) == 0
  {}

  // Every request's value is in the buffer exactly when every request has the input and the buffer has room. That
  // is not what the status says: it is Success in host memory whatever happens, for instance with no room at all.
  lemma {:induction false} AllThere(kind: Kind, shapes: InputShapes, words: nat)
    requires !kind.BatchMaxAsShape?
    ensures var zero := if kind.BatchAccumulatedWithZero? then 1 else 0;
      Result(kind, shapes, words).1 >= |shapes| + zero <==> Present(shapes) == |shapes| && |shapes| + zero <= words
    ensures Result(kind, shapes, words).0.Success? <==>
      Present(shapes) == |shapes| && |shapes| + (if kind.BatchAccumulatedWithZero? then 1 else 0) <= words
  {}

  // The error is the first that is met, request by request: an input that is not there is noticed before the room for
  // its value is looked at.
  lemma {:induction false} FirstError(shapes: InputShapes, words: nat)
    ensures Outcome(shapes, words).MissingInput? <==> exists k :: 0 <= k < |shapes| && MissesFirst(shapes, words, k)
    ensures Outcome(shapes, words).UnexpectedByteSize? <==>
      words < |shapes| && forall i :: 0 <= i <= words ==> shapes[i].Some?
    ensures !Outcome(shapes, words).CopyFailed?
  {
    if Present(shapes) < |shapes| && Present(shapes) <= words { assert MissesFirst(shapes, words, Present(shapes)); }
  }

  predicate MissesFirst(shapes: InputShapes, words: nat, k: nat) {
    k < |shapes| && k <= words && shapes[k].None? && forall i :: 0 <= i < k ==> shapes[i].Some?
  }

  // Success, though there is only room for the first of two values; and Success, though the request does not have
  // the input and the word is still what it was.
  method SilentFailure(word: int) returns (short: Status, one: seq<int>, missing: Status, kept: seq<int>)
    ensures short.Success? && one == [1] && !Result(BatchElementCount, [Some([1]), Some([1])], 1).0.Success?
    ensures missing.Success? && kept == [word] && !Result(BatchElementCount, [None], 1).0.Success?
  {
    OneElement();
    assert Present([Some([1]), Some([1])]) == 2 && Present([None]) == 0;
    var buf := new int[1](_ => word);
    var late;
    short, late := ProcessBatchInput(BatchElementCount, [Some([1]), Some([1])], buf, WORD, Cpu, false);
    one := buf[..];
    assert one[0] == CountAt(Counts([Some([1]), Some([1])]), 0);
    buf[0] := word;
    missing, late := ProcessBatchInput(BatchElementCount, [None], buf, WORD, Cpu, false);
    kept := buf[..];
  }

  // Success, and the one word that reaches the device is not the value.
  method StaleValue() returns (status: Status, word: int)
    ensures status.Success? ==> word != 1
  {
    OneElement();
    assert Present([Some([1])]) == 1;
    var buf := new int[1];
    var late;
    status, late := ProcessBatchInput(BatchElementCount, [Some([1])], buf, WORD, Gpu, true);
    word := buf[0];
    assert BatchValue(BatchElementCount, Counts([Some([1])]), 0) == 1;
    assert word == buf[..][0];
  }

  lemma {:induction false} OneElement()
    ensures ElementCount([1]) == 1 && ToInt32(1) == 1
  {
    assert [1][..0] == [];
  }

  // A buffer of the size BatchInputShape asks for never has too little room, and leaves no padding.
  lemma {:induction false} ShapeHasRoom(kind: Kind, shapes: InputShapes, dim: nat)
    requires !kind.BatchMaxAsShape? && dim == if kind.BatchAccumulatedWithZero? then |shapes| + 1 else |shapes|
    ensures ByteSize(WORD, [dim]) == dim * WORD
    ensures !Result(kind, shapes, ByteSize(WORD, [dim]) / WORD).0.UnexpectedByteSize?
    ensures Present(shapes) == |shapes| ==> Result(kind, shapes, ByteSize(WORD, [dim]) / WORD) == (Success, dim)
  {
    assert [dim][..0] == [];
    assert Product([dim]) == Product([]) * dim;
  }

  // The ragged index: with counts in range, request 'k' has the elements from number acc[k] to number acc[k + 1].
  lemma {:induction false} RaggedOffsets(parts: seq<seq<byte>>, counts: seq<int>, elementSize: nat, k: nat)
    requires k <= |parts| == |counts| && Sum(counts, |counts|) < 0x8000_0000
    requires forall j :: 0 <= j < |counts| ==> 0 <= counts[j] && |parts[j]| == counts[j] * elementSize
    ensures 0 <= BatchValue(BatchAccumulatedWithZero, counts, k) <= Sum(counts, |counts|)
    ensures BatchValue(BatchAccumulatedWithZero, counts, k) == Sum(counts, k)
    ensures BatchValue(BatchAccumulatedWithZero, counts, k) * elementSize == Off(parts, k)
  {
    SumBounds(counts, k);
    SumBytes(parts, counts, elementSize, k);
  }

  lemma {:induction false} SumBounds(counts: seq<int>, k: nat)
    requires k <= |counts| && forall j :: 0 <= j < |counts| ==> 0 <= counts[j]
    ensures 0 <= Sum(counts, k) <= Sum(counts, |counts|)
    decreases |counts| - k
  {
    if k < |counts| { SumBounds(counts, k + 1); }
    SumPositive(counts, k);
  }

  lemma {:induction false} SumPositive(counts: seq<int>, k: nat)
    requires k <= |counts| && forall j :: 0 <= j < |counts| ==> 0 <= counts[j]
    ensures 0 <= Sum(counts, k)
  {
    if k > 0 { SumPositive(counts, k - 1); }
  }

  lemma {:induction false} SumBytes(parts: seq<seq<byte>>, counts: seq<int>, elementSize: nat, k: nat)
    requires k <= |parts| == |counts| && forall j :: 0 <= j < |counts| ==> |parts[j]| == counts[j] * elementSize
    ensures Sum(counts, k) * elementSize == Off(parts, k)
  {
    if k > 0 {
      SumBytes(parts, counts, elementSize, k - 1);
      assert Sum(counts, k) * elementSize == Sum(counts, k - 1) * elementSize + counts[k - 1] * elementSize;
    }
  }

  // The gathered tensor between two neighbours of the index is the input of the request.
  lemma {:induction false} RaggedAgrees(parts: seq<seq<byte>>, counts: seq<int>, elementSize: nat,
                                        initial: seq<byte>, block: seq<byte>, live: seq<bool>, k: nat)
    requires k < |parts| == |counts| && Sum(counts, |counts|) < 0x8000_0000
    requires forall j :: 0 <= j < |counts| ==> 0 <= counts[j] && |parts[j]| == counts[j] * elementSize
    requires Delivered(parts, initial, block, live) && live[k] && Total(parts) <= |initial|
    ensures var lo, hi := BatchValue(BatchAccumulatedWithZero, counts, k) * elementSize,
                          BatchValue(BatchAccumulatedWithZero, counts, k + 1) * elementSize;
      0 <= lo <= hi <= |block| && block[lo..hi] == parts[k]
  {
    RaggedOffsets(parts, counts, elementSize, k);
    RaggedOffsets(parts, counts, elementSize, k + 1);
    hide BatchValue;
    OffMonotone(parts, k + 1, |parts|);
    OffMonotone(parts, k, k + 1);
    assert parts[k] == parts[k];
  }
}
