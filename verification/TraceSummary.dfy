// The trace summary: which traces belong to a frontend, and how long their spans take in total.

module TraceSummary {
  import opened Memory

  datatype Frontend = NoFrontend | Http | Grpc

  // The names of timestamps that are looked for, and all the others.
  datatype Tag =
    | RequestStart | RequestEnd | QueueStart | ComputeStart | ComputeInputEnd | ComputeOutputStart | ComputeEnd
    | HttpRecvStart | HttpRecvEnd | HttpSendStart | HttpSendEnd
    | GrpcWaitReadStart | GrpcWaitReadEnd | GrpcSendStart | GrpcSendEnd
    | Other(name: string)

  datatype Stamp = Stamp(tag: Tag, ns: int)

  // A record of a trace file. Several of them may have the same id.
  datatype Record = Record(
    id: Option<int>, parent: Option<int>, model: Option<string>, version: Option<int>, stamps: Option<seq<Stamp>>)

  // What is kept of all records of an id.
  datatype Trace = Trace(model: Option<string>, version: Option<int>, stamps: seq<Stamp>)

  function FilterName(f: Frontend): string {
    match f
    case NoFrontend => ""
    case Http => "HTTP_RECV_START"
    case Grpc => "GRPC_WAITREAD_START"
  }

  predicate Contains(s: string, part: string) {
    exists i :: 0 <= i <= |s| && part <= s[i..]
  }

  // Whether the name of the timestamp contains the one that marks a request of the frontend.
  predicate Marks(f: Frontend, tag: Tag) {
    match f
    case NoFrontend => false
    case Http => tag.HttpRecvStart? || (tag.Other? && Contains(tag.name, FilterName(f)))
    case Grpc => tag.GrpcWaitReadStart? || (tag.Other? && Contains(tag.name, FilterName(f)))
  }

  predicate Marked(f: Frontend, r: Record) {
    r.stamps.Some? && exists i :: 0 <= i < |r.stamps.value| && Marks(f, r.stamps.value[i].tag)
  }

  // ---------------------------------------------------------------------------
  // Sorting by id

  function Key(r: Record): int {
    if r.id.Some? then r.id.value else -1
  }

  predicate SortedById(rs: seq<Record>) {
    forall i, j :: 0 <= i < j < |rs| ==> Key(rs[i]) <= Key(rs[j])
  }

  function InsertById(r: Record, rs: seq<Record>): (s: seq<Record>) {
    if rs == [] || Key(r) < Key(rs[0]) then [r] + rs else [rs[0]] + InsertById(r, rs[1..])
  }

  // Records of the same id stay in their order.
  function SortById(rs: seq<Record>): (s: seq<Record>) {
    if rs == [] then [] else InsertById(rs[|rs| - 1], SortById(rs[..|rs| - 1]))
  }

  lemma {:induction false} SortedFront(r: Record, rs: seq<Record>)
    requires SortedById(rs) && forall x :: x in rs ==> Key(r) <= Key(x)
    ensures SortedById([r] + rs)
  {
    var s := [r] + rs;
    forall i, j | 0 <= i < j < |s| ensures Key(s[i]) <= Key(s[j]) { assert s[j] in rs; }
  }

  lemma {:induction false} LeastFirst(rs: seq<Record>)
    requires SortedById(rs)
    ensures rs != [] ==> SortedById(rs[1..]) && forall x :: x in rs ==> Key(rs[0]) <= Key(x)
  {}

  lemma {:induction false} InsertSorted(r: Record, rs: seq<Record>)
    requires SortedById(rs)
    ensures SortedById(InsertById(r, rs)) && multiset(InsertById(r, rs)) == multiset(rs) + multiset{r}
  {
    hide SortedById;
    if rs == [] || Key(r) < Key(rs[0]) {
      LeastFirst(rs);
      SortedFront(r, rs);
    } else {
      assert rs == [rs[0]] + rs[1..];
      LeastFirst(rs);
      InsertSorted(r, rs[1..]);
      var s := InsertById(r, rs[1..]);
      forall x | x in s ensures Key(rs[0]) <= Key(x) {
        assert x in multiset(s);
        if x != r { assert x in multiset(rs[1..]); }
      }
      SortedFront(rs[0], s);
    }
  }

  lemma {:induction false} SortSorted(rs: seq<Record>)
    ensures SortedById(SortById(rs)) && multiset(SortById(rs)) == multiset(rs)
  {
    if rs != [] {
      SortSorted(rs[..|rs| - 1]);
      InsertSorted(rs[|rs| - 1], SortById(rs[..|rs| - 1]));
      assert rs == rs[..|rs| - 1] + [rs[|rs| - 1]];
    }
  }

  // The records of one key, in their order.
  function WithKey(rs: seq<Record>, key: int): seq<Record> {
    if rs == [] then [] else (if Key(rs[0]) == key then [rs[0]] else []) + WithKey(rs[1..], key)
  }

  lemma {:induction false} WithKeyAppend(a: seq<Record>, b: seq<Record>, key: int)
    ensures WithKey(a + b, key) == WithKey(a, key) + WithKey(b, key)
  {
    if a == [] {
      assert a + b == b;
    } else {
      var head := if Key(a[0]) == key then [a[0]] else [];
      assert (a + b)[0] == a[0] && (a + b)[1..] == a[1..] + b;
      WithKeyAppend(a[1..], b, key);
      assert head + (WithKey(a[1..], key) + WithKey(b, key)) == head + WithKey(a[1..], key) + WithKey(b, key);
    }
  }

  lemma {:induction false} InsertLast(r: Record, rs: seq<Record>, key: int)
    requires SortedById(rs)
    ensures WithKey(InsertById(r, rs), key) == WithKey(rs, key) + WithKey([r], key)
  {
    hide WithKey, Key;
    LeastFirst(rs);
    if rs == [] || Key(r) < Key(rs[0]) {
      assert InsertById(r, rs) == [r] + rs;
      WithKeyAppend([r], rs, key);
      NotBoth(r, rs, key);
    } else {
      var first, rest := [rs[0]], rs[1..];
      InsertLast(r, rest, key);
      assert InsertById(r, rs) == first + InsertById(r, rest) && rs == first + rest;
      WithKeyAppend(first, InsertById(r, rest), key);
      WithKeyAppend(first, rest, key);
    }
  }

  // Only one of the two has records of the key.
  lemma {:induction false} NotBoth(r: Record, rs: seq<Record>, key: int)
    requires forall x :: x in rs ==> Key(r) < Key(x)
    ensures WithKey([r], key) == [] || WithKey(rs, key) == []
  {
    if key == Key(r) { NoneWithKey(rs, key); }
  }

  lemma {:induction false} NoneWithKey(rs: seq<Record>, key: int)
    requires forall x :: x in rs ==> Key(x) != key
    ensures WithKey(rs, key) == []
  {
    if rs != [] { NoneWithKey(rs[1..], key); }
  }

  // Sorting is stable.
  lemma {:induction false} SortStable(rs: seq<Record>, key: int)
    ensures WithKey(SortById(rs), key) == WithKey(rs, key)
  {
    if rs != [] {
      var rest, last := rs[..|rs| - 1], rs[|rs| - 1];
      SortSorted(rest);
      SortStable(rest, key);
      InsertLast(last, SortById(rest), key);
      WithKeyAppend(rest, [last], key);
      assert rs == rest + [last];
    }
  }

  // ---------------------------------------------------------------------------
  // Selection

  // Whether the record at hand makes its id one of the frontend's, given the ids so far.
  predicate Joins(f: Frontend, r: Record, matched: set<int>) {
    r.id.Some? && if r.parent.None? then Marked(f, r) else r.parent.value in matched
  }

  // Whether it is kept.
  predicate Keeps(f: Frontend, r: Record, matched: set<int>) {
    && r.id.Some?
    && if r.parent.None? then !f.NoFrontend? && (Marked(f, r) || r.id.value in matched) else r.parent.value in matched
  }

  // The ids of the frontend, and the records kept, after the first 'n' records.
  function Matched(f: Frontend, rs: seq<Record>, n: nat): set<int>
    requires n <= |rs|
  {
    if n == 0 then {}
    else
      var was := Matched(f, rs, n - 1);
      if Joins(f, rs[n - 1], was) then was + {rs[n - 1].id.value} else was
  }

  function KeptRecords(f: Frontend, rs: seq<Record>, n: nat): (r: seq<Record>)
    requires n <= |rs|
    ensures forall i :: 0 <= i < |r| ==> r[i].id.Some?
  {
    if n == 0 then []
    else
      var was := KeptRecords(f, rs, n - 1);
      if Keeps(f, rs[n - 1], Matched(f, rs, n - 1)) then was + [rs[n - 1]] else was
  }

  // All that the records of an id say, later models and versions taking over.
  function Merged(kept: seq<Record>, id: int): Trace {
    if kept == [] then Trace(None, None, [])
    else
      var was, r := Merged(kept[..|kept| - 1], id), kept[|kept| - 1];
      if r.id != Some(id) then was
      else Trace(if r.model.Some? then r.model else was.model, if r.version.Some? then r.version else was.version,
                 was.stamps + if r.stamps.Some? then r.stamps.value else [])
  }

  predicate HasId(kept: seq<Record>, id: int) {
    exists i :: 0 <= i < |kept| && kept[i].id == Some(id)
  }

  lemma {:induction false} HasIdMore(kept: seq<Record>, r: Record, id: int)
    ensures HasId(kept + [r], id) <==> HasId(kept, id) || r.id == Some(id)
  {
    if HasId(kept, id) {
      var i :| 0 <= i < |kept| && kept[i].id == Some(id);
      assert (kept + [r])[i].id == Some(id);
    }
    if r.id == Some(id) { assert (kept + [r])[|kept|].id == Some(id); }
  }

  // An id with no kept record has nothing merged.
  lemma {:induction false} MergedNothing(kept: seq<Record>, id: int)
    requires !HasId(kept, id)
    ensures Merged(kept, id) == Trace(None, None, [])
  {
    if kept != [] {
      assert kept == kept[..|kept| - 1] + [kept[|kept| - 1]];
      HasIdMore(kept[..|kept| - 1], kept[|kept| - 1], id);
      MergedNothing(kept[..|kept| - 1], id);
    }
  }

  // The ids found by one pass over the records, sorted by id.
  function Selected(f: Frontend, traces: seq<Record>): set<int> {
    var rs := SortById(traces);
    Matched(f, rs, |rs|)
  }

  // What is kept of each id is what its kept records say.
  ghost predicate Filters(filtered: map<int, Trace>, kept: seq<Record>) {
    && (forall id :: id in filtered <==> HasId(kept, id))
    && (forall id :: id in filtered ==> filtered[id] == Merged(kept, id))
  }

  // Each of the ids once: the order in which they have been put into the dictionary.
  ghost predicate Lists(order: seq<int>, ids: set<int>) {
    && (forall i, j :: 0 <= i < j < |order| ==> order[i] != order[j])
    && (forall id :: id in order <==> id in ids)
  }

  // The first half of summarize: one pass over the records, sorted by id.
  method Select(f: Frontend, traces: seq<Record>)
    returns (matched: set<int>, filtered: map<int, Trace>, order: seq<int>)
    ensures matched == Selected(f, traces)
    ensures Filters(filtered, KeptRecords(f, SortById(traces), |SortById(traces)|))
    ensures Lists(order, filtered.Keys)
  {
    hide Filters, SortById;
    var rs := SortById(traces);
    matched, filtered, order := {}, map[], [];
    assert Filters(filtered, []) by { NothingFiltered(); }
    for n := 0 to |rs|
      invariant matched == Matched(f, rs, n)
      invariant Filters(filtered, KeptRecords(f, rs, n))
      invariant Lists(order, filtered.Keys)
    {
      var trace := rs[n];
      if trace.id.None? {
        continue;
      }
      var addTrace := false;
      if trace.parent.None? {
        if f.NoFrontend? {
          continue;
        }
        if trace.stamps.Some? {
          matched := MarkAll(f, trace, matched);
        }
        addTrace := trace.id.value in matched;
      } else if trace.parent.value in matched {
        matched := matched + {trace.id.value};
        addTrace := true;
      }
      if addTrace {
        if trace.id.value !in filtered {
          order := order + [trace.id.value];
        }
        filtered := Keep(filtered, trace, KeptRecords(f, rs, n));
      }
    }
  }

  lemma {:induction false} NothingFiltered()
    ensures Filters(map[], [])
  {}

  // A record is added to the trace of its id, or represents it from now on.
  method Keep(filtered: map<int, Trace>, trace: Record, ghost kept: seq<Record>) returns (r: map<int, Trace>)
    requires Filters(filtered, kept) && trace.id.Some?
    ensures Filters(r, kept + [trace]) && r.Keys == filtered.Keys + {trace.id.value}
  {
    var id := trace.id.value;
    forall x ensures HasId(kept + [trace], x) <==> HasId(kept, x) || x == id { HasIdMore(kept, trace, x); }
    forall x ensures x != id ==> Merged(kept + [trace], x) == Merged(kept, x) {
      assert (kept + [trace])[..|kept|] == kept;
    }
    assert (kept + [trace])[..|kept|] == kept;
    if id in filtered {
      var rep := filtered[id];
      if trace.model.Some? { rep := rep.(model := trace.model); }
      if trace.version.Some? { rep := rep.(version := trace.version); }
      if trace.stamps.Some? { rep := rep.(stamps := rep.stamps + trace.stamps.value); }
      return filtered[id := rep];
    }
    MergedNothing(kept, id);
    return filtered[id := Trace(trace.model, trace.version, if trace.stamps.Some? then trace.stamps.value else [])];
  }

  method MarkAll(f: Frontend, trace: Record, matched: set<int>) returns (r: set<int>)
    requires trace.id.Some? && trace.stamps.Some?
    ensures r == if Marked(f, trace) then matched + {trace.id.value} else matched
  {
    r := matched;
    for i := 0 to |trace.stamps.value|
      invariant r ==
        if exists j :: 0 <= j < i && Marks(f, trace.stamps.value[j].tag) then matched + {trace.id.value} else matched
    {
      if Marks(f, trace.stamps.value[i].tag) {
        r := r + {trace.id.value};
      }
    }
  }

  // ---------------------------------------------------------------------------
  // What is selected

  // 'ids' has the roots that the frontend has marked, and the children of all its members.
  ghost predicate Closed(f: Frontend, rs: seq<Record>, ids: set<int>) {
    forall r :: r in rs && Joins(f, r, ids) ==> r.id.value in ids
  }

  ghost predicate IsLeast(f: Frontend, rs: seq<Record>, ids: set<int>) {
    Closed(f, rs, ids) && forall other :: Closed(f, rs, other) ==> ids <= other
  }

  // Ids are given out in increasing order, so that no parent has a greater one than its children.
  ghost predicate ParentsFirst(rs: seq<Record>) {
    forall r :: r in rs && r.id.Some? && r.parent.Some? ==> r.parent.value <= r.id.value
  }

  // Whatever the order of the records, no id is matched without reason.
  lemma {:induction false} MatchedSound(f: Frontend, rs: seq<Record>, n: nat, ids: set<int>)
    requires n <= |rs| && Closed(f, rs, ids)
    ensures Matched(f, rs, n) <= ids
  {
    if n > 0 {
      MatchedSound(f, rs, n - 1, ids);
      if Joins(f, rs[n - 1], Matched(f, rs, n - 1)) { assert Joins(f, rs[n - 1], ids); }
    }
  }

  lemma {:induction false} MatchedGrows(f: Frontend, rs: seq<Record>, n: nat, m: nat)
    requires n <= m <= |rs|
    ensures Matched(f, rs, n) <= Matched(f, rs, m)
    decreases m
  {
    if n < m { MatchedGrows(f, rs, n, m - 1); }
  }

  // A matched id has been matched at a record of its own.
  lemma {:induction false} MatchedAt(f: Frontend, rs: seq<Record>, n: nat, id: int) returns (i: nat)
    requires n <= |rs| && id in Matched(f, rs, n)
    ensures i < n && rs[i].id == Some(id) && Joins(f, rs[i], Matched(f, rs, i))
    ensures id in Matched(f, rs, i + 1) && id !in Matched(f, rs, i)
  {
    if id in Matched(f, rs, n - 1) { i := MatchedAt(f, rs, n - 1, id); } else { i := n - 1; }
  }

  // The id has a reason to be selected that one pass over the sorted records can see: a record that makes it a
  // root of the frontend, or the child of a smaller id.
  ghost predicate Evident(f: Frontend, rs: seq<Record>, ids: set<int>, id: int) {
    exists r :: r in rs && r.id == Some(id) && Shows(f, r, ids)
  }

  predicate Shows(f: Frontend, r: Record, ids: set<int>) {
    r.id.Some? && if r.parent.None? then Marked(f, r) else r.parent.value in ids && r.parent.value < r.id.value
  }

  // Records from which an id has been matched before, in the sorted order.
  lemma {:induction false} SmallerFirst(f: Frontend, rs: seq<Record>, i: nat, p: int)
    requires SortedById(rs) && i < |rs| && rs[i].id.Some? && p < rs[i].id.value && p in Matched(f, rs, |rs|)
    ensures p in Matched(f, rs, i)
  {
    var j := MatchedAt(f, rs, |rs|, p);
    assert Key(rs[j]) < Key(rs[i]);
    MatchedGrows(f, rs, j + 1, i);
  }

  lemma {:induction false} MatchedEvident(f: Frontend, rs: seq<Record>, id: int)
    requires SortedById(rs) && id in Matched(f, rs, |rs|)
    ensures Evident(f, rs, Matched(f, rs, |rs|), id)
  {
    var i := MatchedAt(f, rs, |rs|, id);
    MatchedGrows(f, rs, i, |rs|);
    if rs[i].parent.Some? {
      var j := MatchedAt(f, rs, i, rs[i].parent.value);
      assert Key(rs[j]) <= Key(rs[i]);
    }
    assert Shows(f, rs[i], Matched(f, rs, |rs|));
  }

  function Smaller(ids: set<int>, id: int): set<int> {
    set x | x in ids && x < id
  }

  lemma {:induction false} EvidentMatched(f: Frontend, rs: seq<Record>, ids: set<int>, id: int)
    requires SortedById(rs) && (forall x :: x in ids ==> Evident(f, rs, ids, x)) && id in ids
    ensures id in Matched(f, rs, |rs|)
    decreases |Smaller(ids, id)|
  {
    hide SortedById, Marked, Matched;
    assert Evident(f, rs, ids, id);
    var r :| r in rs && r.id == Some(id) && Shows(f, r, ids);
    var i :| 0 <= i < |rs| && rs[i] == r;
    if r.parent.Some? {
      SmallerLess(ids, r.parent.value, id);
      EvidentMatched(f, rs, ids, r.parent.value);
      SmallerFirst(f, rs, i, r.parent.value);
    }
    MatchedStep(f, rs, i);
    MatchedGrows(f, rs, i + 1, |rs|);
  }

  lemma {:induction false} MatchedStep(f: Frontend, rs: seq<Record>, i: nat)
    requires i < |rs| && Joins(f, rs[i], Matched(f, rs, i))
    ensures rs[i].id.value in Matched(f, rs, i + 1)
  {}

  lemma {:induction false} SmallerLess(ids: set<int>, p: int, id: int)
    requires p in ids && p < id
    ensures |Smaller(ids, p)| < |Smaller(ids, id)|
  {
    var a, b := Smaller(ids, p), Smaller(ids, id);
    assert p in b && p !in a;
    var rest := b - a;
    assert b == a + rest && p in rest;
  }

  // One pass over the records sorted by id finds the least closed set if and only if every member of that set is
  // evident: marked itself, or the child of a smaller member.
  lemma {:induction false} OnePassExact(f: Frontend, traces: seq<Record>, ids: set<int>)
    requires IsLeast(f, traces, ids)
    ensures Selected(f, traces) == ids <==> forall id :: id in ids ==> Evident(f, traces, ids, id)
  {
    var rs := SortById(traces);
    SortSorted(traces);
    SameRecords(rs, traces);
    hide SortById, Marked, Shows, IsLeast;
    LeastClosed(f, traces, ids);
    MatchedSound(f, rs, |rs|, ids);
    if Selected(f, traces) == ids {
      forall id | id in ids ensures Evident(f, traces, ids, id) { MatchedEvident(f, rs, id); }
    }
    if forall id :: id in ids ==> Evident(f, traces, ids, id) {
      forall id | id in ids ensures Evident(f, rs, ids, id) { assert Evident(f, traces, ids, id); }
      forall id | id in ids ensures id in Matched(f, rs, |rs|) { EvidentMatched(f, rs, ids, id); }
    }
  }

  lemma {:induction false} LeastClosed(f: Frontend, rs: seq<Record>, ids: set<int>)
    requires IsLeast(f, rs, ids)
    ensures Closed(f, rs, ids)
  {}

  // If no parent has a greater id than its child, as the ids the server gives out, that is always so.
  lemma {:induction false} OnePassIsLeast(f: Frontend, traces: seq<Record>)
    requires ParentsFirst(traces)
    ensures IsLeast(f, traces, Selected(f, traces))
  {
    var ids := LeastBelow(f, traces, set r | r in traces && r.id.Some? :: r.id.value);
    OnePassExact(f, traces, ids);
    forall id | id in ids ensures Evident(f, traces, ids, id) {
      if !Evident(f, traces, ids, id) { WithoutIsClosed(f, traces, ids, id); }
    }
  }

  // There is a least closed set within any closed one.
  lemma {:induction false} LeastBelow(f: Frontend, rs: seq<Record>, ids: set<int>) returns (least: set<int>)
    requires Closed(f, rs, ids)
    ensures IsLeast(f, rs, least)
    decreases |ids|
  {
    if other :| Closed(f, rs, other) && !(ids <= other) {
      forall r | r in rs && Joins(f, r, ids * other) ensures r.id.value in ids * other {
        assert Joins(f, r, ids) && Joins(f, r, other);
      }
      assert ids == ids * other + (ids - other) && ids - other != {};
      least := LeastBelow(f, rs, ids * other);
    } else {
      least := ids;
    }
  }

  // A member that is not evident is not needed: the set without it is closed too.
  lemma {:induction false} WithoutIsClosed(f: Frontend, rs: seq<Record>, ids: set<int>, id: int)
    requires Closed(f, rs, ids) && ParentsFirst(rs) && !Evident(f, rs, ids, id)
    ensures Closed(f, rs, ids - {id})
  {
    forall r | r in rs && Joins(f, r, ids - {id}) ensures r.id.value in ids - {id} {
      assert Joins(f, r, ids);
      if r.id.value == id { assert Shows(f, r, ids); }
    }
  }

  lemma {:induction false} SameRecords(a: seq<Record>, b: seq<Record>)
    requires multiset(a) == multiset(b)
    ensures forall r :: r in a <==> r in b
  {
    forall r ensures r in a <==> r in b { assert r in multiset(a) <==> r in multiset(b); }
  }

  // A child that comes before its parent is missed.
  lemma {:induction false} ChildFirst(f: Frontend, root: Record, child: Record)
    requires root.id == Some(2) && root.parent.None? && Marked(f, root) && !f.NoFrontend?
    requires child.id == Some(1) && child.parent == Some(2)
    ensures Selected(f, [root, child]) == {2} && !Closed(f, [root, child], {2})
  {
    var rs := [root, child];
    assert rs[..1] == [root] && [root][..0] == [];
    assert SortById([root]) == InsertById(root, SortById([])) == [root];
    assert SortById(rs) == InsertById(child, SortById([root])) == [child, root];
    var sorted := SortById(rs);
    assert Matched(f, sorted, 1) == {};
    assert child in rs && Joins(f, child, {2});
  }

  // Every kept record has a matched id, so that no trace is ever taken out again.
  lemma {:induction false} KeptMatched(f: Frontend, rs: seq<Record>, n: nat, id: int)
    requires n <= |rs|
    ensures HasId(KeptRecords(f, rs, n), id) <==> id in Matched(f, rs, n)
  {
    if n > 0 {
      KeptMatched(f, rs, n - 1, id);
      HasIdMore(KeptRecords(f, rs, n - 1), rs[n - 1], id);
      if rs[n - 1].id.Some? && rs[n - 1].id.value != id { KeptMatched(f, rs, n - 1, rs[n - 1].id.value); }
    }
  }

  // ---------------------------------------------------------------------------
  // The same, in the words of the records

  // The name of a timestamp, as the files have it.
  function TagName(tag: Tag): string {
    match tag
    case RequestStart => "REQUEST_START"
    case RequestEnd => "REQUEST_END"
    case QueueStart => "QUEUE_START"
    case ComputeStart => "COMPUTE_START"
    case ComputeInputEnd => "COMPUTE_INPUT_END"
    case ComputeOutputStart => "COMPUTE_OUTPUT_START"
    case ComputeEnd => "COMPUTE_END"
    case HttpRecvStart => "HTTP_RECV_START"
    case HttpRecvEnd => "HTTP_RECV_END"
    case HttpSendStart => "HTTP_SEND_START"
    case HttpSendEnd => "HTTP_SEND_END"
    case GrpcWaitReadStart => "GRPC_WAITREAD_START"
    case GrpcWaitReadEnd => "GRPC_WAITREAD_END"
    case GrpcSendStart => "GRPC_SEND_START"
    case GrpcSendEnd => "GRPC_SEND_END"
    case Other(name) => name
  }

  // The name that marks a request of the frontend occurs in the name of the timestamp.
  predicate Named(f: Frontend, tag: Tag) {
    match f
    case NoFrontend => false
    case Http => Contains(TagName(tag), "HTTP_RECV_START")
    case Grpc => Contains(TagName(tag), "GRPC_WAITREAD_START")
  }

  lemma {:induction false} MarksByName(f: Frontend, tag: Tag)
    ensures Marks(f, tag) <==> Named(f, tag)
  {
    if tag.HttpRecvStart? { Itself("HTTP_RECV_START"); }
    if tag.GrpcWaitReadStart? { Itself("GRPC_WAITREAD_START"); }
    if !tag.Other? {
      if f.Http? && !tag.HttpRecvStart? { OtherThanHttp(tag); }
      if f.Grpc? && !tag.GrpcWaitReadStart? { OtherThanGrpc(tag); }
    }
  }

  lemma {:induction false} OtherThanHttp(tag: Tag)
    requires !tag.Other? && !tag.HttpRecvStart?
    ensures !Contains(TagName(tag), "HTTP_RECV_START")
  {
    NotIn(TagName(tag), "HTTP_RECV_START");
  }

  lemma {:induction false} OtherThanGrpc(tag: Tag)
    requires !tag.Other? && !tag.GrpcWaitReadStart?
    ensures !Contains(TagName(tag), "GRPC_WAITREAD_START")
  {
    NotIn(TagName(tag), "GRPC_WAITREAD_START");
  }

  lemma {:induction false} Itself(name: string)
    ensures Contains(name, name)
  {
    assert name[0..] == name;
  }

  // A name that the part does not fit in, or whose letters differ wherever it does.
  lemma {:induction false} NotIn(name: string, part: string)
    requires |part| > 5
    requires forall i :: 0 <= i && i + |part| <= |name| ==> name[i] != part[0] || name[i + 5] != part[5]
    ensures !Contains(name, part)
  {
    if i :| 0 <= i <= |name| && part <= name[i..] {
      Letters(name, part, i);
      assert false;
    }
  }

  lemma {:induction false} Letters(name: string, part: string, i: nat)
    requires |part| > 5 && i <= |name| && part <= name[i..]
    ensures i + |part| <= |name| && name[i] == part[0] && name[i + 5] == part[5]
  {
    var rest := name[i..];
    assert rest[0] == part[0] && rest[5] == part[5];
  }

  // The records an id has been kept from, and what is put together from them.
  lemma {:induction false} KeptNext(f: Frontend, rs: seq<Record>, n: nat)
    requires n < |rs|
    ensures var r, kept := rs[n], KeptRecords(f, rs, n);
      KeptRecords(f, rs, n + 1) ==
        if r.id.Some? && (if r.parent.Some? then r.parent.value in Matched(f, rs, n)
                          else r.id.value in Matched(f, rs, n + 1)) then kept + [r] else kept
  {
    if f.NoFrontend? { NothingMatched(rs, n + 1); }
  }

  lemma {:induction false} NothingMatched(rs: seq<Record>, n: nat)
    requires n <= |rs|
    ensures Matched(NoFrontend, rs, n) == {}
  {
    if n > 0 { NothingMatched(rs, n - 1); }
  }

  // A set of ids is closed if it has every id one of whose root records has a timestamp whose name contains the
  // frontend's, and every id that a record gives a parent in the set.
  lemma {:induction false} ClosedByName(f: Frontend, rs: seq<Record>, ids: set<int>)
    ensures Closed(f, rs, ids) <==>
      && (forall r :: r in rs && r.id.Some? && r.parent.None? && HasName(f, r) ==> r.id.value in ids)
      && (forall r :: r in rs && r.id.Some? && r.parent.Some? && r.parent.value in ids ==> r.id.value in ids)
  {
    forall r | r in rs ensures HasName(f, r) <==> Marked(f, r) {
      if r.stamps.Some? {
        forall i | 0 <= i < |r.stamps.value| ensures Marks(f, r.stamps.value[i].tag) <==> Named(f, r.stamps.value[i].tag) {
          MarksByName(f, r.stamps.value[i].tag);
        }
      }
    }
    hide Marked, HasName;
    if Closed(f, rs, ids) {
      forall r | r in rs && r.id.Some? && (if r.parent.None? then HasName(f, r) else r.parent.value in ids)
        ensures r.id.value in ids
      {
        assert Joins(f, r, ids);
      }
    }
  }

  predicate HasName(f: Frontend, r: Record) {
    r.stamps.Some? && exists i :: 0 <= i < |r.stamps.value| && Named(f, r.stamps.value[i].tag)
  }

  // Of what several records say of an id, the last model and version count, and all timestamps, one after the other.
  lemma {:induction false} MergedJoin(a: seq<Record>, b: seq<Record>, id: int)
    ensures var x, y := Merged(a, id), Merged(b, id);
      Merged(a + b, id) == Trace(if y.model.Some? then y.model else x.model,
                                 if y.version.Some? then y.version else x.version, x.stamps + y.stamps)
  {
    if b == [] {
      assert a + b == a;
      assert Merged(a, id).stamps + [] == Merged(a, id).stamps;
    } else {
      var n := |b| - 1;
      assert (a + b)[..|a + b| - 1] == a + b[..n];
      MergedJoin(a, b[..n], id);
      var x, y, more := Merged(a, id), Merged(b[..n], id), if b[n].stamps.Some? then b[n].stamps.value else [];
      assert x.stamps + y.stamps + more == x.stamps + (y.stamps + more);
    }
  }

  lemma {:induction false} MergedOne(r: Record, id: int)
    ensures Merged([r], id) ==
      if r.id == Some(id) then Trace(r.model, r.version, if r.stamps.Some? then r.stamps.value else [])
      else Trace(None, None, [])
  {
    assert [r][..0] == [];
  }

  // ---------------------------------------------------------------------------
  // Spans

  datatype Span = REQUEST | QUEUE | COMPUTE | COMPUTE_INPUT | COMPUTE_INFER | COMPUTE_OUTPUT
    | HTTP_INFER | HTTP_RECV | HTTP_SEND | GRPC_INFER | GRPC_WAITREAD | GRPC_SEND

  // The last timestamp of a tag counts.
  type Times = map<Tag, int>

  type Spans = map<Span, int>

  datatype Call = Call(span: Span, start: Tag, end: Tag)

  function TimesOf(stamps: seq<Stamp>): Times {
    if stamps == [] then map[] else TimesOf(stamps[..|stamps| - 1])[stamps[|stamps| - 1].tag := stamps[|stamps| - 1].ns]
  }

  // The call is accepted: both timestamps are there, in order.
  predicate Accepts(t: Times, c: Call) {
    c.start in t && c.end in t && t[c.start] <= t[c.end]
  }

  function Length(t: Times, c: Call): int {
    if Accepts(t, c) then t[c.end] - t[c.start] else 0
  }

  function Total(spans: Spans, s: Span): int {
    if s in spans then spans[s] else 0
  }

  // add_span; None if it raises.
  method AddSpan(spans: Spans, t: Times, c: Call) returns (r: Option<Spans>)
    ensures r.Some? <==> Accepts(t, c)
    ensures r.Some? ==> r.value.Keys == spans.Keys + {c.span}
    ensures r.Some? ==> forall s :: Total(r.value, s) == Total(spans, s) + if s == c.span then Length(t, c) else 0
  {
    if c.start !in t || c.end !in t {
      return None;
    }
    if t[c.end] < t[c.start] {
      return None;
    }
    var m := spans;
    if c.span !in m {
      m := m[c.span := 0];
    }
    return Some(m[c.span := m[c.span] + (t[c.end] - t[c.start])]);
  }

  function FrontendCalls(f: Frontend, t: Times): seq<Call> {
    match f
    case NoFrontend => []
    case Http =>
      if HttpRecvStart in t && HttpSendEnd in t then
        [Call(HTTP_INFER, HttpRecvStart, HttpSendEnd), Call(HTTP_RECV, HttpRecvStart, HttpRecvEnd),
         Call(HTTP_SEND, HttpSendStart, HttpSendEnd)]
      else []
    case Grpc =>
      if GrpcWaitReadStart in t && GrpcSendEnd in t then
        [Call(GRPC_INFER, GrpcWaitReadStart, GrpcSendEnd), Call(GRPC_WAITREAD, GrpcWaitReadStart, GrpcWaitReadEnd),
         Call(GRPC_SEND, GrpcSendStart, GrpcSendEnd)]
      else []
  }

  // The calls of add_span for a trace that has been answered.
  function CallsOf(f: Frontend, t: Times): seq<Call> {
    FrontendCalls(f, t) + QueueCalls(t) + ComputeCalls(t) + PartCalls(t)
  }

  function QueueCalls(t: Times): seq<Call> {
    [Call(REQUEST, RequestStart, RequestEnd)]
    + if QueueStart in t && ComputeStart in t then [Call(QUEUE, QueueStart, ComputeStart)] else []
  }

  function ComputeCalls(t: Times): seq<Call> {
    if ComputeStart in t && ComputeEnd in t then [Call(COMPUTE, ComputeStart, ComputeEnd)] else []
  }

  function PartCalls(t: Times): seq<Call> {
    if ComputeInputEnd in t && ComputeOutputStart in t then
      [Call(COMPUTE_INPUT, ComputeStart, ComputeInputEnd), Call(COMPUTE_INFER, ComputeInputEnd, ComputeOutputStart),
       Call(COMPUTE_OUTPUT, ComputeOutputStart, ComputeEnd)]
    else []
  }

  predicate Answered(t: Times) {
    RequestStart in t && RequestEnd in t
  }

  predicate AllAccepted(t: Times, calls: seq<Call>) {
    forall i :: 0 <= i < |calls| ==> Accepts(t, calls[i])
  }

  // How long the calls are for a span in total.
  function Sum(t: Times, calls: seq<Call>, s: Span): int {
    if calls == [] then 0
    else Sum(t, calls[..|calls| - 1], s) + if calls[|calls| - 1].span == s then Length(t, calls[|calls| - 1]) else 0
  }

  lemma {:induction false} SumAppend(t: Times, a: seq<Call>, b: seq<Call>, s: Span)
    ensures Sum(t, a + b, s) == Sum(t, a, s) + Sum(t, b, s)
    decreases |b|
  {
    if b == [] {
      assert a + b == a;
    } else {
      assert (a + b)[..|a + b| - 1] == a + b[..|b| - 1];
      SumAppend(t, a, b[..|b| - 1], s);
    }
  }

  lemma {:induction false} SumOne(t: Times, c: Call, s: Span)
    ensures Sum(t, [c], s) == if c.span == s then Length(t, c) else 0
  {
    assert [c][..0] == [];
  }

  lemma {:induction false} SumThree(t: Times, a: Call, b: Call, c: Call, s: Span)
    ensures Sum(t, [a, b, c], s) == Sum(t, [a], s) + Sum(t, [b], s) + Sum(t, [c], s)
  {
    hide Sum;
    assert [a, b, c] == [a] + [b] + [c];
    SumAppend(t, [a] + [b], [c], s);
    SumAppend(t, [a], [b], s);
  }

  lemma {:induction false} SumNone(t: Times, s: Span)
    ensures Sum(t, [], s) == 0
  {}

  method AddSpans(spans: Spans, t: Times, calls: seq<Call>) returns (r: Option<Spans>)
    ensures r.Some? <==> AllAccepted(t, calls)
    ensures r.Some? ==> forall s :: Total(r.value, s) == Total(spans, s) + Sum(t, calls, s)
  {
    var m := spans;
    for i := 0 to |calls|
      invariant AllAccepted(t, calls[..i])
      invariant forall s :: Total(m, s) == Total(spans, s) + Sum(t, calls[..i], s)
    {
      var next := AddSpan(m, t, calls[i]);
      if next.None? {
        return None;
      }
      assert calls[..i + 1][..i] == calls[..i];
      m := next.value;
    }
    assert calls[..|calls|] == calls;
    return Some(m);
  }

  // ---------------------------------------------------------------------------
  // Totals of all traces

  type ModelKey = (string, int)

  // The trace has been answered, by this version of this model.
  predicate CountsFor(t: Trace, key: ModelKey) {
    && RequestStart in TimesOf(t.stamps) && RequestEnd in TimesOf(t.stamps)
    && t.model == Some(key.0) && t.version == Some(key.1)
  }

  function CountOf(ts: seq<Trace>, key: ModelKey): nat {
    if ts == [] then 0 else CountOf(ts[..|ts| - 1], key) + if CountsFor(ts[|ts| - 1], key) then 1 else 0
  }

  function SpansFor(spans: map<ModelKey, Spans>, key: ModelKey): Spans {
    if key in spans then spans[key] else map[]
  }

  // ---------------------------------------------------------------------------
  // What a span measures

  // The time between two timestamps, if both are there.
  function Between(t: Times, start: Tag, end: Tag): int {
    if start in t && end in t then t[end] - t[start] else 0
  }

  // How long each span takes in one trace.
  function Measured(f: Frontend, t: Times, s: Span): int {
    match s
    case REQUEST => Between(t, RequestStart, RequestEnd)
    case QUEUE => Between(t, QueueStart, ComputeStart)
    case COMPUTE => Between(t, ComputeStart, ComputeEnd)
    case COMPUTE_INPUT =>
      if ComputeInputEnd in t && ComputeOutputStart in t then Between(t, ComputeStart, ComputeInputEnd) else 0
    case COMPUTE_INFER => Between(t, ComputeInputEnd, ComputeOutputStart)
    case COMPUTE_OUTPUT =>
      if ComputeInputEnd in t && ComputeOutputStart in t then Between(t, ComputeOutputStart, ComputeEnd) else 0
    case HTTP_INFER => if f.Http? then Between(t, HttpRecvStart, HttpSendEnd) else 0
    case HTTP_RECV =>
      if f.Http? && HttpRecvStart in t && HttpSendEnd in t then Between(t, HttpRecvStart, HttpRecvEnd) else 0
    case HTTP_SEND =>
      if f.Http? && HttpRecvStart in t && HttpSendEnd in t then Between(t, HttpSendStart, HttpSendEnd) else 0
    case GRPC_INFER => if f.Grpc? then Between(t, GrpcWaitReadStart, GrpcSendEnd) else 0
    case GRPC_WAITREAD =>
      if f.Grpc? && GrpcWaitReadStart in t && GrpcSendEnd in t then Between(t, GrpcWaitReadStart, GrpcWaitReadEnd)
      else 0
    case GRPC_SEND =>
      if f.Grpc? && GrpcWaitReadStart in t && GrpcSendEnd in t then Between(t, GrpcSendStart, GrpcSendEnd) else 0
  }

  predicate InOrder(t: Times, first: Tag, second: Tag) {
    first in t && second in t && t[first] <= t[second]
  }

  // Spans that are there are there as a whole: with all timestamps of their parts, in order.
  predicate Complete(f: Frontend, t: Times) {
    && InOrder(t, RequestStart, RequestEnd)
    && (QueueStart in t && ComputeStart in t ==> InOrder(t, QueueStart, ComputeStart))
    && (ComputeStart in t && ComputeEnd in t ==> InOrder(t, ComputeStart, ComputeEnd))
    && (ComputeInputEnd in t && ComputeOutputStart in t ==>
         InOrder(t, ComputeStart, ComputeInputEnd) && InOrder(t, ComputeInputEnd, ComputeOutputStart)
         && InOrder(t, ComputeOutputStart, ComputeEnd))
    && (f.Http? && HttpRecvStart in t && HttpSendEnd in t ==>
         InOrder(t, HttpRecvStart, HttpSendEnd) && InOrder(t, HttpRecvStart, HttpRecvEnd)
         && InOrder(t, HttpSendStart, HttpSendEnd))
    && (f.Grpc? && GrpcWaitReadStart in t && GrpcSendEnd in t ==>
         InOrder(t, GrpcWaitReadStart, GrpcSendEnd) && InOrder(t, GrpcWaitReadStart, GrpcWaitReadEnd)
         && InOrder(t, GrpcSendStart, GrpcSendEnd))
  }

  function MeasuredOf(f: Frontend, ts: seq<Trace>, key: ModelKey, s: Span): int {
    if ts == [] then 0
    else
      var t := ts[|ts| - 1];
      MeasuredOf(f, ts[..|ts| - 1], key, s) + if CountsFor(t, key) then Measured(f, TimesOf(t.stamps), s) else 0
  }

  // The trace can be summed up.
  predicate Orderly(f: Frontend, t: Trace) {
    var times := TimesOf(t.stamps);
    RequestStart in times && RequestEnd in times ==> t.model.Some? && t.version.Some? && Complete(f, times)
  }

  lemma {:induction false} AllAppend(t: Times, a: seq<Call>, b: seq<Call>)
    ensures AllAccepted(t, a + b) <==> AllAccepted(t, a) && AllAccepted(t, b)
  {
    if AllAccepted(t, a + b) {
      forall i | 0 <= i < |a| ensures Accepts(t, a[i]) { assert (a + b)[i] == a[i]; }
      forall i | 0 <= i < |b| ensures Accepts(t, b[i]) { assert (a + b)[|a| + i] == b[i]; }
    }
  }

  lemma {:induction false} AllOne(t: Times, c: Call)
    ensures AllAccepted(t, [c]) <==> Accepts(t, c)
  {
    if AllAccepted(t, [c]) { assert [c][0] == c; }
  }

  lemma {:induction false} AllThree(t: Times, a: Call, b: Call, c: Call)
    ensures AllAccepted(t, [a, b, c]) <==> Accepts(t, a) && Accepts(t, b) && Accepts(t, c)
  {
    if AllAccepted(t, [a, b, c]) {
      assert [a, b, c][0] == a && [a, b, c][1] == b && [a, b, c][2] == c;
    }
  }

  // The calls for a trace go well exactly if its spans are complete.
  lemma {:induction false} CallsComplete(f: Frontend, t: Times)
    ensures AllAccepted(t, CallsOf(f, t)) <==> Complete(f, t)
  {
    hide AllAccepted;
    AllAppend(t, FrontendCalls(f, t) + QueueCalls(t) + ComputeCalls(t), PartCalls(t));
    AllAppend(t, FrontendCalls(f, t) + QueueCalls(t), ComputeCalls(t));
    AllAppend(t, FrontendCalls(f, t), QueueCalls(t));
    AllNone(t);
    var request, queue := Call(REQUEST, RequestStart, RequestEnd), Call(QUEUE, QueueStart, ComputeStart);
    AllOne(t, request);
    AllOne(t, queue);
    AllAppend(t, [request], if QueueStart in t && ComputeStart in t then [queue] else []);
    AllOne(t, Call(COMPUTE, ComputeStart, ComputeEnd));
    AllThree(t, Call(COMPUTE_INPUT, ComputeStart, ComputeInputEnd),
             Call(COMPUTE_INFER, ComputeInputEnd, ComputeOutputStart),
             Call(COMPUTE_OUTPUT, ComputeOutputStart, ComputeEnd));
    AllThree(t, Call(HTTP_INFER, HttpRecvStart, HttpSendEnd), Call(HTTP_RECV, HttpRecvStart, HttpRecvEnd),
             Call(HTTP_SEND, HttpSendStart, HttpSendEnd));
    AllThree(t, Call(GRPC_INFER, GrpcWaitReadStart, GrpcSendEnd),
             Call(GRPC_WAITREAD, GrpcWaitReadStart, GrpcWaitReadEnd), Call(GRPC_SEND, GrpcSendStart, GrpcSendEnd));
  }

  lemma {:induction false} AllNone(t: Times)
    ensures AllAccepted(t, [])
  {}

  // They come to what the span measures.
  lemma {:induction false} CallsMeasure(f: Frontend, t: Times, s: Span)
    requires Complete(f, t)
    ensures Sum(t, CallsOf(f, t), s) == Measured(f, t, s)
  {
    hide Sum;
    SumAppend(t, FrontendCalls(f, t) + QueueCalls(t) + ComputeCalls(t), PartCalls(t), s);
    SumAppend(t, FrontendCalls(f, t) + QueueCalls(t), ComputeCalls(t), s);
    SumAppend(t, FrontendCalls(f, t), QueueCalls(t), s);
    FrontendMeasure(f, t, s);
    QueueMeasure(t, s);
    ComputeMeasure(t, s);
    hide FrontendCalls, QueueCalls, ComputeCalls, PartCalls;
  }

  lemma {:induction false} FrontendMeasure(f: Frontend, t: Times, s: Span)
    requires Complete(f, t)
    ensures Sum(t, FrontendCalls(f, t), s) == if s.HTTP_INFER? || s.HTTP_RECV? || s.HTTP_SEND?
      || s.GRPC_INFER? || s.GRPC_WAITREAD? || s.GRPC_SEND? then Measured(f, t, s) else 0
  {
    hide Sum;
    var calls := FrontendCalls(f, t);
    SumNone(t, s);
    if |calls| == 3 {
      SumThree(t, calls[0], calls[1], calls[2], s);
      SumOne(t, calls[0], s);
      SumOne(t, calls[1], s);
      SumOne(t, calls[2], s);
    }
  }

  lemma {:induction false} QueueMeasure(t: Times, s: Span)
    requires InOrder(t, RequestStart, RequestEnd)
    requires QueueStart in t && ComputeStart in t ==> InOrder(t, QueueStart, ComputeStart)
    ensures Sum(t, QueueCalls(t), s) == if s.REQUEST? then Between(t, RequestStart, RequestEnd)
      else if s.QUEUE? then Between(t, QueueStart, ComputeStart) else 0
  {
    hide Sum;
    var request, queue := Call(REQUEST, RequestStart, RequestEnd), Call(QUEUE, QueueStart, ComputeStart);
    SumOne(t, request, s);
    SumOne(t, queue, s);
    SumNone(t, s);
    SumAppend(t, [request], if QueueStart in t && ComputeStart in t then [queue] else [], s);
  }

  lemma {:induction false} ComputeMeasure(t: Times, s: Span)
    requires Complete(NoFrontend, t)
    ensures Sum(t, ComputeCalls(t), s) == if s.COMPUTE? then Measured(NoFrontend, t, s) else 0
    ensures Sum(t, PartCalls(t), s) ==
      if s.COMPUTE_INPUT? || s.COMPUTE_INFER? || s.COMPUTE_OUTPUT? then Measured(NoFrontend, t, s) else 0
  {
    hide Sum;
    var parts := PartCalls(t);
    SumNone(t, s);
    SumOne(t, Call(COMPUTE, ComputeStart, ComputeEnd), s);
    if |parts| == 3 {
      SumThree(t, parts[0], parts[1], parts[2], s);
      SumOne(t, parts[0], s);
      SumOne(t, parts[1], s);
      SumOne(t, parts[2], s);
    }
  }

  // The last stamp with a name counts.
  lemma {:induction false} LastStampCounts(stamps: seq<Stamp>, i: nat)
    requires i < |stamps| && forall j :: i < j < |stamps| ==> stamps[j].tag != stamps[i].tag
    ensures stamps[i].tag in TimesOf(stamps) && TimesOf(stamps)[stamps[i].tag] == stamps[i].ns
  {
    if i < |stamps| - 1 { LastStampCounts(stamps[..|stamps| - 1], i); }
  }

  lemma {:induction false} StampedOnly(stamps: seq<Stamp>, tag: Tag)
    ensures tag in TimesOf(stamps) <==> exists i :: 0 <= i < |stamps| && stamps[i].tag == tag
  {
    if stamps != [] {
      var n := |stamps| - 1;
      StampedOnly(stamps[..n], tag);
      if i :| 0 <= i < |stamps| && stamps[i].tag == tag {
        if i < n { assert stamps[..n][i].tag == tag; }
      }
    }
  }

  // ---------------------------------------------------------------------------
  // From records to totals

  // The second half of summarize: counts and times per model and version; None if an exception is raised.
  method Summarize(f: Frontend, ts: seq<Trace>) returns (r: Option<(map<ModelKey, nat>, map<ModelKey, Spans>)>)
    ensures r.Some? <==> forall i :: 0 <= i < |ts| ==> Orderly(f, ts[i])
    ensures r.Some? ==> r.value.0.Keys == r.value.1.Keys
    ensures r.Some? ==> forall key :: (if key in r.value.0 then r.value.0[key] else 0) == CountOf(ts, key)
    ensures r.Some? ==> forall key, s :: Total(SpansFor(r.value.1, key), s) == MeasuredOf(f, ts, key, s)
  {
    hide CallsOf, AllAccepted, Sum, TimesOf, Measured, Complete;
    var counts: map<ModelKey, nat>, spans: map<ModelKey, Spans> := map[], map[];
    for i := 0 to |ts|
      invariant forall j :: 0 <= j < i ==> Orderly(f, ts[j])
      invariant counts.Keys == spans.Keys
      invariant forall key :: (if key in counts then counts[key] else 0) == CountOf(ts[..i], key)
      invariant forall key, s :: Total(SpansFor(spans, key), s) == MeasuredOf(f, ts[..i], key, s)
    {
      assert ts[..i + 1][..i] == ts[..i];
      var times := TimesOf(ts[i].stamps);
      if Answered(times) {
        if ts[i].model.None? || ts[i].version.None? {
          return None;
        }
        var key := (ts[i].model.value, ts[i].version.value);
        var more := AddSpans(SpansFor(spans, key), times, CallsOf(f, times));
        CallsComplete(f, times);
        if more.None? {
          return None;
        }
        forall s ensures Sum(times, CallsOf(f, times), s) == Measured(f, times, s) { CallsMeasure(f, times, s); }
        counts := counts[key := 1 + if key in counts then counts[key] else 0];
        spans := spans[key := more.value];
      }
    }
    assert ts[..|ts|] == ts;
    return Some((counts, spans));
  }

  // What has been kept of the ids in 'order'.
  function TracesOf(kept: seq<Record>, order: seq<int>): (r: seq<Trace>)
    ensures |r| == |order| && forall i :: 0 <= i < |r| ==> r[i] == Merged(kept, order[i])
  {
    seq(|order|, i requires 0 <= i < |order| => Merged(kept, order[i]))
  }

  // The counts and totals are those of the traces 'ts'; none if one of them raises an exception.
  ghost predicate SumsUp(f: Frontend, ts: seq<Trace>, r: Option<(map<ModelKey, nat>, map<ModelKey, Spans>)>) {
    && (r.Some? <==> forall i :: 0 <= i < |ts| ==> Orderly(f, ts[i]))
    && (r.Some? ==>
         && (forall key :: (if key in r.value.0 then r.value.0[key] else 0) == CountOf(ts, key))
         && (forall key, s :: Total(SpansFor(r.value.1, key), s) == MeasuredOf(f, ts, key, s)))
  }

  // From the records of a file to counts and totals. No id is ever taken out again: each that has been kept is
  // one of the frontend's.
  method SummarizeRecords(f: Frontend, traces: seq<Record>)
    returns (r: Option<(map<ModelKey, nat>, map<ModelKey, Spans>)>, order: seq<int>)
    ensures Lists(order, Selected(f, traces))
    ensures SumsUp(f, TracesOf(KeptRecords(f, SortById(traces), |SortById(traces)|), order), r)
  {
    hide Merged, Matched, KeptRecords, HasId, SortById, Orderly, CountOf, MeasuredOf, Total;
    var matched, filtered;
    matched, filtered, order := Select(f, traces);
    ghost var rs := SortById(traces);
    ghost var kept := KeptRecords(f, rs, |rs|);
    forall id ensures id in filtered <==> id in matched { KeptMatched(f, rs, |rs|, id); }
    var ts: seq<Trace>, popped := [], false;
    for i := 0 to |order|
      invariant ts == TracesOf(kept, order[..i]) && !popped
    {
      assert order[i] in order;
      if order[i] !in matched {
        popped := true;
      } else {
        ts := ts + [filtered[order[i]]];
      }
    }
    assert order[..|order|] == order;
    r := Summarize(f, ts);
  }

  // ---------------------------------------------------------------------------
  // Conservation

  // The time between start and end of the computation that no part accounts for.
  function Unaccounted(t: Times): int {
    if ComputeInputEnd in t && ComputeOutputStart in t then 0 else Between(t, ComputeStart, ComputeEnd)
  }

  function UnaccountedOf(ts: seq<Trace>, key: ModelKey): int {
    if ts == [] then 0
    else UnaccountedOf(ts[..|ts| - 1], key)
         + if CountsFor(ts[|ts| - 1], key) then Unaccounted(TimesOf(ts[|ts| - 1].stamps)) else 0
  }

  // Per model and version, the computation takes as long as its three parts, plus what the traces without the
  // timestamps in between took; so never less, and the same if every trace has all four timestamps or none.
  lemma {:induction false} Conservation(f: Frontend, ts: seq<Trace>, key: ModelKey)
    requires forall i :: 0 <= i < |ts| ==> Orderly(f, ts[i])
    ensures MeasuredOf(f, ts, key, COMPUTE) ==
      MeasuredOf(f, ts, key, COMPUTE_INPUT) + MeasuredOf(f, ts, key, COMPUTE_INFER)
      + MeasuredOf(f, ts, key, COMPUTE_OUTPUT) + UnaccountedOf(ts, key)
    ensures UnaccountedOf(ts, key) >= 0
    ensures (forall i :: 0 <= i < |ts| && CountsFor(ts[i], key) ==> Unaccounted(TimesOf(ts[i].stamps)) == 0) <==>
            UnaccountedOf(ts, key) == 0
  {
    hide TimesOf;
    if ts != [] {
      var n := |ts| - 1;
      Conservation(f, ts[..n], key);
      assert Orderly(f, ts[n]);
      assert forall i :: 0 <= i < n ==> ts[..n][i] == ts[i];
    }
  }
}
