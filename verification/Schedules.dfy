// Ensemble schedules as dataflow programs: a step runs its model once all the tensors it reads are there.

module Schedules {
  import opened Shapes

  datatype Value = Value(shape: seq<int>, data: seq<int>)

  // The tensors of an ensemble, and the inputs and outputs of the model of a step.
  datatype Name = Input(idx: nat) | Output(idx: nat) | Temp(tag: string, idx: nat)

  datatype Port = In(suffix: string) | Out(suffix: string)

  // 'libtorch' models have names of their own for their inputs and outputs.
  datatype Model =
    | Nop
    | TunnelIn(shape: seq<int>)
    | TunnelOut(shape: seq<int>)
    | AddSub(libtorch: bool)
    | Accumulator(libtorch: bool)

  // The input map, and the output map read backwards: the model's output that each tensor is.
  datatype Step = Step(model: Model, ins: map<Port, Name>, outs: map<Name, Port>)

  // The models an ensemble is built around, whatever they compute.
  datatype Base = Base(addSub: (Value, Value) -> (Value, Value), accumulate: Value -> Value)

  type Env = map<Name, Value>

  // The shape [] is written [1] in the configuration of a nop.
  function Widened(shape: seq<int>): seq<int> {
    if shape == [] then [1] else shape
  }

  function Delimiter(libtorch: bool): string {
    if libtorch then "__" else ""
  }

  function Suffix(libtorch: bool): string {
    if libtorch then "__0" else ""
  }

  function Get(values: map<Port, Value>, p: Port): Value {
    if p in values then values[p] else Value([], [])
  }

  function Behave(base: Base, m: Model, ins: map<Port, Value>): map<Port, Value> {
    match m
    case Nop => map[Out("0") := Get(ins, In("0")), Out("1") := Get(ins, In("1"))]
    case TunnelIn(shape) =>
      map[Out("0") := Value([Product(Widened(shape))], Get(ins, In("0")).data),
          Out("1") := Value([Product(Widened(shape))], Get(ins, In("1")).data)]
    case TunnelOut(shape) =>
      map[Out("0") := Value(Widened(shape), Get(ins, In("0")).data),
          Out("1") := Value(Widened(shape), Get(ins, In("1")).data)]
    case AddSub(lib) =>
      var r := base.addSub(Get(ins, In(Delimiter(lib) + "0")), Get(ins, In(Delimiter(lib) + "1")));
      map[Out(Delimiter(lib) + "0") := r.0, Out(Delimiter(lib) + "1") := r.1]
    case Accumulator(lib) => map[Out(Suffix(lib)) := base.accumulate(Get(ins, In(Suffix(lib))))]
  }

  // ---------------------------------------------------------------------------
  // Firing

  function Reads(s: Step, env: Env): map<Port, Value> {
    map p | p in s.ins && s.ins[p] in env :: env[s.ins[p]]
  }

  function Makes(base: Base, s: Step, env: Env): Env {
    map n | n in s.outs :: Get(Behave(base, s.model, Reads(s, env)), s.outs[n])
  }

  predicate Ready(s: Step, env: Env) {
    forall p :: p in s.ins ==> s.ins[p] in env
  }

  function Fire(base: Base, s: Step, env: Env): Env {
    env + Makes(base, s, env)
  }

  // Every tensor a step reads comes from the request or from an earlier step of the list.
  predicate Ordered(steps: seq<Step>, inputs: set<Name>) {
    forall i :: 0 <= i < |steps| ==> Supplied(steps, inputs, i)
  }

  predicate Supplied(steps: seq<Step>, inputs: set<Name>, i: nat)
    requires i < |steps|
  {
    forall p :: p in steps[i].ins ==>
      steps[i].ins[p] in inputs || exists j :: 0 <= j < i && steps[i].ins[p] in steps[j].outs
  }

  // Every tensor has one producer.
  predicate SingleProducer(steps: seq<Step>, inputs: set<Name>) {
    && (forall i, n :: 0 <= i < |steps| && n in steps[i].outs ==> n !in inputs)
    && (forall i, j, n :: 0 <= i < j < |steps| && n in steps[i].outs ==> n !in steps[j].outs)
  }

  predicate WellFormed(steps: seq<Step>, inputs: set<Name>) {
    Ordered(steps, inputs) && SingleProducer(steps, inputs)
  }

  // The steps fired in the order of the list.
  function Listed(base: Base, steps: seq<Step>, n: nat, env: Env): Env
    requires n <= |steps|
  {
    if n == 0 then env else Fire(base, steps[n - 1], Listed(base, steps, n - 1, env))
  }

  // Any order: each step at most once, when it is ready.
  ghost predicate Legal(base: Base, steps: seq<Step>, env: Env, order: seq<nat>)
    decreases |order|
  {
    order != [] ==>
      var prefix, k := order[..|order| - 1], order[|order| - 1];
      Legal(base, steps, env, prefix) && k < |steps| && k !in prefix && Ready(steps[k], After(base, steps, env, prefix))
  }

  ghost function After(base: Base, steps: seq<Step>, env: Env, order: seq<nat>): Env
    decreases |order|
  {
    if order == [] then env
    else
      var k := order[|order| - 1];
      var was := After(base, steps, env, order[..|order| - 1]);
      if k < |steps| then Fire(base, steps[k], was) else was
  }

  // No step is left that could be fired.
  ghost predicate Exhausted(base: Base, steps: seq<Step>, env: Env, order: seq<nat>) {
    forall k :: 0 <= k < |steps| && Ready(steps[k], After(base, steps, env, order)) ==> k in order
  }

  // ---------------------------------------------------------------------------

  // 'b' has all that 'a' has.
  ghost predicate Within(a: Env, b: Env) {
    forall x :: x in a ==> x in b && a[x] == b[x]
  }

  lemma {:induction false} WithinRefl(a: Env)
    ensures Within(a, a)
  {}

  lemma {:induction false} WithinTrans(a: Env, b: Env, c: Env)
    requires Within(a, b) && Within(b, c)
    ensures Within(a, c)
  {}

  // What the first 'n' steps make.
  function MadeTo(steps: seq<Step>, n: nat): set<Name>
    requires n <= |steps|
  {
    if n == 0 then {} else MadeTo(steps, n - 1) + steps[n - 1].outs.Keys
  }

  lemma {:induction false} MadeBefore(steps: seq<Step>, n: nat, j: nat, x: Name)
    requires j < n <= |steps| && x in steps[j].outs
    ensures x in MadeTo(steps, n)
  {
    if j < n - 1 { MadeBefore(steps, n - 1, j, x); }
  }

  lemma {:induction false} MadeFresh(steps: seq<Step>, inputs: set<Name>, n: nat, k: nat)
    requires SingleProducer(steps, inputs) && n <= k < |steps|
    ensures steps[k].outs.Keys !! inputs && steps[k].outs.Keys !! MadeTo(steps, n)
  {
    if n > 0 { MadeFresh(steps, inputs, n - 1, k); }
  }

  lemma {:induction false} FireKeys(base: Base, s: Step, env: Env)
    ensures Fire(base, s, env).Keys == env.Keys + s.outs.Keys
    ensures s.outs.Keys !! env.Keys ==> Within(env, Fire(base, s, env))
  {
    hide Behave;
  }

  lemma {:induction false} ReadsSame(base: Base, s: Step, a: Env, b: Env)
    requires Ready(s, a) && Within(a, b)
    ensures Ready(s, b) && Makes(base, s, a) == Makes(base, s, b)
  {
    hide Behave;
    assert Reads(s, a) == Reads(s, b);
  }

  lemma {:induction false} ListedKeys(base: Base, steps: seq<Step>, env: Env, n: nat)
    requires n <= |steps|
    ensures Listed(base, steps, n, env).Keys == env.Keys + MadeTo(steps, n)
  {
    hide Fire;
    if n > 0 {
      ListedKeys(base, steps, env, n - 1);
      FireKeys(base, steps[n - 1], Listed(base, steps, n - 1, env));
    }
  }

  // Later steps change nothing of what is there.
  lemma {:induction false} ListedWithin(base: Base, steps: seq<Step>, env: Env, n: nat, m: nat)
    requires SingleProducer(steps, env.Keys) && n <= m <= |steps|
    ensures Within(Listed(base, steps, n, env), Listed(base, steps, m, env))
    decreases m
  {
    hide Fire, SingleProducer, Within, MadeTo;
    if n == m {
      WithinRefl(Listed(base, steps, n, env));
    } else {
      var was := Listed(base, steps, m - 1, env);
      ListedWithin(base, steps, env, n, m - 1);
      ListedKeys(base, steps, env, m - 1);
      MadeFresh(steps, env.Keys, m - 1, m - 1);
      FireKeys(base, steps[m - 1], was);
      WithinTrans(Listed(base, steps, n, env), was, Listed(base, steps, m, env));
    }
  }

  lemma {:induction false} WellFormedSingle(steps: seq<Step>, inputs: set<Name>)
    requires WellFormed(steps, inputs)
    ensures SingleProducer(steps, inputs)
  {}

  // Every tensor is what its producer makes of the tensors it reads.
  lemma {:induction false} ListedEquation(base: Base, steps: seq<Step>, env: Env, i: nat)
    requires WellFormed(steps, env.Keys) && i < |steps|
    ensures Ready(steps[i], Listed(base, steps, |steps|, env))
    ensures Within(Makes(base, steps[i], Listed(base, steps, |steps|, env)), Listed(base, steps, |steps|, env))
  {
    hide WellFormed, Makes, Fire, Ready, Within;
    var final, was := Listed(base, steps, |steps|, env), Listed(base, steps, i, env);
    WellFormedSingle(steps, env.Keys);
    ReadyListed(base, steps, env, i);
    ListedWithin(base, steps, env, i, |steps|);
    ListedWithin(base, steps, env, i + 1, |steps|);
    ReadsSame(base, steps[i], was, final);
    MakesWithin(base, steps[i], was);
    WithinTrans(Makes(base, steps[i], was), Listed(base, steps, i + 1, env), final);
  }

  lemma {:induction false} MakesWithin(base: Base, s: Step, env: Env)
    ensures Within(Makes(base, s, env), Fire(base, s, env))
  {
    hide Behave;
  }

  lemma {:induction false} ReadyListed(base: Base, steps: seq<Step>, env: Env, i: nat)
    requires WellFormed(steps, env.Keys) && i < |steps|
    ensures Ready(steps[i], Listed(base, steps, i, env))
  {
    hide Fire, SingleProducer, Listed;
    assert Supplied(steps, env.Keys, i);
    ListedKeys(base, steps, env, i);
    forall p | p in steps[i].ins ensures steps[i].ins[p] in Listed(base, steps, i, env) {
      if steps[i].ins[p] !in env {
        var j :| 0 <= j < i && steps[i].ins[p] in steps[j].outs;
        MadeBefore(steps, i, j, steps[i].ins[p]);
      }
    }
  }

  // What the steps fired so far make.
  function MadeBy(steps: seq<Step>, order: seq<nat>): set<Name>
    decreases |order|
  {
    if order == [] then {}
    else
      var k := order[|order| - 1];
      MadeBy(steps, order[..|order| - 1]) + if k < |steps| then steps[k].outs.Keys else {}
  }

  lemma {:induction false} MadeByOne(steps: seq<Step>, order: seq<nat>, k: nat, x: Name)
    requires k in order && k < |steps| && x in steps[k].outs
    ensures x in MadeBy(steps, order)
    decreases |order|
  {
    if k != order[|order| - 1] { MadeByOne(steps, order[..|order| - 1], k, x); }
  }

  // Whatever has been fired so far agrees with the order of the list.
  lemma {:induction false} OrderAgrees(base: Base, steps: seq<Step>, env: Env, order: seq<nat>)
    requires WellFormed(steps, env.Keys) && Legal(base, steps, env, order)
    ensures After(base, steps, env, order).Keys == env.Keys + MadeBy(steps, order)
    ensures Within(After(base, steps, env, order), Listed(base, steps, |steps|, env))
    decreases |order|
  {
    hide WellFormed, Behave, Makes;
    if order == [] {
      hide SingleProducer;
      WellFormedSingle(steps, env.Keys);
      ListedWithin(base, steps, env, 0, |steps|);
    } else {
      var prefix, k := order[..|order| - 1], order[|order| - 1];
      OrderAgrees(base, steps, env, prefix);
      ListedEquation(base, steps, env, k);
      var was, final := After(base, steps, env, prefix), Listed(base, steps, |steps|, env);
      ReadsSame(base, steps[k], was, final);
      FireKeys(base, steps[k], was);
    }
  }

  // When no step is left to fire, all have been fired.
  lemma {:induction false} AllFired(base: Base, steps: seq<Step>, env: Env, order: seq<nat>, n: nat)
    requires WellFormed(steps, env.Keys) && Legal(base, steps, env, order) && Exhausted(base, steps, env, order)
    requires n <= |steps|
    ensures forall k :: 0 <= k < n ==> k in order
  {
    if n > 0 {
      AllFired(base, steps, env, order, n - 1);
      OrderAgrees(base, steps, env, order);
      assert Supplied(steps, env.Keys, n - 1);
      var s, now := steps[n - 1], After(base, steps, env, order);
      forall p | p in s.ins ensures s.ins[p] in now {
        if s.ins[p] !in env {
          var j :| 0 <= j < n - 1 && s.ins[p] in steps[j].outs;
          MadeByOne(steps, order, j, s.ins[p]);
        }
      }
      assert Ready(s, now);
    }
  }

  function Below(n: nat): (r: set<nat>)
    ensures |r| == n && forall k :: k in r <==> 0 <= k < n
  {
    if n == 0 then {} else Below(n - 1) + {n - 1}
  }

  function Fired(order: seq<nat>): (r: set<nat>)
    ensures forall k :: k in r <==> k in order
    decreases |order|
  {
    if order == [] then {} else Fired(order[..|order| - 1]) + {order[|order| - 1]}
  }

  lemma {:induction false} FiredOnce(base: Base, steps: seq<Step>, env: Env, order: seq<nat>)
    requires Legal(base, steps, env, order)
    ensures (forall k :: k in order ==> k < |steps|) && |Fired(order)| == |order|
    decreases |order|
  {
    hide After, Ready;
    if order != [] {
      var prefix, k := order[..|order| - 1], order[|order| - 1];
      FiredOnce(base, steps, env, prefix);
      assert order == prefix + [k];
    }
  }

  // Every firing order of ready steps ends after as many firings as there are steps, with the same tensors.
  lemma {:induction false} Confluence(base: Base, steps: seq<Step>, env: Env, order: seq<nat>)
    requires WellFormed(steps, env.Keys) && Legal(base, steps, env, order) && Exhausted(base, steps, env, order)
    ensures |order| == |steps| && After(base, steps, env, order) == Listed(base, steps, |steps|, env)
  {
    AllFired(base, steps, env, order, |steps|);
    FiredOnce(base, steps, env, order);
    OrderAgrees(base, steps, env, order);
    hide After, Listed, Legal, MadeBy, WellFormed, Exhausted, Ready;
    assert Fired(order) == Below(|steps|);
    ListedKeys(base, steps, env, |steps|);
    MadeAll(steps, order, |steps|);
    SameEnv(After(base, steps, env, order), Listed(base, steps, |steps|, env));
  }

  lemma {:induction false} SameEnv(a: Env, b: Env)
    requires Within(a, b) && b.Keys <= a.Keys
    ensures a == b
  {}

  lemma {:induction false} MadeAll(steps: seq<Step>, order: seq<nat>, n: nat)
    requires n <= |steps| && forall k :: 0 <= k < n ==> k in order
    ensures MadeTo(steps, n) <= MadeBy(steps, order)
  {
    hide MadeBy;
    if n > 0 {
      MadeAll(steps, order, n - 1);
      forall x | x in steps[n - 1].outs ensures x in MadeBy(steps, order) { MadeByOne(steps, order, n - 1, x); }
    }
  }

  // An order that has not fired every step can go on.
  lemma {:induction false} Progress(base: Base, steps: seq<Step>, env: Env, order: seq<nat>) returns (k: nat)
    requires WellFormed(steps, env.Keys) && Legal(base, steps, env, order) && |order| < |steps|
    ensures Legal(base, steps, env, order + [k])
  {
    hide WellFormed;
    if Exhausted(base, steps, env, order) {
      Confluence(base, steps, env, order);
      assert false;
    } else {
      k :| 0 <= k < |steps| && Ready(steps[k], After(base, steps, env, order)) && k !in order;
      assert (order + [k])[..|order|] == order;
    }
  }
}
