// The generated ensemble schedules, and that they behave as the models they are made from.

module Ensembles {
  import opened Memory
  import opened Shapes
  import opened Schedules

  datatype EnsembleType = Simple | Sequence | Fan

  // ---------------------------------------------------------------------------
  // Identity

  // A nop-like step with the one tensor 'from' on both inputs, and 'to' as its output number 'out'.
  function Through(model: Model, from: Name, to: Name, out: string): Step {
    Step(model, map[In("0") := from, In("1") := from], map[to := Out(out)])
  }

  // The steps for tensor 'idx'. With 'reshape', the first and the last are the two ends of a tunnel.
  function IdentityChain(kind: EnsembleType, reshape: bool, shape: seq<int>, idx: nat): (r: seq<Step>)
    ensures |r| == Hops(kind)
  {
    var first, last := if reshape then TunnelIn(shape) else Nop, if reshape then TunnelOut(shape) else Nop;
    match kind
    case Simple => [Through(Nop, Input(idx), Output(idx), "0")]
    case Sequence =>
      [Through(first, Input(idx), Temp("temp", idx), "0"),
       Through(last, Temp("temp", idx), Output(idx), "0")]
    case Fan =>
      [Through(first, Input(idx), Temp("temp_in", idx), "0"),
       Through(Nop, Temp("temp_in", idx), Temp("temp_out", idx), "0"),
       Through(last, Temp("temp_out", idx), Output(idx), "0")]
  }

  function Hops(kind: EnsembleType): nat {
    match kind case Simple => 1 case Sequence => 2 case Fan => 3
  }

  function IdentitySteps(kind: EnsembleType, reshape: bool, shapes: seq<seq<int>>, n: nat): (r: seq<Step>)
    requires n <= |shapes|
    ensures |r| == n * Hops(kind)
  {
    if n == 0 then []
    else IdentitySteps(kind, reshape, shapes, n - 1) + IdentityChain(kind, reshape, shapes[n - 1], n - 1)
  }

  method BuildIdentity(kind: EnsembleType, reshape: bool, shapes: seq<seq<int>>) returns (steps: seq<Step>)
    ensures steps == IdentitySteps(kind, reshape, shapes, |shapes|)
  {
    steps := [];
    for idx := 0 to |shapes|
      invariant steps == IdentitySteps(kind, reshape, shapes, idx)
    {
      match kind {
        case Simple =>
          steps := steps + [Through(Nop, Input(idx), Output(idx), "0")];
        case Sequence =>
          var first, last := Nop, Nop;
          if reshape {
            first, last := TunnelIn(shapes[idx]), TunnelOut(shapes[idx]);
          }
          steps := steps + [Through(first, Input(idx), Temp("temp", idx), "0"),
                            Through(last, Temp("temp", idx), Output(idx), "0")];
        case Fan =>
          var first, last := Nop, Nop;
          if reshape {
            first, last := TunnelIn(shapes[idx]), TunnelOut(shapes[idx]);
          }
          steps := steps + [Through(first, Input(idx), Temp("temp_in", idx), "0"),
                            Through(Nop, Temp("temp_in", idx), Temp("temp_out", idx), "0"),
                            Through(last, Temp("temp_out", idx), Output(idx), "0")];
      }
    }
  }

  // With nops, every tensor goes through one, two or three of them. With tunnels, it goes through both ends of its
  // tunnel, with a nop in between in the fan; the simple ensemble has none.
  lemma {:induction false} IdentityShape(kind: EnsembleType, reshape: bool, shapes: seq<seq<int>>, idx: nat)
    requires idx < |shapes|
    ensures var steps, x := IdentitySteps(kind, reshape, shapes, |shapes|), shapes[idx];
      var first, last := if reshape then TunnelIn(x) else Nop, if reshape then TunnelOut(x) else Nop;
      match kind
      case Simple => |steps| == |shapes| && steps[idx].model == Nop
      case Sequence => |steps| == 2 * |shapes| && steps[2 * idx].model == first && steps[2 * idx + 1].model == last
      case Fan => |steps| == 3 * |shapes| && steps[3 * idx].model == first && steps[3 * idx + 1].model == Nop
                  && steps[3 * idx + 2].model == last
  {
    hide IdentitySteps;
    ChainAt(kind, reshape, shapes, |shapes|, idx, 0);
    if Hops(kind) > 1 { ChainAt(kind, reshape, shapes, |shapes|, idx, 1); }
    if Hops(kind) > 2 { ChainAt(kind, reshape, shapes, |shapes|, idx, 2); }
  }

  // Step 'h' for tensor 'idx' is number 'idx * Hops + h' of the schedule.
  lemma {:induction false} ChainAt(kind: EnsembleType, reshape: bool, shapes: seq<seq<int>>, n: nat, idx: nat, h: nat)
    requires idx < n <= |shapes| && h < Hops(kind)
    ensures idx * Hops(kind) + h < n * Hops(kind)
    ensures IdentitySteps(kind, reshape, shapes, n)[idx * Hops(kind) + h] ==
            IdentityChain(kind, reshape, shapes[idx], idx)[h]
  {
    if idx < n - 1 {
      ChainAt(kind, reshape, shapes, n - 1, idx, h);
    }
  }

  lemma {:induction false} StepAt(kind: EnsembleType, reshape: bool, shapes: seq<seq<int>>, n: nat,
      i: nat) returns (idx: nat, h: nat)
    requires n <= |shapes| && i < n * Hops(kind)
    ensures idx < n && h < Hops(kind) && i == idx * Hops(kind) + h
    ensures IdentitySteps(kind, reshape, shapes, n)[i] == IdentityChain(kind, reshape, shapes[idx], idx)[h]
  {
    hide IdentitySteps, IdentityChain;
    if i >= (n - 1) * Hops(kind) {
      idx, h := n - 1, i - (n - 1) * Hops(kind);
      ChainAt(kind, reshape, shapes, n, idx, h);
    } else {
      idx, h := StepAt(kind, reshape, shapes, n - 1, i);
      ChainAt(kind, reshape, shapes, n, idx, h);
    }
  }

  // The inputs of an ensemble.
  ghost predicate Fed(env: Env, n: nat) {
    forall x :: x in env <==> x.Input? && x.idx < n
  }

  // What a step of a chain reads and makes.
  lemma {:induction false} ChainNames(kind: EnsembleType, reshape: bool, shape: seq<int>, idx: nat, h: nat)
    requires h < Hops(kind)
    ensures var s := IdentityChain(kind, reshape, shape, idx)[h];
      && (forall x :: x in s.outs <==> x == HopName(kind, idx, h + 1))
      && (forall p :: p in s.ins ==> s.ins[p] == HopName(kind, idx, h))
  {}

  // Where tensor 'idx' is after 'h' steps.
  function HopName(kind: EnsembleType, idx: nat, h: nat): Name {
    if h == 0 then Input(idx)
    else if h >= Hops(kind) then Output(idx)
    else match kind
         case Simple => Input(idx)
         case Sequence => Temp("temp", idx)
         case Fan => if h == 1 then Temp("temp_in", idx) else Temp("temp_out", idx)
  }

  lemma {:induction false} HopDistinct(kind: EnsembleType, i: nat, h: nat, j: nat, g: nat)
    requires h <= Hops(kind) && g <= Hops(kind) && HopName(kind, i, h) == HopName(kind, j, g)
    ensures i == j && h == g
  {
    assert "temp_in"[5] != "temp_out"[5];
  }

  lemma {:induction false} IdentityWellFormed(kind: EnsembleType, reshape: bool, shapes: seq<seq<int>>, env: Env)
    requires Fed(env, |shapes|)
    ensures WellFormed(IdentitySteps(kind, reshape, shapes, |shapes|), env.Keys)
  {
    hide IdentityChain, IdentitySteps, HopName, Hops;
    var steps := IdentitySteps(kind, reshape, shapes, |shapes|);
    forall i | 0 <= i < |steps| ensures Supplied(steps, env.Keys, i) {
      IdentitySupplied(kind, reshape, shapes, env, i);
    }
    forall i, x | 0 <= i < |steps| && x in steps[i].outs ensures x !in env.Keys {
      IdentityFresh(kind, reshape, shapes, env, i, x);
    }
    forall i, j, x | 0 <= i < j < |steps| && x in steps[i].outs ensures x !in steps[j].outs {
      if x in steps[j].outs { IdentityOnce(kind, reshape, shapes, i, j, x); }
    }
  }

  lemma {:induction false} IdentitySupplied(kind: EnsembleType, reshape: bool, shapes: seq<seq<int>>, env: Env, i: nat)
    requires Fed(env, |shapes|) && i < |IdentitySteps(kind, reshape, shapes, |shapes|)|
    ensures Supplied(IdentitySteps(kind, reshape, shapes, |shapes|), env.Keys, i)
  {
    hide IdentityChain, IdentitySteps;
    var steps := IdentitySteps(kind, reshape, shapes, |shapes|);
    var idx, h := StepAt(kind, reshape, shapes, |shapes|, i);
    ChainNames(kind, reshape, shapes[idx], idx, h);
    if h > 0 {
      ChainAt(kind, reshape, shapes, |shapes|, idx, h - 1);
      ChainNames(kind, reshape, shapes[idx], idx, h - 1);
      assert HopName(kind, idx, h) in steps[i - 1].outs;
    }
  }

  lemma {:induction false} IdentityFresh(kind: EnsembleType, reshape: bool, shapes: seq<seq<int>>, env: Env, i: nat,
      x: Name)
    requires Fed(env, |shapes|) && i < |IdentitySteps(kind, reshape, shapes, |shapes|)|
    requires x in IdentitySteps(kind, reshape, shapes, |shapes|)[i].outs
    ensures x !in env
  {
    hide IdentityChain, IdentitySteps;
    var idx, h := StepAt(kind, reshape, shapes, |shapes|, i);
    ChainNames(kind, reshape, shapes[idx], idx, h);
  }

  lemma {:induction false} IdentityOnce(kind: EnsembleType, reshape: bool, shapes: seq<seq<int>>, i: nat, j: nat,
      x: Name)
    requires i < |IdentitySteps(kind, reshape, shapes, |shapes|)|
    requires j < |IdentitySteps(kind, reshape, shapes, |shapes|)|
    requires x in IdentitySteps(kind, reshape, shapes, |shapes|)[i].outs
    requires x in IdentitySteps(kind, reshape, shapes, |shapes|)[j].outs
    ensures i == j
  {
    hide IdentityChain, IdentitySteps, HopName, Hops;
    var a, h := StepAt(kind, reshape, shapes, |shapes|, i);
    var b, g := StepAt(kind, reshape, shapes, |shapes|, j);
    ChainNames(kind, reshape, shapes[a], a, h);
    ChainNames(kind, reshape, shapes[b], b, g);
    HopDistinct(kind, a, h + 1, b, g + 1);
  }

  // ---------------------------------------------------------------------------
  // Meaning

  // What one nop-like model makes of a tensor.
  function Passed(model: Model, v: Value): Value {
    match model
    case TunnelIn(shape) => Value([Product(Widened(shape))], v.data)
    case TunnelOut(shape) => Value(Widened(shape), v.data)
    case _ => v
  }

  lemma {:induction false} ThroughMakes(base: Base, model: Model, from: Name, to: Name, out: string, env: Env)
    requires model.Nop? || model.TunnelIn? || model.TunnelOut?
    requires from in env && (out == "0" || out == "1")
    ensures Makes(base, Through(model, from, to, out), env) == map[to := Passed(model, env[from])]
  {
    var s := Through(model, from, to, out);
    assert Reads(s, env) == map[In("0") := env[from], In("1") := env[from]];
  }

  lemma {:induction false} IdentityHop(base: Base, kind: EnsembleType, reshape: bool, shapes: seq<seq<int>>,
      env: Env, idx: nat, h: nat)
    requires Fed(env, |shapes|) && idx < |shapes| && h < Hops(kind)
    ensures var steps := IdentitySteps(kind, reshape, shapes, |shapes|);
      var final := Listed(base, steps, |steps|, env);
      var from, to := HopName(kind, idx, h), HopName(kind, idx, h + 1);
      from in final && to in final
      && final[to] == Passed(IdentityChain(kind, reshape, shapes[idx], idx)[h].model, final[from])
  {
    hide IdentitySteps, WellFormed, Listed, Fed, Makes;
    var steps := IdentitySteps(kind, reshape, shapes, |shapes|);
    var final := Listed(base, steps, |steps|, env);
    IdentityWellFormed(kind, reshape, shapes, env);
    ChainAt(kind, reshape, shapes, |shapes|, idx, h);
    ListedEquation(base, steps, env, idx * Hops(kind) + h);
    var s := IdentityChain(kind, reshape, shapes[idx], idx)[h];
    var from, to := HopName(kind, idx, h), HopName(kind, idx, h + 1);
    assert s == Through(s.model, from, to, "0");
    assert In("0") in s.ins && s.ins[In("0")] == from;
    ThroughMakes(base, s.model, from, to, "0", final);
  }

  // Every maximal firing order of an identity schedule maps each input to the output of the same number: as it is,
  // or, through a tunnel, with the shape the tunnel is made for and the same elements.
  lemma {:induction false} IdentityMeaning(base: Base, kind: EnsembleType, reshape: bool, shapes: seq<seq<int>>,
      env: Env, order: seq<nat>, idx: nat)
    requires Fed(env, |shapes|) && idx < |shapes|
    requires var steps := IdentitySteps(kind, reshape, shapes, |shapes|);
      Legal(base, steps, env, order) && Exhausted(base, steps, env, order)
    ensures var final := After(base, IdentitySteps(kind, reshape, shapes, |shapes|), env, order);
      && |order| == |shapes| * Hops(kind) && Input(idx) in env && Output(idx) in final
      && final[Output(idx)].data == env[Input(idx)].data
      && final[Output(idx)].shape == if reshape && !kind.Simple? then Widened(shapes[idx]) else env[Input(idx)].shape
  {
    hide IdentitySteps, WellFormed, Listed, After, Legal, Exhausted;
    var steps := IdentitySteps(kind, reshape, shapes, |shapes|);
    IdentityWellFormed(kind, reshape, shapes, env);
    Confluence(base, steps, env, order);
    var final := Listed(base, steps, |steps|, env);
    InputsStay(base, steps, env);
    IdentityHop(base, kind, reshape, shapes, env, idx, 0);
    if Hops(kind) > 1 { IdentityHop(base, kind, reshape, shapes, env, idx, 1); }
    if Hops(kind) > 2 { IdentityHop(base, kind, reshape, shapes, env, idx, 2); }
  }

  lemma {:induction false} InputsStay(base: Base, steps: seq<Step>, env: Env)
    requires WellFormed(steps, env.Keys)
    ensures Within(env, Listed(base, steps, |steps|, env))
  {
    WellFormedSingle(steps, env.Keys);
    ListedWithin(base, steps, env, 0, |steps|);
  }

  // ---------------------------------------------------------------------------
  // Tunnels

  // The inner dimension of a tunnel; none if a dimension is not fixed.
  method TunnelShape(shape: seq<int>) returns (r: Option<(seq<int>, int)>)
    ensures r.Some? <==> forall i :: 0 <= i < |shape| ==> shape[i] >= 0
    ensures r.Some? ==> r.value == (Widened(shape), Product(Widened(shape)))
    ensures r.Some? ==> r.value.0 == (if shape == [] then [1] else shape) && r.value.1 == Product(shape)
  {
    ProductOne(1);
    var tensorShape := shape;
    if |tensorShape| == 0 {
      tensorShape := [1];
    }
    var internalShape := 1;
    for i := 0 to |tensorShape|
      invariant internalShape == Product(tensorShape[..i])
      invariant forall j :: 0 <= j < i ==> tensorShape[j] >= 0
    {
      if tensorShape[i] < 0 {
        return None;
      }
      assert tensorShape[..i + 1][..i] == tensorShape[..i];
      internalShape := internalShape * tensorShape[i];
    }
    assert tensorShape[..|tensorShape|] == tensorShape;
    return Some((tensorShape, internalShape));
  }

  // A tensor keeps its elements, and its number of elements fits its shape, on both sides of a tunnel.
  lemma {:induction false} TunnelKeepsCount(shape: seq<int>, v: Value)
    requires v.shape == Widened(shape) && |v.data| == Product(v.shape) && forall i :: 0 <= i < |shape| ==> shape[i] >= 0
    ensures var inner := Passed(TunnelIn(shape), v);
      && |inner.data| == Product(inner.shape) == ElementCount(inner.shape)
      && Passed(TunnelOut(shape), inner) == v
  {
    var n := Product(Widened(shape));
    assert [n][..0] == [];
    assert Product([n]) == Product([]) * n;
  }

  // ---------------------------------------------------------------------------
  // Add/sub

  // A nop that passes two tensors on.
  function Pair(a: Name, b: Name, c: Name, d: Name): Step {
    Step(Nop, map[In("0") := a, In("1") := b], map[c := Out("0"), d := Out("1")])
  }

  function AddSubStep(libtorch: bool, a: Name, b: Name, c: Name, d: Name): Step {
    Step(AddSub(libtorch), map[In(Delimiter(libtorch) + "0") := a, In(Delimiter(libtorch) + "1") := b],
         map[c := Out(Delimiter(libtorch) + "0"), d := Out(Delimiter(libtorch) + "1")])
  }

  const SAME_INPUT := "same_input"
  const SAME_OUTPUT := "same_output"

  function AddSubSchedule(kind: EnsembleType, libtorch: bool): seq<Step> {
    match kind
    case Simple => [AddSubStep(libtorch, Input(0), Input(1), Output(0), Output(1))]
    case Sequence =>
      [Pair(Input(0), Input(1), Temp(SAME_INPUT, 0), Temp(SAME_INPUT, 1)),
       AddSubStep(libtorch, Temp(SAME_INPUT, 0), Temp(SAME_INPUT, 1), Output(0), Output(1))]
    case Fan =>
      [Pair(Input(0), Input(1), Temp(SAME_INPUT, 0), Temp(SAME_INPUT, 1)),
       AddSubStep(libtorch, Temp(SAME_INPUT, 0), Temp(SAME_INPUT, 1), Temp(SAME_OUTPUT, 0), Temp(SAME_OUTPUT, 1)),
       Through(Nop, Temp(SAME_OUTPUT, 0), Output(0), "0"),
       Through(Nop, Temp(SAME_OUTPUT, 1), Output(1), "1")]
  }

  // The simple ensemble runs the add/sub model alone; the others pass both inputs through one nop before it, and the
  // fan passes each output through a nop of its own after it. Ports of the model are named as its platform does.
  lemma {:induction false} AddSubShape(kind: EnsembleType, libtorch: bool)
    ensures Models(AddSubSchedule(kind, libtorch)) ==
      match kind
      case Simple => [AddSub(libtorch)]
      case Sequence => [Nop, AddSub(libtorch)]
      case Fan => [Nop, AddSub(libtorch), Nop, Nop]
    ensures var step := AddSubSchedule(kind, libtorch)[if kind.Simple? then 0 else 1];
      var zero, one := if libtorch then "__0" else "0", if libtorch then "__1" else "1";
      var a, b := if kind.Simple? then Input(0) else Temp("same_input", 0),
                  if kind.Simple? then Input(1) else Temp("same_input", 1);
      var c, d := if kind.Fan? then Temp("same_output", 0) else Output(0),
                  if kind.Fan? then Temp("same_output", 1) else Output(1);
      step.ins == map[In(zero) := a, In(one) := b] && step.outs == map[c := Out(zero), d := Out(one)]
  {
    assert Delimiter(libtorch) + "0" == if libtorch then "__0" else "0";
    assert Delimiter(libtorch) + "1" == if libtorch then "__1" else "1";
  }

  lemma {:induction false} PairMakes(base: Base, a: Name, b: Name, c: Name, d: Name, env: Env)
    requires a in env && b in env && c != d
    ensures Makes(base, Pair(a, b, c, d), env) == map[c := env[a], d := env[b]]
  {
    assert Reads(Pair(a, b, c, d), env) == map[In("0") := env[a], In("1") := env[b]];
  }

  lemma {:induction false} AddSubMakes(base: Base, libtorch: bool, a: Name, b: Name, c: Name, d: Name, env: Env)
    requires a in env && b in env && c != d
    ensures Makes(base, AddSubStep(libtorch, a, b, c, d), env) ==
      map[c := base.addSub(env[a], env[b]).0, d := base.addSub(env[a], env[b]).1]
  {
    var x, y := Delimiter(libtorch) + "0", Delimiter(libtorch) + "1";
    assert x[|x| - 1] != y[|y| - 1];
    assert Reads(AddSubStep(libtorch, a, b, c, d), env) == map[In(x) := env[a], In(y) := env[b]];
  }

  // The tensors a step reads and makes.
  predicate Touches(s: Step, from: set<Name>, to: set<Name>) {
    s.outs.Keys == to && forall p :: p in s.ins ==> s.ins[p] in from
  }

  lemma {:induction false} PairTouches(a: Name, b: Name, c: Name, d: Name)
    ensures Touches(Pair(a, b, c, d), {a, b}, {c, d})
  {}

  lemma {:induction false} AddSubTouches(libtorch: bool, a: Name, b: Name, c: Name, d: Name)
    ensures Touches(AddSubStep(libtorch, a, b, c, d), {a, b}, {c, d})
  {}

  // A step more at the end of a schedule.
  lemma {:induction false} WellFormedMore(steps: seq<Step>, inputs: set<Name>, s: Step, from: set<Name>, to: set<Name>)
    requires WellFormed(steps, inputs) && Touches(s, from, to)
    requires from <= inputs + MadeTo(steps, |steps|) && to !! inputs + MadeTo(steps, |steps|)
    ensures WellFormed(steps + [s], inputs)
    ensures MadeTo(steps + [s], |steps| + 1) == MadeTo(steps, |steps|) + to
  {
    var more := steps + [s];
    forall i | 0 <= i < |more| ensures Supplied(more, inputs, i) {
      if i < |steps| {
        assert more[i] == steps[i] && Supplied(steps, inputs, i);
        forall p | p in more[i].ins
          ensures more[i].ins[p] in inputs || exists j :: 0 <= j < i && more[i].ins[p] in more[j].outs
        {
          if more[i].ins[p] !in inputs {
            var j :| 0 <= j < i && steps[i].ins[p] in steps[j].outs;
            assert more[i].ins[p] in more[j].outs;
          }
        }
      } else {
        forall p | p in s.ins ensures s.ins[p] in inputs || exists j :: 0 <= j < i && s.ins[p] in more[j].outs {
          if s.ins[p] !in inputs {
            var j := Maker(steps, |steps|, s.ins[p]);
            assert s.ins[p] in more[j].outs;
          }
        }
      }
    }
    forall i, n | 0 <= i < |more| && n in more[i].outs ensures n !in inputs {
      if i == |steps| { assert n in to; }
    }
    forall i, j, n | 0 <= i < j < |more| && n in more[i].outs ensures n !in more[j].outs {
      if j == |steps| && n in s.outs {
        MadeBefore(steps, |steps|, i, n);
      }
    }
    MadePrefix(steps, s, |steps|);
  }

  lemma {:induction false} Maker(steps: seq<Step>, n: nat, x: Name) returns (j: nat)
    requires n <= |steps| && x in MadeTo(steps, n)
    ensures j < n && x in steps[j].outs
  {
    if x in steps[n - 1].outs.Keys { j := n - 1; } else { j := Maker(steps, n - 1, x); }
  }

  lemma {:induction false} MadePrefix(steps: seq<Step>, s: Step, n: nat)
    requires n <= |steps|
    ensures MadeTo(steps + [s], n) == MadeTo(steps, n)
  {
    if n > 0 { MadePrefix(steps, s, n - 1); }
  }

  lemma {:induction false} AddSubWellFormed(kind: EnsembleType, libtorch: bool, env: Env)
    requires Fed(env, 2)
    ensures WellFormed(AddSubSchedule(kind, libtorch), env.Keys)
  {
    hide Pair, AddSubStep, Through, WellFormed, MadeTo, Touches;
    NothingWellFormed(env.Keys);
    if kind.Simple? {
      AddSubTouches(libtorch, Input(0), Input(1), Output(0), Output(1));
      WellFormedMore([], env.Keys, AddSubStep(libtorch, Input(0), Input(1), Output(0), Output(1)),
                     {Input(0), Input(1)}, {Output(0), Output(1)});
      assert [] + AddSubSchedule(kind, libtorch) == AddSubSchedule(kind, libtorch);
    } else {
      AddSubLonger(kind, libtorch, env);
    }
  }

  lemma {:induction false} NothingWellFormed(inputs: set<Name>)
    ensures WellFormed([], inputs) && MadeTo([], 0) == {}
  {}

  lemma {:induction false} AddSubLonger(kind: EnsembleType, libtorch: bool, env: Env)
    requires Fed(env, 2) && !kind.Simple?
    ensures WellFormed(AddSubSchedule(kind, libtorch), env.Keys)
  {
    hide Pair, AddSubStep, Through, WellFormed, MadeTo, Touches;
    NothingWellFormed(env.Keys);
    var in0, in1, out0, out1 := Temp(SAME_INPUT, 0), Temp(SAME_INPUT, 1), Temp(SAME_OUTPUT, 0), Temp(SAME_OUTPUT, 1);
    var made0, made1 := Output(0), Output(1);
    if kind.Fan? { made0, made1 := out0, out1; }
    assert SAME_INPUT[5] != SAME_OUTPUT[5];
    PairTouches(Input(0), Input(1), in0, in1);
    AddSubTouches(libtorch, in0, in1, made0, made1);
    var first, second := Pair(Input(0), Input(1), in0, in1), AddSubStep(libtorch, in0, in1, made0, made1);
    WellFormedMore([], env.Keys, first, {Input(0), Input(1)}, {in0, in1});
    assert [] + [first] == [first];
    WellFormedMore([first], env.Keys, second, {in0, in1}, {made0, made1});
    assert [first] + [second] == [first, second];
    if kind.Fan? { AddSubFan([first, second], libtorch, env); }
  }

  lemma {:induction false} AddSubFan(steps: seq<Step>, libtorch: bool, env: Env)
    requires Fed(env, 2) && WellFormed(steps, env.Keys) && |steps| == 2
    requires MadeTo(steps, 2) == {Temp(SAME_INPUT, 0), Temp(SAME_INPUT, 1), Temp(SAME_OUTPUT, 0), Temp(SAME_OUTPUT, 1)}
    ensures WellFormed([steps[0], steps[1], Through(Nop, Temp(SAME_OUTPUT, 0), Output(0), "0"),
                        Through(Nop, Temp(SAME_OUTPUT, 1), Output(1), "1")], env.Keys)
  {
    hide Through, WellFormed, MadeTo, Touches;
    var out0, out1 := Temp(SAME_OUTPUT, 0), Temp(SAME_OUTPUT, 1);
    var third, fourth := Through(Nop, out0, Output(0), "0"), Through(Nop, out1, Output(1), "1");
    ThroughTouches(Nop, out0, Output(0), "0");
    ThroughTouches(Nop, out1, Output(1), "1");
    WellFormedMore(steps, env.Keys, third, {out0}, {Output(0)});
    WellFormedMore(steps + [third], env.Keys, fourth, {out1}, {Output(1)});
    assert steps + [third] + [fourth] == [steps[0], steps[1], third, fourth];
  }

  lemma {:induction false} ThroughTouches(model: Model, from: Name, to: Name, out: string)
    ensures Touches(Through(model, from, to, out), {from}, {to})
  {}

  // The add/sub ensembles give what the add/sub model gives, in every firing order.
  lemma {:induction false} AddSubMeaning(base: Base, kind: EnsembleType, libtorch: bool, env: Env, order: seq<nat>)
    requires Fed(env, 2)
    requires Legal(base, AddSubSchedule(kind, libtorch), env, order)
    requires Exhausted(base, AddSubSchedule(kind, libtorch), env, order)
    ensures var final := After(base, AddSubSchedule(kind, libtorch), env, order);
      && |order| == |AddSubSchedule(kind, libtorch)|
      && Input(0) in env && Input(1) in env && Output(0) in final && Output(1) in final
      && (final[Output(0)], final[Output(1)]) == base.addSub(env[Input(0)], env[Input(1)])
  {
    hide WellFormed, Listed, After, Legal, Exhausted, Makes, Ready;
    var steps := AddSubSchedule(kind, libtorch);
    AddSubWellFormed(kind, libtorch, env);
    Confluence(base, steps, env, order);
    var final := Listed(base, steps, |steps|, env);
    InputsStay(base, steps, env);
    assert Input(0) in env && Input(1) in env;
    if kind.Simple? {
      AddSubMakes(base, libtorch, Input(0), Input(1), Output(0), Output(1), final);
      ListedEquation(base, steps, env, 0);
    } else {
      PairMakes(base, Input(0), Input(1), Temp(SAME_INPUT, 0), Temp(SAME_INPUT, 1), final);
      ListedEquation(base, steps, env, 0);
      ListedEquation(base, steps, env, 1);
      if kind.Sequence? {
        AddSubMakes(base, libtorch, Temp(SAME_INPUT, 0), Temp(SAME_INPUT, 1), Output(0), Output(1), final);
      } else {
        AddSubMakes(base, libtorch, Temp(SAME_INPUT, 0), Temp(SAME_INPUT, 1),
                    Temp(SAME_OUTPUT, 0), Temp(SAME_OUTPUT, 1), final);
        ThroughMakes(base, Nop, Temp(SAME_OUTPUT, 0), Output(0), "0", final);
        ThroughMakes(base, Nop, Temp(SAME_OUTPUT, 1), Output(1), "1", final);
        ListedEquation(base, steps, env, 2);
        ListedEquation(base, steps, env, 3);
      }
    }
  }

  // ---------------------------------------------------------------------------
  // Sequence models

  function AccumulatorStep(libtorch: bool, from: Name, to: Name): Step {
    Step(Accumulator(libtorch), map[In(Suffix(libtorch)) := from], map[to := Out(Suffix(libtorch))])
  }

  // Nops cannot handle strings, so that these always have the simple schedule.
  function SequenceSchedule(kind: EnsembleType, libtorch: bool, isString: bool): seq<Step> {
    if kind.Simple? || isString then [AccumulatorStep(libtorch, Input(0), Output(0))]
    else if kind.Sequence? then
      [Through(Nop, Input(0), Temp(SAME_INPUT, 0), "0"),
       AccumulatorStep(libtorch, Temp(SAME_INPUT, 0), Output(0))]
    else
      [Through(Nop, Input(0), Temp(SAME_INPUT, 0), "0"),
       AccumulatorStep(libtorch, Temp(SAME_INPUT, 0), Temp(SAME_OUTPUT, 0)),
       Through(Nop, Temp(SAME_OUTPUT, 0), Output(0), "0")]
  }

  // The models of a schedule, in the order of the list.
  function Models(steps: seq<Step>): (r: seq<Model>)
    ensures |r| == |steps| && forall i :: 0 <= i < |r| ==> r[i] == steps[i].model
  {
    seq(|steps|, i requires 0 <= i < |steps| => steps[i].model)
  }

  // A string goes straight through the sequence model, whatever the type of the ensemble, and meets no nop. All other
  // values meet a nop first, but in the simple ensemble, and one more after the model in the fan. The port of the model
  // has the suffix of its platform.
  lemma {:induction false} SequenceShape(kind: EnsembleType, libtorch: bool, isString: bool)
    ensures var steps, model := SequenceSchedule(kind, libtorch, isString), Accumulator(libtorch);
      Models(steps) ==
        if isString then [model]
        else match kind case Simple => [model] case Sequence => [Nop, model] case Fan => [Nop, model, Nop]
    ensures var steps, port := SequenceSchedule(kind, libtorch, isString), if libtorch then "__0" else "";
      forall i :: 0 <= i < |steps| && steps[i].model.Accumulator? ==>
        && steps[i].ins == map[In(port) := if i == 0 then Input(0) else Temp("same_input", 0)]
        && steps[i].outs == map[(if i == |steps| - 1 then Output(0) else Temp("same_output", 0)) := Out(port)]
    ensures var steps := SequenceSchedule(kind, libtorch, isString);
      forall i :: 0 <= i < |steps| && steps[i].model.Nop? ==>
        exists from, to :: steps[i].ins == map[In("0") := from, In("1") := from] && steps[i].outs == map[to := Out("0")]
  {
    var steps := SequenceSchedule(kind, libtorch, isString);
    if |steps| > 1 { assert steps[0] == Through(Nop, Input(0), Temp("same_input", 0), "0"); }
    if |steps| > 2 { assert steps[2] == Through(Nop, Temp("same_output", 0), Output(0), "0"); }
  }

  // Which step runs the sequence model, and the value that it takes in.
  function AccumulatorAt(kind: EnsembleType, isString: bool): nat {
    if kind.Simple? || isString then 0 else 1
  }

  function Taken(s: Step, libtorch: bool, env: Env): Value {
    Get(Reads(s, env), In(Suffix(libtorch)))
  }

  lemma {:induction false} AccumulatorMakes(base: Base, libtorch: bool, from: Name, to: Name, env: Env)
    requires from in env
    ensures Makes(base, AccumulatorStep(libtorch, from, to), env) == map[to := base.accumulate(env[from])]
    ensures Taken(AccumulatorStep(libtorch, from, to), libtorch, env) == env[from]
  {
    assert Reads(AccumulatorStep(libtorch, from, to), env) == map[In(Suffix(libtorch)) := env[from]];
  }

  lemma {:induction false} SequenceWellFormed(kind: EnsembleType, libtorch: bool, isString: bool, env: Env)
    requires Fed(env, 1)
    ensures WellFormed(SequenceSchedule(kind, libtorch, isString), env.Keys)
  {
    assert SAME_INPUT[5] != SAME_OUTPUT[5];
    var steps := SequenceSchedule(kind, libtorch, isString);
    if |steps| > 1 { assert steps[0].outs.Keys == {Temp(SAME_INPUT, 0)}; }
    if |steps| > 2 { assert steps[1].outs.Keys == {Temp(SAME_OUTPUT, 0)}; }
    assert steps[|steps| - 1].outs.Keys == {Output(0)};
  }

  lemma {:induction false} SequenceMeaning(base: Base, kind: EnsembleType, libtorch: bool, isString: bool, env: Env,
      order: seq<nat>)
    requires Fed(env, 1)
    requires Legal(base, SequenceSchedule(kind, libtorch, isString), env, order)
    requires Exhausted(base, SequenceSchedule(kind, libtorch, isString), env, order)
    ensures var final := After(base, SequenceSchedule(kind, libtorch, isString), env, order);
      && |order| == |SequenceSchedule(kind, libtorch, isString)|
      && Input(0) in env && Output(0) in final && final[Output(0)] == base.accumulate(env[Input(0)])
      && var steps := SequenceSchedule(kind, libtorch, isString);
         Taken(steps[AccumulatorAt(kind, isString)], libtorch, final) == env[Input(0)]
  {
    hide WellFormed, Listed, After, Legal, Exhausted, Makes, Ready;
    var steps := SequenceSchedule(kind, libtorch, isString);
    SequenceWellFormed(kind, libtorch, isString, env);
    Confluence(base, steps, env, order);
    var final := Listed(base, steps, |steps|, env);
    InputsStay(base, steps, env);
    assert Input(0) in env;
    ListedEquation(base, steps, env, 0);
    if |steps| == 1 {
      AccumulatorMakes(base, libtorch, Input(0), Output(0), final);
    } else {
      ThroughMakes(base, Nop, Input(0), Temp(SAME_INPUT, 0), "0", final);
      ListedEquation(base, steps, env, 1);
      if |steps| == 2 {
        AccumulatorMakes(base, libtorch, Temp(SAME_INPUT, 0), Output(0), final);
      } else {
        AccumulatorMakes(base, libtorch, Temp(SAME_INPUT, 0), Temp(SAME_OUTPUT, 0), final);
        ListedEquation(base, steps, env, 2);
        ThroughMakes(base, Nop, Temp(SAME_OUTPUT, 0), Output(0), "0", final);
      }
    }
  }

  // ---------------------------------------------------------------------------
  // A whole sequence

  // A sequence model keeps a state from request to request.
  datatype Stateful<!S> = Stateful(answer: (S, Value) -> Value, next: (S, Value) -> S)

  function InState<S>(base: Base, m: Stateful<S>, state: S): Base {
    base.(accumulate := v => m.answer(state, v))
  }

  // What the base model answers to these requests, one after the other.
  function Answers<S>(m: Stateful<S>, state: S, inputs: seq<Value>): seq<Value> {
    if inputs == [] then []
    else [m.answer(state, inputs[0])] + Answers(m, m.next(state, inputs[0]), inputs[1..])
  }

  // The ensemble has been given these requests, each with its own order of the steps. The state is what the
  // step that runs the model leaves, having taken in what it finds.
  ghost predicate Session<S(!new)>(base: Base, m: Stateful<S>, state: S, kind: EnsembleType, libtorch: bool,
      isString: bool, envs: seq<Env>, orders: seq<seq<nat>>)
  {
    |orders| == |envs|
    && (envs != [] ==>
          && var steps := SequenceSchedule(kind, libtorch, isString);
          var here := InState(base, m, state);
          && Fed(envs[0], 1) && Legal(here, steps, envs[0], orders[0]) && Exhausted(here, steps, envs[0], orders[0])
          && var value := Taken(steps[AccumulatorAt(kind, isString)], libtorch, After(here, steps, envs[0], orders[0]));
          Session(base, m, m.next(state, value), kind, libtorch, isString, envs[1..], orders[1..]))
  }

  ghost function Outputs<S(!new)>(base: Base, m: Stateful<S>, state: S, kind: EnsembleType, libtorch: bool,
      isString: bool, envs: seq<Env>, orders: seq<seq<nat>>): seq<Value>
    requires Session(base, m, state, kind, libtorch, isString, envs, orders)
  {
    if envs == [] then []
    else
      var steps, here := SequenceSchedule(kind, libtorch, isString), InState(base, m, state);
      var final := After(here, steps, envs[0], orders[0]);
      var value := Taken(steps[AccumulatorAt(kind, isString)], libtorch, final);
      [if Output(0) in final then final[Output(0)] else Value([], [])]
      + Outputs(base, m, m.next(state, value), kind, libtorch, isString, envs[1..], orders[1..])
  }

  function FirstInputs(envs: seq<Env>): (r: seq<Value>)
    ensures |r| == |envs|
  {
    seq(|envs|, k requires 0 <= k < |envs| => if Input(0) in envs[k] then envs[k][Input(0)] else Value([], []))
  }

  // The ensemble answers a whole sequence as the base model does, whatever the order of its steps each time.
  lemma {:induction false} SessionMeaning<S(!new)>(base: Base, m: Stateful<S>, state: S, kind: EnsembleType,
      libtorch: bool, isString: bool, envs: seq<Env>, orders: seq<seq<nat>>)
    requires Session(base, m, state, kind, libtorch, isString, envs, orders)
    ensures Outputs(base, m, state, kind, libtorch, isString, envs, orders) == Answers(m, state, FirstInputs(envs))
    decreases |envs|
  {
    hide WellFormed, Listed, After, Legal, Exhausted, Makes, Ready, Taken, SequenceSchedule;
    if envs != [] {
      var input := FirstInputs(envs)[0];
      SequenceMeaning(InState(base, m, state), kind, libtorch, isString, envs[0], orders[0]);
      assert FirstInputs(envs)[1..] == FirstInputs(envs[1..]);
      SessionMeaning(base, m, m.next(state, input), kind, libtorch, isString, envs[1..], orders[1..]);
    }
  }
}
