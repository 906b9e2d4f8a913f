/** The abstract engine that the module loaders, updaters and the user API build on.

    The engine's own source is not part of this model: only the operations the
    loaders call are given, each with the smallest contract that matches how the
    loaders use it. Both code generations are covered by one interface:
    `AddQuant` stands for AddQuant and AddNewQuant, `AddOde` for ODE1 and AddPDE1.
    Quantities are values in the engine's table, addressed by name. Every
    operation is first given as a function on the engine's state (`...Op`),
    then as a method of the `Engine` class that performs it in place. */
module Engine {
  import opened Wrappers

  datatype Shape = Scalar | Vector
  datatype Kind = Value | Mask | Field

  /** A predicate a new value must pass before it is stored. */
  datatype Verifier = NoVerifier | NonZero

  /** Weight of a parent in a sum updater; 1/Mu0 is kept symbolic. */
  datatype Weight = UnitWeight | InvMu0

  datatype Parent = Parent(name: string, weight: Weight)

  /** The three heat-flux kernels of the three-temperature model. */
  datatype HeatFlux = ElectronFlux | SpinFlux | PhononFlux

  /** The update rule attached to a quantity. Each variant names the quantities
      its source struct holds references to (besides the output itself). */
  datatype Updater =
    | NoUpdater
    | Sum(parents: seq<Parent>)
    | Torque(m: string, h: string, alpha: string, gamma: string)
    | Heat(flux: HeatFlux, te: string, tl: string, ts: string, params: seq<string>)
    | UniaxialAnis(m: string, ku1: string, ku2: string, anisU: string)

  /** A quantity: shape, storage kind, multiplier, verifier, update rule and
      the contents of its backing array (empty while not materialised). */
  datatype Quant = Quant(shape: Shape, kind: Kind, multiplier: seq<real>,
                         verifier: Verifier, updater: Updater, data: seq<real>)

  /** `child` is declared to depend on `parent`. */
  datatype Dep = Dep(child: string, parent: string)

  /** d(state)/dt = derivative. */
  datatype Ode = Ode(state: string, derivative: string)

  /** Everything the engine holds, as one value. `inFlight` holds the outputs
      of kernels that were launched and not yet synchronised. */
  datatype EngineState = EngineState(
    quants: map<string, Quant>,
    edges: set<Dep>,
    odes: seq<Ode>,
    inFlight: set<string>,
    gridSize: seq<int>,
    cellSize: seq<real>)

  function Components(s: Shape): nat
  {
    if s == Scalar then 1 else 3
  }

  /** A freshly declared quantity: unit multiplier, no verifier, no updater. */
  function NewQuant(shape: Shape, kind: Kind): Quant
  {
    Quant(shape, kind, seq(Components(shape), _ => 1.0), NoVerifier, NoUpdater, [])
  }

  /** The quantities an update rule refers to, in the order of its fields. */
  function UpdaterRefs(u: Updater): seq<string>
  {
    match u
    case NoUpdater => []
    case Sum(ps) => seq(|ps|, i requires 0 <= i < |ps| => ps[i].name)
    case Torque(m, h, alpha, gamma) => [m, h, alpha, gamma]
    case Heat(_, te, tl, ts, params) => [te, tl, ts] + params
    case UniaxialAnis(m, ku1, ku2, anisU) => [m, ku1, ku2, anisU]
  }

  predicate AllDeclared(qs: map<string, Quant>, names: seq<string>)
  {
    forall n :: n in names ==> n in qs
  }

  /** Every name the engine mentions is a declared quantity, and every
      multiplier has one entry per component. */
  ghost predicate ValidState(s: EngineState)
  {
    && (forall d :: d in s.edges ==> d.child in s.quants && d.parent in s.quants)
    && (forall o :: o in s.odes ==> o.state in s.quants && o.derivative in s.quants)
    && (forall n :: n in s.quants ==>
          |s.quants[n].multiplier| == Components(s.quants[n].shape)
          && AllDeclared(s.quants, UpdaterRefs(s.quants[n].updater)))
  }

  /** The edges `Depends(child, parents...)` adds. */
  function DepSet(child: string, parents: seq<string>): set<Dep>
  {
    set p | p in parents :: Dep(child, p)
  }

  /** The edges of `Depends(child, parents...)` are exactly child -> each parent. */
  lemma DepSetMembers(child: string, parents: seq<string>)
    ensures forall d :: d in DepSet(child, parents) <==> d.child == child && d.parent in parents
  {
  }

  lemma DepSetSingle(child: string, parent: string)
    ensures DepSet(child, [parent]) == {Dep(child, parent)}
  {
    assert parent in [parent];
  }

  predicate Accepts(v: Verifier, value: seq<real>)
  {
    v == NonZero ==> forall i :: 0 <= i < |value| ==> value[i] != 0.0
  }

  /** Why a new value for quantity `q` is refused, if it is: only a VALUE or
      a MASK takes a value. */
  function ValueError(name: string, q: Quant, value: seq<real>): Option<Error>
  {
    if q.kind == Field then Some(WrongKind(name))
    else if |value| != Components(q.shape) then Some(BadArity(name))
    else if !Accepts(q.verifier, value) then Some(InputErr("invalid value for " + name))
    else None
  }

  /** The first name of `names` that is not a key of `qs`. */
  function FirstMissing(qs: map<string, Quant>, names: seq<string>): (r: Option<string>)
    ensures r.None? <==> AllDeclared(qs, names)
    ensures r.Some? ==> r.value !in qs
  {
    if |names| == 0 then None
    else if names[0] !in qs then Some(names[0])
    else
      assert forall n :: n in names ==> n == names[0] || n in names[1..];
      FirstMissing(qs, names[1..])
  }

  // ----------------------------------------------------- operations on states
  // Each returns the outcome and the new state; a failure leaves the state as
  // it was, because the source panics before it changes anything.

  /** Quant(name): looking up an undeclared name panics; a lookup changes
      nothing. */
  function LookupOp(s: EngineState, name: string): (res: (Outcome, EngineState))
    ensures res.1 == s
    ensures res.0.Pass? <==> name in s.quants
    ensures res.0.Fail? ==> res.0.error == NoSuchQuant(name)
  {
    if name in s.quants then (Pass, s) else (Fail(NoSuchQuant(name)), s)
  }

  /** AddQuant / AddNewQuant: a name can be declared only once. */
  function AddQuantOp(s: EngineState, name: string, shape: Shape, kind: Kind): (res: (Outcome, EngineState))
    ensures res.0.Pass? <==> name !in s.quants
    ensures res.0.Fail? ==> res == (Fail(DuplicateQuant(name)), s)
  {
    if name in s.quants then (Fail(DuplicateQuant(name)), s)
    else (Pass, s.(quants := s.quants[name := NewQuant(shape, kind)]))
  }

  /** Depends(child, parents...): every name must be declared. */
  function DependsOp(s: EngineState, child: string, parents: seq<string>): (res: (Outcome, EngineState))
    ensures res.0.Pass? <==> child in s.quants && AllDeclared(s.quants, parents)
    ensures res.0.Fail? ==> res.0.error.NoSuchQuant? && res.1 == s
  {
    if child !in s.quants then (Fail(NoSuchQuant(child)), s)
    else match FirstMissing(s.quants, parents)
      case Some(n) => (Fail(NoSuchQuant(n)), s)
      case None => (Pass, s.(edges := s.edges + DepSet(child, parents)))
  }

  /** Quant.SetUpdater: every quantity the rule refers to must be declared
      (the source looks each one up when it builds the updater). */
  function SetUpdaterOp(s: EngineState, name: string, u: Updater): (res: (Outcome, EngineState))
    ensures res.0.Pass? <==> name in s.quants && AllDeclared(s.quants, UpdaterRefs(u))
    ensures res.0.Fail? ==> res.0.error.NoSuchQuant? && res.1 == s
  {
    if name !in s.quants then (Fail(NoSuchQuant(name)), s)
    else match FirstMissing(s.quants, UpdaterRefs(u))
      case Some(n) => (Fail(NoSuchQuant(n)), s)
      case None => (Pass, s.(quants := s.quants[name := s.quants[name].(updater := u)]))
  }

  /** SumUpdater.AddParent / MAddParent on the updater of `sum`; fails where
      the source's type assertion `.(*SumUpdater)` would panic. SumUpdater
      itself is not part of this model: the refusal of a missing parent is
      assumed, and no sum-to-parent dependency edge is recorded. */
  function AddParentOp(s: EngineState, sum: string, parent: string, weight: Weight): (res: (Outcome, EngineState))
    ensures res.0.Pass? <==> sum in s.quants && s.quants[sum].updater.Sum? && parent in s.quants
    ensures sum in s.quants && !s.quants[sum].updater.Sum? ==> res.0 == Fail(NotSumUpdater(sum))
    ensures res.0.Fail? ==> res.1 == s
  {
    if sum !in s.quants then (Fail(NoSuchQuant(sum)), s)
    else if !s.quants[sum].updater.Sum? then (Fail(NotSumUpdater(sum)), s)
    else if parent !in s.quants then (Fail(NoSuchQuant(parent)), s)
    else
      var q := s.quants[sum];
      (Pass, s.(quants := s.quants[sum := q.(updater := Sum(q.updater.parents + [Parent(parent, weight)]))]))
  }

  /** Quant.SetScalar: the multiplier of a scalar quantity becomes [v]. */
  function SetScalarOp(s: EngineState, name: string, v: real): (res: (Outcome, EngineState))
    ensures res.0.Pass? <==> name in s.quants && s.quants[name].shape == Scalar
    ensures res.0.Fail? ==> res.1 == s
  {
    if name !in s.quants then (Fail(NoSuchQuant(name)), s)
    else if s.quants[name].shape != Scalar then (Fail(BadArity(name)), s)
    else (Pass, s.(quants := s.quants[name := s.quants[name].(multiplier := [v])]))
  }

  /** Quant.SetVerifier. */
  function SetVerifierOp(s: EngineState, name: string, v: Verifier): (res: (Outcome, EngineState))
    ensures res.0.Pass? <==> name in s.quants
    ensures res.0.Fail? ==> res.1 == s
  {
    if name !in s.quants then (Fail(NoSuchQuant(name)), s)
    else (Pass, s.(quants := s.quants[name := s.quants[name].(verifier := v)]))
  }

  /** Quant.SetValue: stores a new multiplier if the quantity is a VALUE or a
      MASK, the value has the right arity and the quantity's verifier accepts
      it. */
  function SetValueOp(s: EngineState, name: string, value: seq<real>): (res: (Outcome, EngineState))
    ensures res.0.Pass? <==> name in s.quants && s.quants[name].kind != Field
                             && |value| == Components(s.quants[name].shape)
                             && Accepts(s.quants[name].verifier, value)
    ensures name in s.quants && s.quants[name].kind == Field ==> res.0 == Fail(WrongKind(name))
    ensures res.0.Fail? ==> res.1 == s
  {
    if name !in s.quants then (Fail(NoSuchQuant(name)), s)
    else match ValueError(name, s.quants[name], value)
      case Some(err) => (Fail(err), s)
      case None => (Pass, s.(quants := s.quants[name := s.quants[name].(multiplier := value)]))
  }

  /** ODE1 / AddPDE1: d(state)/dt = derivative, both declared. */
  function AddOdeOp(s: EngineState, state: string, derivative: string): (res: (Outcome, EngineState))
    ensures res.0.Pass? <==> state in s.quants && derivative in s.quants
    ensures res.0.Fail? ==> res.0.error.NoSuchQuant? && res.1 == s
  {
    if state !in s.quants then (Fail(NoSuchQuant(state)), s)
    else if derivative !in s.quants then (Fail(NoSuchQuant(derivative)), s)
    else (Pass, s.(odes := s.odes + [Ode(state, derivative)]))
  }

  /** The updater refers to the same names after one more parent is appended. */
  lemma SumRefsAppend(ps: seq<Parent>, p: Parent)
    ensures forall n :: n in UpdaterRefs(Sum(ps + [p])) <==> n in UpdaterRefs(Sum(ps)) || n == p.name
  {
    var a := UpdaterRefs(Sum(ps));
    var b := UpdaterRefs(Sum(ps + [p]));
    assert b == a + [p.name];
  }

  /** Every operation keeps a valid state valid. */
  lemma AddQuantKeepsValid(s: EngineState, name: string, shape: Shape, kind: Kind)
    requires ValidState(s)
    ensures ValidState(AddQuantOp(s, name, shape, kind).1)
  {
  }

  lemma DependsKeepsValid(s: EngineState, child: string, parents: seq<string>)
    requires ValidState(s)
    ensures ValidState(DependsOp(s, child, parents).1)
  {
    DepSetMembers(child, parents);
  }

  lemma SetUpdaterKeepsValid(s: EngineState, name: string, u: Updater)
    requires ValidState(s)
    ensures ValidState(SetUpdaterOp(s, name, u).1)
  {
  }

  lemma SetScalarKeepsValid(s: EngineState, name: string, v: real)
    requires ValidState(s)
    ensures ValidState(SetScalarOp(s, name, v).1)
  {
  }

  lemma SetVerifierKeepsValid(s: EngineState, name: string, v: Verifier)
    requires ValidState(s)
    ensures ValidState(SetVerifierOp(s, name, v).1)
  {
  }

  lemma SetValueKeepsValid(s: EngineState, name: string, value: seq<real>)
    requires ValidState(s)
    ensures ValidState(SetValueOp(s, name, value).1)
  {
  }

  lemma AddOdeKeepsValid(s: EngineState, state: string, derivative: string)
    requires ValidState(s)
    ensures ValidState(AddOdeOp(s, state, derivative).1)
  {
  }

  lemma AddParentKeepsValid(s: EngineState, sum: string, parent: string, weight: Weight)
    requires ValidState(s)
    ensures ValidState(AddParentOp(s, sum, parent, weight).1)
  {
    if AddParentOp(s, sum, parent, weight).0.Pass? {
      SumRefsAppend(s.quants[sum].updater.parents, Parent(parent, weight));
    }
  }

  // ---------------------------------------------------------------- the graph

  /** `p` follows dependency edges from child to parent, at least one step. */
  ghost predicate IsPath(edges: set<Dep>, p: seq<string>)
  {
    |p| >= 2 && forall i :: 0 <= i < |p| - 1 ==> Dep(p[i], p[i + 1]) in edges
  }

  /** `a` depends on `b` through a chain of declared dependencies. */
  ghost predicate DependsOn(edges: set<Dep>, a: string, b: string)
  {
    exists p :: IsPath(edges, p) && p[0] == a && p[|p| - 1] == b
  }

  ghost predicate Acyclic(edges: set<Dep>)
  {
    forall p :: IsPath(edges, p) ==> p[0] != p[|p| - 1]
  }

  /** The side conditions of adding new edges `added` to `edges`, where `rank`
      holds the newly declared quantities: `edges` touches none of them, every
      added edge leaves a new quantity, and an added edge into a new quantity
      goes to one of lower rank. */
  ghost predicate FreshLayer(edges: set<Dep>, added: set<Dep>, rank: map<string, nat>)
  {
    && (forall d :: d in edges ==> d.child !in rank && d.parent !in rank)
    && (forall d :: d in added ==> d.child in rank)
    && (forall d :: d in added && d.parent in rank ==> rank[d.parent] < rank[d.child])
  }

  /** A path that starts outside the new layer never enters it, and uses old edges only. */
  lemma {:induction false} PathStaysOld(edges: set<Dep>, added: set<Dep>, rank: map<string, nat>, p: seq<string>)
    requires FreshLayer(edges, added, rank)
    requires IsPath(edges + added, p) && p[0] !in rank
    ensures IsPath(edges, p) && p[|p| - 1] !in rank
    decreases |p|
  {
    assert Dep(p[0], p[1]) in edges + added;
    assert Dep(p[0], p[1]) in edges;
    if |p| > 2 {
      var q := p[1..];
      assert IsPath(edges + added, q) by {
        forall i | 0 <= i < |q| - 1 ensures Dep(q[i], q[i + 1]) in edges + added {
          assert q[i] == p[i + 1] && q[i + 1] == p[i + 2];
        }
      }
      PathStaysOld(edges, added, rank, q);
      forall i | 0 <= i < |p| - 1 ensures Dep(p[i], p[i + 1]) in edges {
        if i > 0 {
          assert q[i - 1] == p[i] && q[i] == p[i + 1];
        }
      }
    }
  }

  /** Along a path that starts and ends in the new layer, the rank strictly drops. */
  lemma {:induction false} PathRankDrops(edges: set<Dep>, added: set<Dep>, rank: map<string, nat>, p: seq<string>)
    requires FreshLayer(edges, added, rank)
    requires IsPath(edges + added, p) && p[0] in rank && p[|p| - 1] in rank
    ensures rank[p[|p| - 1]] < rank[p[0]]
    decreases |p|
  {
    var d := Dep(p[0], p[1]);
    assert d in edges + added;
    assert d in added;
    if |p| > 2 {
      var q := p[1..];
      assert IsPath(edges + added, q) by {
        forall i | 0 <= i < |q| - 1 ensures Dep(q[i], q[i + 1]) in edges + added {
          assert q[i] == p[i + 1] && q[i + 1] == p[i + 2];
        }
      }
      if p[1] !in rank {
        PathStaysOld(edges, added, rank, q);
        assert false;
      }
      PathRankDrops(edges, added, rank, q);
    }
  }

  /** Adding a layer of new quantities whose edges go down in rank keeps the
      dependency graph acyclic. */
  lemma ExtendAcyclic(edges: set<Dep>, added: set<Dep>, rank: map<string, nat>)
    requires Acyclic(edges)
    requires FreshLayer(edges, added, rank)
    ensures Acyclic(edges + added)
  {
    forall p | IsPath(edges + added, p) ensures p[0] != p[|p| - 1] {
      if p[0] in rank {
        if p[|p| - 1] in rank {
          PathRankDrops(edges, added, rank, p);
        }
      } else {
        PathStaysOld(edges, added, rank, p);
      }
    }
  }

  /** In a valid state, the edges touch only declared quantities, so a layer of
      undeclared names is fresh. */
  lemma ValidExtendAcyclic(s: EngineState, added: set<Dep>, rank: map<string, nat>)
    requires ValidState(s) && Acyclic(s.edges)
    requires forall n :: n in rank ==> n !in s.quants
    requires forall d :: d in added ==> d.child in rank
    requires forall d :: d in added && d.parent in rank ==> rank[d.parent] < rank[d.child]
    ensures Acyclic(s.edges + added)
  {
    ExtendAcyclic(s.edges, added, rank);
  }


  /** Edges out of a quantity that no edge touches yet, to quantities other
      than itself, keep the graph acyclic. */
  lemma AddSourceAcyclic(edges: set<Dep>, child: string, parents: seq<string>)
    requires Acyclic(edges)
    requires forall d :: d in edges ==> d.child != child && d.parent != child
    requires child !in parents
    ensures Acyclic(edges + DepSet(child, parents))
  {
    DepSetMembers(child, parents);
    ExtendAcyclic(edges, DepSet(child, parents), map[child := 0]);
  }

  // --------------------------------------------------------------- the engine

  class Engine {
    var quants: map<string, Quant>
    var edges: set<Dep>
    var odes: seq<Ode>
    var inFlight: set<string>
    var gridSize: seq<int>
    var cellSize: seq<real>

    ghost function State(): EngineState
      reads this
    {
      EngineState(quants, edges, odes, inFlight, gridSize, cellSize)
    }

    ghost predicate Valid()
      reads this
    {
      ValidState(State())
    }

    /** An empty engine. */
    constructor ()
      ensures Valid()
      ensures State() == EngineState(map[], {}, [], {}, [], [])
    {
      quants, edges, odes, inFlight := map[], {}, [], {};
      gridSize, cellSize := [], [];
    }

    predicate HasQuant(name: string)
      reads this
    {
      name in quants
    }

    /** Quant(name): the quantity, or the panic of a missing name. */
    method Lookup(name: string) returns (r: Result<Quant>)
      ensures r.Ok? <==> name in quants
      ensures r.Ok? ==> r.value == quants[name]
      ensures r.Err? ==> r.error == NoSuchQuant(name)
    {
      if name !in quants {
        return Err(NoSuchQuant(name));
      }
      r := Ok(quants[name]);
    }

    method AddQuant(name: string, shape: Shape, kind: Kind) returns (r: Outcome)
      requires Valid()
      modifies this
      ensures Valid()
      ensures (r, State()) == AddQuantOp(old(State()), name, shape, kind)
    {
      AddQuantKeepsValid(State(), name, shape, kind);
      if name in quants {
        return Fail(DuplicateQuant(name));
      }
      quants := quants[name := NewQuant(shape, kind)];
      r := Pass;
    }

    method Depends(child: string, parents: seq<string>) returns (r: Outcome)
      requires Valid()
      modifies this
      ensures Valid()
      ensures (r, State()) == DependsOp(old(State()), child, parents)
    {
      DependsKeepsValid(State(), child, parents);
      if child !in quants {
        return Fail(NoSuchQuant(child));
      }
      var missing := FirstMissing(quants, parents);
      if missing.Some? {
        return Fail(NoSuchQuant(missing.value));
      }
      edges := edges + DepSet(child, parents);
      r := Pass;
    }

    method SetUpdater(name: string, u: Updater) returns (r: Outcome)
      requires Valid()
      modifies this
      ensures Valid()
      ensures (r, State()) == SetUpdaterOp(old(State()), name, u)
    {
      SetUpdaterKeepsValid(State(), name, u);
      if name !in quants {
        return Fail(NoSuchQuant(name));
      }
      var missing := FirstMissing(quants, UpdaterRefs(u));
      if missing.Some? {
        return Fail(NoSuchQuant(missing.value));
      }
      quants := quants[name := quants[name].(updater := u)];
      r := Pass;
    }

    method AddParent(sum: string, parent: string, weight: Weight) returns (r: Outcome)
      requires Valid()
      modifies this
      ensures Valid()
      ensures (r, State()) == AddParentOp(old(State()), sum, parent, weight)
    {
      AddParentKeepsValid(State(), sum, parent, weight);
      if sum !in quants {
        return Fail(NoSuchQuant(sum));
      }
      var q := quants[sum];
      if !q.updater.Sum? {
        return Fail(NotSumUpdater(sum));
      }
      if parent !in quants {
        return Fail(NoSuchQuant(parent));
      }
      quants := quants[sum := q.(updater := Sum(q.updater.parents + [Parent(parent, weight)]))];
      r := Pass;
    }

    method SetScalar(name: string, v: real) returns (r: Outcome)
      requires Valid()
      modifies this
      ensures Valid()
      ensures (r, State()) == SetScalarOp(old(State()), name, v)
    {
      SetScalarKeepsValid(State(), name, v);
      if name !in quants {
        return Fail(NoSuchQuant(name));
      }
      if quants[name].shape != Scalar {
        return Fail(BadArity(name));
      }
      quants := quants[name := quants[name].(multiplier := [v])];
      r := Pass;
    }

    method SetVerifier(name: string, v: Verifier) returns (r: Outcome)
      requires Valid()
      modifies this
      ensures Valid()
      ensures (r, State()) == SetVerifierOp(old(State()), name, v)
    {
      SetVerifierKeepsValid(State(), name, v);
      if name !in quants {
        return Fail(NoSuchQuant(name));
      }
      quants := quants[name := quants[name].(verifier := v)];
      r := Pass;
    }

    method SetValue(name: string, value: seq<real>) returns (r: Outcome)
      requires Valid()
      modifies this
      ensures Valid()
      ensures (r, State()) == SetValueOp(old(State()), name, value)
    {
      SetValueKeepsValid(State(), name, value);
      if name !in quants {
        return Fail(NoSuchQuant(name));
      }
      var err := ValueError(name, quants[name], value);
      if err.Some? {
        return Fail(err.value);
      }
      quants := quants[name := quants[name].(multiplier := value)];
      r := Pass;
    }

    method AddOde(state: string, derivative: string) returns (r: Outcome)
      requires Valid()
      modifies this
      ensures Valid()
      ensures (r, State()) == AddOdeOp(old(State()), state, derivative)
    {
      AddOdeKeepsValid(State(), state, derivative);
      if state !in quants {
        return Fail(NoSuchQuant(state));
      }
      if derivative !in quants {
        return Fail(NoSuchQuant(derivative));
      }
      odes := odes + [Ode(state, derivative)];
      r := Pass;
    }

    /** Writes a multiplier in place (the source writes through the slice
        returned by Quant.Multiplier()). */
    method SetMultiplier(name: string, mul: seq<real>)
      requires Valid() && name in quants && |mul| == |quants[name].multiplier|
      modifies this
      ensures Valid()
      ensures State() == old(State()).(quants := old(quants)[name := old(quants)[name].(multiplier := mul)])
    {
      quants := quants[name := quants[name].(multiplier := mul)];
    }

    /** An asynchronous kernel writes `value` into the array of `out`; the
        write is not yet synchronised. */
    method LaunchKernel(out: string, value: seq<real>)
      requires Valid() && out in quants
      modifies this
      ensures Valid()
      ensures State() == old(State()).(quants := old(quants)[out := old(quants)[out].(data := value)],
                                       inFlight := old(inFlight) + {out})
    {
      quants := quants[out := quants[out].(data := value)];
      inFlight := inFlight + {out};
    }

    /** Blocks until every kernel writing the array of `out` has completed. */
    method Sync(out: string)
      requires Valid()
      modifies this
      ensures Valid()
      ensures State() == old(State()).(inFlight := old(inFlight) - {out})
    {
      inFlight := inFlight - {out};
    }

    method SetGridSize(size: seq<int>)
      requires Valid()
      modifies this
      ensures Valid()
      ensures State() == old(State()).(gridSize := size)
    {
      gridSize := size;
    }

    method SetCellSize(size: seq<real>)
      requires Valid()
      modifies this
      ensures Valid()
      ensures State() == old(State()).(cellSize := size)
    {
      cellSize := size;
    }
  }
}
