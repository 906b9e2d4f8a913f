/** The scripting API of the engine (api.go). The user speaks of (x, y, z);
    the engine stores sizes and vector values in (z, y, x) order. */
module Api {
  import opened Wrappers
  import opened Engine
  import TestModule

  /** The axis indices of the common package. */
  const X: nat := 0
  const Y: nat := 1
  const Z: nat := 2

  // ------------------------------------------------------------ axis order

  /** swapXYZ as a function: a three-component value has its X and Z
      components exchanged; any other length is left alone. */
  function SwapXZ(v: seq<real>): seq<real>
  {
    if |v| == 3 then [v[Z], v[Y], v[X]] else v
  }

  /** Swapping is its own inverse, keeps the length, and reverses a
      three-component value. */
  lemma SwapXZInvolution(v: seq<real>)
    ensures SwapXZ(SwapXZ(v)) == v
    ensures |SwapXZ(v)| == |v|
    ensures |v| == 3 ==> forall i :: 0 <= i < 3 ==> SwapXZ(v)[i] == v[2 - i]
    ensures |v| != 3 ==> SwapXZ(v) == v
  {
  }

  /** swapXYZ: exchanges the X and Z entries of a three-element array in place. */
  method SwapXYZ(a: array<real>)
    modifies a
    ensures a[..] == SwapXZ(old(a[..]))
  {
    if a.Length == 3 {
      a[X], a[Z] := a[Z], a[X];
    }
  }

  /** The internal (z, y, x) order of a user's (x, y, z). */
  function Internal<T>(x: T, y: T, z: T): seq<T>
  {
    [z, y, x]
  }

  /** The user's (x, y, z) of an internal size; indexing a size with fewer than
      three entries panics. */
  function UserOrder<T>(size: seq<T>): Result<(T, T, T)>
  {
    if |size| <= Z then Err(IndexOutOfRange) else Ok((size[Z], size[Y], size[X]))
  }

  /** Reading back a size that was set returns the user's own order. */
  lemma UserOrderInternal<T>(x: T, y: T, z: T)
    ensures UserOrder(Internal(x, y, z)) == Ok((x, y, z))
    ensures Internal(x, y, z)[X] == z && Internal(x, y, z)[Z] == x
  {
  }

  /** Conversely, setting what was read back restores the first three
      entries of the internal size. */
  lemma InternalUserOrder<T>(size: seq<T>)
    requires UserOrder(size).Ok?
    ensures var (x, y, z) := UserOrder(size).value; Internal(x, y, z) == size[..3]
  {
  }

  // ------------------------------------------------------------- modules

  /** The modules Load knows by name. */
  datatype Builtin = BuiltinTest | Micromag | MicromagEnergy | Spintorque

  /** The panic message for an unknown module: fmt.Sprint puts no space between
      string operands. */
  function UnknownModule(name: string): string
  {
    "Unknown module:" + name + " Options: micromag"
  }

  /** The switch of Load. */
  function Dispatch(name: string): Result<Builtin>
  {
    if name == "test" then Ok(BuiltinTest)
    else if name == "micromag" then Ok(Micromag)
    else if name == "micromagenergy" then Ok(MicromagEnergy)
    else if name == "spintorque" then Ok(Spintorque)
    else Err(InputErr(UnknownModule(name)))
  }

  /** Exactly four names are known, each selecting its own module; any other
      name is refused with a message that quotes it between the fixed prefix
      and suffix. */
  lemma DispatchKnowsFourNames(name: string)
    ensures Dispatch(name).Ok? <==> name in {"test", "micromag", "micromagenergy", "spintorque"}
    ensures Dispatch(name).Err? ==>
              var msg := Dispatch(name).error.msg;
              && msg[..15] == "Unknown module:"
              && msg[15..15 + |name|] == name
              && msg[15 + |name|..] == " Options: micromag"
    ensures forall a, b :: Dispatch(a).Ok? && Dispatch(b).Ok? && a != b ==> Dispatch(a) != Dispatch(b)
  {
    if Dispatch(name).Err? {
      var msg := UnknownModule(name);
      assert msg[..15] == "Unknown module:";
      assert msg[15..15 + |name|] == name;
    }
  }

  // ---------------------------------------------------------- quantities

  /** GetValue's result: a copy of the multiplier, in the user's order. */
  function ValueOf(s: EngineState, name: string): Result<seq<real>>
  {
    if name !in s.quants then Err(NoSuchQuant(name)) else Ok(SwapXZ(s.quants[name].multiplier))
  }

  /** GetScalar's result: the multiplier of a scalar quantity; a vector
      quantity has no single value. */
  function ScalarOf(s: EngineState, name: string): Result<real>
    requires ValidState(s)
  {
    if name !in s.quants then Err(NoSuchQuant(name))
    else if s.quants[name].shape != Scalar then Err(BadArity(name))
    else Ok(s.quants[name].multiplier[0])
  }

  /** SetValue stores the swapped value, so GetValue returns what the user
      passed, and the number of components matches the quantity's shape. */
  lemma SetValueThenGetValue(s: EngineState, name: string, v: seq<real>)
    requires SetValueOp(s, name, SwapXZ(v)).0.Pass?
    ensures ValueOf(SetValueOp(s, name, SwapXZ(v)).1, name) == Ok(v)
    ensures |v| == Components(s.quants[name].shape)
  {
    SwapXZInvolution(v);
  }

  /** Setting [x] and reading the scalar back gives x. */
  lemma SetValueThenGetScalar(s: EngineState, name: string, x: real)
    requires ValidState(s) && SetValueOp(s, name, SwapXZ([x])).0.Pass?
    ensures ValidState(SetValueOp(s, name, SwapXZ([x])).1)
    ensures ScalarOf(SetValueOp(s, name, SwapXZ([x])).1, name) == Ok(x)
  {
    SetValueKeepsValid(s, name, [x]);
  }

  /** A value refused, because the quantity is a FIELD, or the value has the
      wrong arity or is rejected by the verifier, leaves the quantity as it
      was. */
  lemma RefusedValueKeepsOld(s: EngineState, name: string, v: seq<real>)
    requires name in s.quants && SetValueOp(s, name, SwapXZ(v)).0.Fail?
    ensures ValueOf(SetValueOp(s, name, SwapXZ(v)).1, name) == ValueOf(s, name)
    ensures s.quants[name].kind == Field ==> SetValueOp(s, name, SwapXZ(v)).0 == Fail(WrongKind(name))
    ensures s.quants[name].kind != Field && |v| == Components(s.quants[name].shape) ==>
              !Accepts(s.quants[name].verifier, SwapXZ(v))
  {
    SwapXZInvolution(v);
  }

  // ------------------------------------------------------------- the API

  /** API: the handle through which scripts reach the engine. */
  class Api {
    const engine: Engine

    constructor (e: Engine)
      ensures engine == e
    {
      engine := e;
    }

    /** SetGridSize: stored as (z, y, x). */
    method SetGridSize(x: int, y: int, z: int)
      requires engine.Valid()
      modifies engine
      ensures engine.Valid()
      ensures engine.State() == old(engine.State()).(gridSize := Internal(x, y, z))
    {
      engine.SetGridSize([z, y, x]);
    }

    /** GetGridSize: the stored size, back in (x, y, z) order. */
    method GetGridSize() returns (r: Result<(int, int, int)>)
      ensures r == UserOrder(engine.gridSize)
      ensures r.Ok? ==> Internal(r.value.0, r.value.1, r.value.2) == engine.gridSize[..3]
    {
      var size := engine.gridSize;
      if |size| <= Z {
        return Err(IndexOutOfRange);
      }
      r := Ok((size[Z], size[Y], size[X]));
    }

    method SetCellSize(x: real, y: real, z: real)
      requires engine.Valid()
      modifies engine
      ensures engine.Valid()
      ensures engine.State() == old(engine.State()).(cellSize := Internal(x, y, z))
    {
      engine.SetCellSize([z, y, x]);
    }

    method GetCellSize() returns (r: Result<(real, real, real)>)
      ensures r == UserOrder(engine.cellSize)
      ensures r.Ok? ==> Internal(r.value.0, r.value.1, r.value.2) == engine.cellSize[..3]
    {
      var size := engine.cellSize;
      if |size| <= Z {
        return Err(IndexOutOfRange);
      }
      r := Ok((size[Z], size[Y], size[X]));
    }

    /** Load: an unknown name panics; "test" runs the test module. The
        micromag, micromagenergy and spintorque loaders are not part of this
        model, so the `Pass` returned for them stands for a load whose effect
        is not modelled, not for a modelled success. */
    method Load(name: string) returns (r: Outcome)
      requires engine.Valid()
      modifies engine
      ensures engine.Valid()
      ensures Dispatch(name).Err? ==>
                r == Fail(InputErr(UnknownModule(name))) && engine.State() == old(engine.State())
      ensures Dispatch(name) == Ok(BuiltinTest) ==> (r, engine.State()) == TestModule.Run(old(engine.State()))
    {
      var b := Dispatch(name);
      if b.Err? {
        return Fail(b.error);
      }
      match b.value
      case BuiltinTest =>
        r := TestModule.LoadTest(engine);
      case Micromag =>
        r := Pass;
      case MicromagEnergy =>
        r := Pass;
      case Spintorque =>
        r := Pass;
    }

    /** SetValue: looks the quantity up first, then swaps the caller's array in
        place, then stores it; the swap happens even when the store is
        refused. */
    method SetValue(name: string, value: array<real>) returns (r: Outcome)
      requires engine.Valid()
      modifies engine, value
      ensures engine.Valid()
      ensures name !in old(engine.quants) ==>
                r == Fail(NoSuchQuant(name)) && value[..] == old(value[..]) && engine.State() == old(engine.State())
      ensures name in old(engine.quants) ==>
                value[..] == SwapXZ(old(value[..]))
                && (r, engine.State()) == SetValueOp(old(engine.State()), name, value[..])
    {
      var q := engine.Lookup(name);
      if q.Err? {
        return Fail(q.error);
      }
      SwapXYZ(value);
      r := engine.SetValue(name, value[..]);
    }

    /** GetValue: a fresh copy of the multiplier, in the user's order. */
    method GetValue(name: string) returns (r: Result<array<real>>)
      ensures r.Err? ==> r == Err(NoSuchQuant(name))
      ensures r.Ok? ==> fresh(r.value) && ValueOf(engine.State(), name) == Ok(r.value[..])
      ensures r.Ok? <==> name in engine.quants
    {
      var q := engine.Lookup(name);
      if q.Err? {
        return Err(q.error);
      }
      var mul := q.value.multiplier;
      var value := new real[|mul|](i requires 0 <= i < |mul| => mul[i]);
      assert value[..] == mul;
      SwapXYZ(value);
      r := Ok(value);
    }

    /** GetScalar: the value of a scalar quantity. */
    method GetScalar(name: string) returns (r: Result<real>)
      requires engine.Valid()
      ensures r == ScalarOf(engine.State(), name)
      ensures r.Ok? <==> name in engine.quants && engine.quants[name].shape == Scalar
    {
      var q := engine.Lookup(name);
      if q.Err? {
        return Err(q.error);
      }
      if q.value.shape != Scalar {
        return Err(BadArity(name));
      }
      r := Ok(q.value.multiplier[0]);
    }
  }
}
