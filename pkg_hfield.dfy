/** The "hfield" module of the older module package (mod_hfield.go): the total
    field H, a sum to which other modules add their fields. This version does
    not check whether H already exists. */
module PkgHField {
  import opened Wrappers
  import opened Engine
  import opened Registry

  /** H as LoadHField creates it: a vector field with an empty sum updater. */
  function HQuant(): Quant
  {
    NewQuant(Vector, Field).(updater := Sum([]))
  }

  /** Loading succeeds exactly when H has not been declared yet. */
  ghost predicate Enabled(s: EngineState)
  {
    "H" !in s.quants
  }

  ghost function Post(s: EngineState): EngineState
  {
    s.(quants := s.quants["H" := HQuant()])
  }

  /** The outcome and state that LoadHField's calls produce. */
  function Run(s: EngineState): (Outcome, EngineState)
  {
    var t1 := AddQuantOp(s, "H", Vector, Field);
    if t1.0.Fail? then t1 else
    SetUpdaterOp(t1.1, "H", Sum([]))
  }

  lemma RunMeetsPost(s: EngineState)
    ensures Run(s).0.Pass? <==> Enabled(s)
    ensures Run(s).0.Pass? ==> Run(s).1 == Post(s)
    ensures Run(s).0.Fail? ==> Run(s) == (Fail(DuplicateQuant("H")), s)
  {
  }

  /** The add is unconditional: a second load fails on the duplicate H. */
  lemma LoadTwiceFails(s: EngineState)
    requires Enabled(s)
    ensures Run(Run(s).1) == (Fail(DuplicateQuant("H")), Post(s))
  {
    RunMeetsPost(s);
    RunMeetsPost(Run(s).1);
  }

  /** LoadHField. */
  method LoadHField(e: Engine) returns (r: Outcome)
    requires e.Valid()
    modifies e
    ensures e.Valid()
    ensures (r, e.State()) == Run(old(e.State()))
    ensures r.Pass? <==> Enabled(old(e.State()))
    ensures r.Pass? ==> e.State() == Post(old(e.State()))
  {
    RunMeetsPost(e.State());
    r := e.AddQuant("H", Vector, Field);
    if r.Fail? { return; }
    r := e.SetUpdater("H", Sum([]));
  }

  /** init(): registers the module as "hfield". */
  method Init(reg: ModuleRegistry) returns (r: Outcome)
    modifies reg
    ensures (r, reg.modules) == Register(old(reg.modules), "hfield", ModuleEntry("Total magnetic field.", HFieldLoader))
  {
    r := reg.RegisterModule("hfield", ModuleEntry("Total magnetic field.", HFieldLoader));
  }
}
