/** The Zeeman module of the older engine package (mod_zeeman.go): an applied
    field H_ext, added as a term of the total field H. */
module Zeeman {
  import opened Wrappers
  import opened Engine
  import opened Registry
  import PkgHField

  function Name(): string
  {
    "zeeman"
  }

  function Description(): string
  {
    "externally applied field (A/m)"
  }

  /** Loading succeeds exactly when H and H_ext are new and time t exists. */
  ghost predicate Enabled(s: EngineState)
  {
    "H" !in s.quants && "H_ext" !in s.quants && "t" in s.quants
  }

  /** After the H-field module: H_ext is declared as a vector mask, is the one
      term of H's sum, and depends on t. */
  ghost function Post(s: EngineState): EngineState
  {
    var s1 := PkgHField.Post(s);
    s1.(quants := s1.quants["H_ext" := NewQuant(Vector, Mask)]
                           ["H" := PkgHField.HQuant().(updater := Sum([Parent("H_ext", UnitWeight)]))],
        edges := s1.edges + DepSet("H_ext", ["t"]))
  }

  /** The outcome and state that Load's calls produce. */
  function Run(s: EngineState): (Outcome, EngineState)
  {
    var t0 := PkgHField.Run(s);
    if t0.0.Fail? then t0 else
    var t1 := AddQuantOp(t0.1, "H_ext", Vector, Mask);
    if t1.0.Fail? then t1 else
    var t2 := AddParentOp(t1.1, "H", "H_ext", UnitWeight);
    if t2.0.Fail? then t2 else
    DependsOp(t2.1, "H_ext", ["t"])
  }

  lemma RunMeetsPost(s: EngineState)
    ensures Run(s).0.Pass? <==> Enabled(s)
    ensures Run(s).0.Pass? ==> Run(s).1 == Post(s)
  {
    PkgHField.RunMeetsPost(s);
    assert "t" in ["t"];
    assert [] + [Parent("H_ext", UnitWeight)] == [Parent("H_ext", UnitWeight)];
  }

  /** H_ext is appended to H's sum, and H_ext depends on t only. */
  lemma HExtFeedsH(s: EngineState)
    requires Enabled(s)
    ensures Post(s).quants["H"].updater == Sum([Parent("H_ext", UnitWeight)])
    ensures Post(s).quants["H_ext"] == NewQuant(Vector, Mask)
    ensures Post(s).edges == s.edges + {Dep("H_ext", "t")}
    ensures Post(s).odes == s.odes
  {
    DepSetSingle("H_ext", "t");
  }

  /** The Zeeman edge leaves a fresh quantity, so no cycle appears. */
  lemma LoadAcyclic(s: EngineState)
    requires ValidState(s) && Enabled(s) && Acyclic(s.edges)
    ensures Acyclic(Post(s).edges)
  {
    DepSetSingle("H_ext", "t");
    var rank := map["H_ext" := 0];
    ValidExtendAcyclic(s, {Dep("H_ext", "t")}, rank);
  }

  /** ModZeeman.Load: loads the H-field module first, then adds H_ext. */
  method Load(e: Engine) returns (r: Outcome)
    requires e.Valid()
    modifies e
    ensures e.Valid()
    ensures (r, e.State()) == Run(old(e.State()))
    ensures r.Pass? <==> Enabled(old(e.State()))
    ensures r.Pass? ==> e.State() == Post(old(e.State()))
  {
    RunMeetsPost(e.State());
    r := PkgHField.LoadHField(e);
    if r.Fail? { return; }
    r := e.AddQuant("H_ext", Vector, Mask);
    if r.Fail? { return; }
    r := e.AddParent("H", "H_ext", UnitWeight);
    if r.Fail? { return; }
    r := e.Depends("H_ext", ["t"]);
  }

  /** init(): registers the module under its name. */
  method Init(reg: ModuleRegistry) returns (r: Outcome)
    modifies reg
    ensures (r, reg.modules) == Register(old(reg.modules), "zeeman", ModuleEntry(Description(), ZeemanLoader))
  {
    r := reg.RegisterModule(Name(), ModuleEntry(Description(), ZeemanLoader));
  }
}
