/** The uniaxial anisotropy module (mod_uniaxialanisotropy.go): an
    anisotropy field H_anis, computed from m, the constants Ku1 and Ku2 and the
    easy axis anisU, and added as a term of the total field H. */
module UniaxialAnisotropy {
  import opened Wrappers
  import opened Engine
  import opened Registry
  import PkgHField

  /** The dependencies LoadAnisUniaxial declares for H_anis. */
  const AnisDeps: seq<string> := ["Ku1", "Ku2", "anisU", "MSat"]

  function AnisUpdater(): Updater
  {
    UniaxialAnis("m", "Ku1", "Ku2", "anisU")
  }

  /** Loading succeeds exactly when H (the H-field module adds it without
      checking) and the four new names are undeclared, and MSat and m exist. */
  ghost predicate Enabled(s: EngineState)
  {
    && "H" !in s.quants && "H_anis" !in s.quants && "Ku1" !in s.quants && "Ku2" !in s.quants
    && "anisU" !in s.quants && "MSat" in s.quants && "m" in s.quants
  }

  /** The quantities after the declarations. */
  ghost function Declared(qs: map<string, Quant>): map<string, Quant>
  {
    qs["H" := PkgHField.HQuant()]["H_anis" := NewQuant(Vector, Field)]["Ku1" := NewQuant(Scalar, Mask)]
      ["Ku2" := NewQuant(Scalar, Mask)]["anisU" := NewQuant(Vector, Mask)]
  }

  /** The engine after LoadAnisUniaxial: H_anis is the one term of H, depends
      on the anisotropy constants, the axis and MSat, and is computed by the
      anisotropy rule. */
  ghost function Post(s: EngineState): EngineState
  {
    s.(quants := Declared(s.quants)["H" := PkgHField.HQuant().(updater := Sum([Parent("H_anis", UnitWeight)]))]
                                   ["H_anis" := NewQuant(Vector, Field).(updater := AnisUpdater())],
       edges := s.edges + DepSet("H_anis", AnisDeps))
  }

  // LoadAnisUniaxial's calls, in two runs: the declarations, then the wiring.

  function DeclareRun(s: EngineState): (Outcome, EngineState)
  {
    var t1 := PkgHField.Run(s);
    if t1.0.Fail? then t1 else
    var t2 := AddQuantOp(t1.1, "H_anis", Vector, Field);
    if t2.0.Fail? then t2 else
    var t3 := AddQuantOp(t2.1, "Ku1", Scalar, Mask);
    if t3.0.Fail? then t3 else
    var t4 := AddQuantOp(t3.1, "Ku2", Scalar, Mask);
    if t4.0.Fail? then t4 else
    AddQuantOp(t4.1, "anisU", Vector, Mask)
  }

  function WireRun(s: EngineState): (Outcome, EngineState)
  {
    var t1 := AddParentOp(s, "H", "H_anis", UnitWeight);
    if t1.0.Fail? then t1 else
    var t2 := DependsOp(t1.1, "H_anis", AnisDeps);
    if t2.0.Fail? then t2 else
    var t3 := LookupOp(t2.1, "m");
    if t3.0.Fail? then t3 else
    SetUpdaterOp(t3.1, "H_anis", AnisUpdater())
  }

  /** The outcome and state that LoadAnisUniaxial's calls produce. */
  function Run(s: EngineState): (Outcome, EngineState)
  {
    var d := DeclareRun(s);
    if d.0.Fail? then d else WireRun(d.1)
  }

  lemma DeclareRunMeets(s: EngineState)
    ensures DeclareRun(s).0.Pass? <==>
              "H" !in s.quants && "H_anis" !in s.quants && "Ku1" !in s.quants && "Ku2" !in s.quants
              && "anisU" !in s.quants
    ensures DeclareRun(s).0.Pass? ==> DeclareRun(s).1 == s.(quants := Declared(s.quants))
  {
    PkgHField.RunMeetsPost(s);
  }

  lemma WireRunMeets(s: EngineState)
    requires "H" !in s.quants && "H_anis" !in s.quants && "Ku1" !in s.quants && "Ku2" !in s.quants
    requires "anisU" !in s.quants
    ensures var d := s.(quants := Declared(s.quants));
            && (WireRun(d).0.Pass? <==> "MSat" in s.quants && "m" in s.quants)
            && (WireRun(d).0.Pass? ==> WireRun(d).1 == Post(s))
  {
    var d := s.(quants := Declared(s.quants));
    assert [] + [Parent("H_anis", UnitWeight)] == [Parent("H_anis", UnitWeight)];
    assert "MSat" in AnisDeps;
    assert AllDeclared(d.quants, AnisDeps) <==> "MSat" in s.quants;
    assert UpdaterRefs(AnisUpdater()) == ["m", "Ku1", "Ku2", "anisU"];
    assert "m" in UpdaterRefs(AnisUpdater());
  }

  lemma RunPassesIffEnabled(s: EngineState)
    ensures Run(s).0.Pass? <==> Enabled(s)
    ensures Run(s).0.Pass? ==> Run(s).1 == Post(s)
  {
    DeclareRunMeets(s);
    if DeclareRun(s).0.Pass? {
      WireRunMeets(s);
    }
  }

  /** The declarations of LoadAnisUniaxial, the H-field module first. */
  method Declare(e: Engine) returns (r: Outcome)
    requires e.Valid()
    modifies e
    ensures e.Valid()
    ensures (r, e.State()) == DeclareRun(old(e.State()))
  {
    r := PkgHField.LoadHField(e);
    if r.Fail? { return; }
    r := e.AddQuant("H_anis", Vector, Field);
    if r.Fail? { return; }
    r := e.AddQuant("Ku1", Scalar, Mask);
    if r.Fail? { return; }
    r := e.AddQuant("Ku2", Scalar, Mask);
    if r.Fail? { return; }
    r := e.AddQuant("anisU", Vector, Mask);
  }

  /** H_anis becomes a term of H, gets its dependencies and its rule. */
  method Wire(e: Engine) returns (r: Outcome)
    requires e.Valid()
    modifies e
    ensures e.Valid()
    ensures (r, e.State()) == WireRun(old(e.State()))
  {
    r := e.AddParent("H", "H_anis", UnitWeight);
    if r.Fail? { return; }
    r := e.Depends("H_anis", AnisDeps);
    if r.Fail? { return; }
    var m := e.Lookup("m");
    if m.Err? { return Fail(m.error); }
    r := e.SetUpdater("H_anis", AnisUpdater());
  }

  /** LoadAnisUniaxial. */
  method LoadAnisUniaxial(e: Engine) returns (r: Outcome)
    requires e.Valid()
    modifies e
    ensures e.Valid()
    ensures (r, e.State()) == Run(old(e.State()))
    ensures r.Pass? <==> Enabled(old(e.State()))
    ensures r.Pass? ==> e.State() == Post(old(e.State()))
  {
    RunPassesIffEnabled(e.State());
    r := Declare(e);
    if r.Fail? { return; }
    r := Wire(e);
  }

  /** init(): registers the module as "anisotropy/uniaxial". */
  method Init(reg: ModuleRegistry) returns (r: Outcome)
    modifies reg
    ensures (r, reg.modules)
         == Register(old(reg.modules), "anisotropy/uniaxial",
                     ModuleEntry("Uniaxial magnetocrystalline anisotropy", AnisUniaxialLoader))
  {
    r := reg.RegisterModule("anisotropy/uniaxial",
                            ModuleEntry("Uniaxial magnetocrystalline anisotropy", AnisUniaxialLoader));
  }

  // ----------------------------------------------------------- properties

  /** H_anis is the one term of H; the constants are unit scalar masks and
      the axis a unit vector mask; nothing that existed changes. */
  lemma AnisFeedsH(s: EngineState)
    requires Enabled(s)
    ensures Post(s).quants["H"].updater == Sum([Parent("H_anis", UnitWeight)])
    ensures Post(s).quants["H_anis"].updater == AnisUpdater()
    ensures Post(s).quants["Ku1"] == NewQuant(Scalar, Mask) && Post(s).quants["Ku2"] == NewQuant(Scalar, Mask)
    ensures Post(s).quants["anisU"] == NewQuant(Vector, Mask)
    ensures forall n :: n in s.quants ==> n in Post(s).quants && Post(s).quants[n] == s.quants[n]
    ensures Post(s).odes == s.odes
  {
  }

  /** The H-field module of this package adds H without checking, so the
      anisotropy cannot be loaded next to another module that loads it. */
  lemma LoadFailsAfterHField(s: EngineState)
    requires PkgHField.Enabled(s)
    ensures Run(PkgHField.Post(s)) == (Fail(DuplicateQuant("H")), PkgHField.Post(s))
  {
    PkgHField.RunMeetsPost(PkgHField.Post(s));
  }

  /** As written, the rule reads m but H_anis is not declared to depend on m,
      while it is declared to depend on MSat, which the rule does not name.
      That MSat is not read rests on lookup by exact name: the update step
      reads "msat" (see AnisStep), a different name from the "MSat" that is
      declared. */
  lemma UpdaterReadsUndeclaredM(s: EngineState)
    requires ValidState(s) && Enabled(s)
    ensures "m" in UpdaterRefs(Post(s).quants["H_anis"].updater)
    ensures Dep("H_anis", "m") !in Post(s).edges
    ensures Dep("H_anis", "MSat") in Post(s).edges
    ensures "MSat" !in UpdaterRefs(Post(s).quants["H_anis"].updater)
  {
    DepSetMembers("H_anis", AnisDeps);
    assert "MSat" in AnisDeps;
  }

  /** The dependencies with m added: the rule's inputs, and MSat. */
  const FixedAnisDeps: seq<string> := ["Ku1", "Ku2", "anisU", "MSat", "m"]

  ghost function FixedPost(s: EngineState): EngineState
  {
    Post(s).(edges := s.edges + DepSet("H_anis", FixedAnisDeps))
  }

  lemma RefsAmongFixedDeps()
    ensures forall p :: p in UpdaterRefs(AnisUpdater()) ==> p in FixedAnisDeps
    ensures "H_anis" !in FixedAnisDeps
  {
    assert UpdaterRefs(AnisUpdater()) == ["m", "Ku1", "Ku2", "anisU"];
  }

  /** With m among the dependencies, every quantity the rule names (m, Ku1,
      Ku2, anisU) is a declared dependency of H_anis, and the graph stays
      acyclic. The "msat" that the update step also looks up is still not a
      declared dependency. */
  lemma FixedDepsCoverUpdater(s: EngineState)
    requires ValidState(s) && Enabled(s)
    ensures forall p :: p in UpdaterRefs(FixedPost(s).quants["H_anis"].updater) ==>
              Dep("H_anis", p) in FixedPost(s).edges
    ensures Acyclic(s.edges) ==> Acyclic(FixedPost(s).edges)
    ensures Dep("H_anis", "msat") !in FixedPost(s).edges
  {
    AnisFeedsH(s);
    assert FixedPost(s).quants["H_anis"].updater == AnisUpdater();
    RefsAmongFixedDeps();
    DepSetMembers("H_anis", FixedAnisDeps);
    assert forall d :: d in s.edges ==> d.child in s.quants && d.parent in s.quants;
    if Acyclic(s.edges) {
      AddSourceAcyclic(s.edges, "H_anis", FixedAnisDeps);
    }
  }

  /** H_anis is new and reads existing quantities: no cycle appears. */
  lemma LoadAcyclic(s: EngineState)
    requires ValidState(s) && Enabled(s) && Acyclic(s.edges)
    ensures Acyclic(Post(s).edges)
  {
    assert forall d :: d in s.edges ==> d.child in s.quants && d.parent in s.quants;
    AddSourceAcyclic(s.edges, "H_anis", AnisDeps);
  }

  // ------------------------------------------------------------ the updater

  /** gpu.UniaxialAnisotropyAsync: from the arrays of m, Ku1, Ku2 and the axis,
      the multipliers of Ku1 and Ku2, the scalar value of msat and the axis
      multiplier, the anisotropy field. The kernel, and the prefactor
      2 Ku1/(Mu0 msat) it receives, are not modelled. */
  type AnisKernel = (seq<real>, seq<real>, real, real, seq<real>, real, seq<real>, seq<real>) -> seq<real>

  /** The state after UniaxialAnisUpdater.Update on `out`: the lookup of
      "msat" panics when no such quantity exists. */
  function AnisStep(s: EngineState, out: string, kernel: AnisKernel): (Outcome, EngineState)
    requires ValidState(s) && out in s.quants && s.quants[out].updater.UniaxialAnis?
  {
    var u := s.quants[out].updater;
    if "msat" !in s.quants then (Fail(NoSuchQuant("msat")), s)
    else
      var ku1 := s.quants[u.ku1];
      var ku2 := s.quants[u.ku2];
      var axis := s.quants[u.anisU];
      var h := kernel(s.quants[u.m].data, ku1.data, ku1.multiplier[0], s.quants["msat"].multiplier[0],
                      ku2.data, ku2.multiplier[0], axis.data, axis.multiplier);
      (Pass, s.(quants := s.quants[out := s.quants[out].(data := h)], inFlight := s.inFlight - {out}))
  }

  /** Without an "msat" quantity the update panics and nothing changes;
      with one it succeeds, H_anis is synchronised, and nothing else
      changes. */
  lemma AnisStepOutcome(s: EngineState, out: string, kernel: AnisKernel)
    requires ValidState(s) && out in s.quants && s.quants[out].updater.UniaxialAnis?
    ensures AnisStep(s, out, kernel).0.Pass? <==> "msat" in s.quants
    ensures AnisStep(s, out, kernel).0.Fail? ==> AnisStep(s, out, kernel) == (Fail(NoSuchQuant("msat")), s)
    ensures AnisStep(s, out, kernel).0.Pass? ==>
              && out !in AnisStep(s, out, kernel).1.inFlight
              && AnisStep(s, out, kernel).1.quants.Keys == s.quants.Keys
              && (forall n :: n in s.quants && n != out ==> AnisStep(s, out, kernel).1.quants[n] == s.quants[n])
  {
  }

  /** The field depends on "msat" (lower case), whatever the quantity that
      H_anis is declared to depend on: two states that agree on the arrays
      and multipliers the rule reads and on msat give the same field. */
  lemma AnisStepReadsOnlyInputs(s1: EngineState, s2: EngineState, out: string, kernel: AnisKernel)
    requires ValidState(s1) && out in s1.quants && s1.quants[out].updater.UniaxialAnis?
    requires ValidState(s2) && out in s2.quants && s2.quants[out].updater == s1.quants[out].updater
    requires forall n :: n in UpdaterRefs(s1.quants[out].updater) ==>
               s1.quants[n].data == s2.quants[n].data && s1.quants[n].multiplier == s2.quants[n].multiplier
    requires "msat" in s1.quants && "msat" in s2.quants
    requires s1.quants["msat"].multiplier == s2.quants["msat"].multiplier
    ensures AnisStep(s1, out, kernel).0 == AnisStep(s2, out, kernel).0 == Pass
    ensures AnisStep(s1, out, kernel).1.quants[out].data == AnisStep(s2, out, kernel).1.quants[out].data
  {
    var u := s1.quants[out].updater;
    assert u.m in UpdaterRefs(u) && u.ku1 in UpdaterRefs(u) && u.ku2 in UpdaterRefs(u) && u.anisU in UpdaterRefs(u);
  }

  /** UniaxialAnisUpdater.Update: reads the inputs, looks up msat, runs the
      kernel and waits for H_anis. */
  method UpdateAnis(e: Engine, out: string, kernel: AnisKernel) returns (r: Outcome)
    requires e.Valid() && out in e.quants && e.quants[out].updater.UniaxialAnis?
    modifies e
    ensures e.Valid()
    ensures (r, e.State()) == AnisStep(old(e.State()), out, kernel)
  {
    ghost var s := e.State();
    var u := e.quants[out].updater;
    assert u.m in UpdaterRefs(u) && u.ku1 in UpdaterRefs(u) && u.ku2 in UpdaterRefs(u) && u.anisU in UpdaterRefs(u);
    var m := e.quants[u.m].data;
    var ku1 := e.quants[u.ku1];
    var ku2 := e.quants[u.ku2];
    var axis := e.quants[u.anisU];
    var msat := e.Lookup("msat");
    if msat.Err? {
      return Fail(msat.error);
    }
    var h := kernel(m, ku1.data, ku1.multiplier[0], msat.value.multiplier[0],
                    ku2.data, ku2.multiplier[0], axis.data, axis.multiplier);
    e.LaunchKernel(out, h);
    e.Sync(out);
    assert e.inFlight == s.inFlight - {out};
    r := Pass;
  }
}
