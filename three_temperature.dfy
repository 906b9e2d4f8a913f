/** The three-temperature module (mod_3T.go): electron, spin and phonon
    temperatures Te, Ts and Tl, each driven by a heat-flux density (Qe, Qs,
    Ql) computed from the three temperatures and the material parameters. */
module ThreeTemperature {
  import opened Wrappers
  import opened Engine
  import opened Registry

  /** The parameters Load3T declares, all scalar masks (Ges is not among them:
      it is looked up, not declared). */
  const Params: seq<string> := ["Q", "gamma_e", "Cs", "Cl", "Gel", "Gsl"]

  /** The update rules, with the parameters in the order of their structs. */
  function QeUpdater(): Updater { Heat(ElectronFlux, "Te", "Tl", "Ts", ["Q", "gamma_e", "Gel", "Ges"]) }
  function QsUpdater(): Updater { Heat(SpinFlux, "Te", "Tl", "Ts", ["Cs", "Gsl", "Ges"]) }
  function QlUpdater(): Updater { Heat(PhononFlux, "Te", "Tl", "Ts", ["Cl", "Gel", "Gsl"]) }

  /** The dependencies, in the order of the Depends calls. */
  const QeDeps: seq<string> := ["Te", "Tl", "Ts", "gamma_e", "Ges", "Gel", "Q"]
  const QsDeps: seq<string> := ["Te", "Tl", "Ts", "Cs", "Gsl", "Ges"]
  const QlDeps: seq<string> := ["Te", "Tl", "Ts", "Cl", "Gsl", "Gel"]

  /** Load3T succeeds exactly when the temperatures and Ges exist (LoadT and
      LoadGes are not part of this model: the state is taken after them) and
      the nine quantities it declares are new. */
  ghost predicate Enabled(s: EngineState)
  {
    && "Te" in s.quants && "Ts" in s.quants && "Tl" in s.quants && "Ges" in s.quants
    && "Q" !in s.quants && "gamma_e" !in s.quants && "Cs" !in s.quants && "Cl" !in s.quants
    && "Gel" !in s.quants && "Gsl" !in s.quants
    && "Qe" !in s.quants && "Qs" !in s.quants && "Ql" !in s.quants
  }

  function ScalarMask(): Quant { NewQuant(Scalar, Mask) }
  function ScalarField(): Quant { NewQuant(Scalar, Field) }

  /** The quantities after the declarations of the capacities and the heater,
      of the couplings, and of the fluxes. */
  function WithCapacities(qs: map<string, Quant>): map<string, Quant>
  {
    qs["Q" := ScalarMask()]["gamma_e" := ScalarMask()]["Cs" := ScalarMask()]["Cl" := ScalarMask()]
  }

  function WithCouplings(qs: map<string, Quant>): map<string, Quant>
  {
    qs["Gel" := ScalarMask()]["Gsl" := ScalarMask()]
  }

  function WithFluxes(qs: map<string, Quant>): map<string, Quant>
  {
    qs["Qe" := ScalarField()]["Qs" := ScalarField()]["Ql" := ScalarField()]
  }

  /** The edges after the three Depends calls. */
  function HeatEdges(edges: set<Dep>): set<Dep>
  {
    edges + DepSet("Qe", QeDeps) + DepSet("Qs", QsDeps) + DepSet("Ql", QlDeps)
  }

  /** The engine after Load3T. */
  ghost function Post(s: EngineState): EngineState
  {
    s.(quants := WithCouplings(WithCapacities(s.quants))["Qe" := ScalarField().(updater := QeUpdater())]
                                                         ["Qs" := ScalarField().(updater := QsUpdater())]
                                                         ["Ql" := ScalarField().(updater := QlUpdater())],
       edges := HeatEdges(s.edges),
       odes := s.odes + [Ode("Te", "Qe"), Ode("Ts", "Qs"), Ode("Tl", "Ql")])
  }

  // Load3T's calls, in runs: the lookups of the temperatures, the
  // capacities and the heater, the couplings, the fluxes, the wiring of the
  // fluxes and the equations.

  function LookupRun(s: EngineState): (Outcome, EngineState)
  {
    var t1 := LookupOp(s, "Te");
    if t1.0.Fail? then t1 else
    var t2 := LookupOp(t1.1, "Ts");
    if t2.0.Fail? then t2 else
    LookupOp(t2.1, "Tl")
  }

  function CapacityRun(s: EngineState): (Outcome, EngineState)
  {
    var t1 := AddQuantOp(s, "Q", Scalar, Mask);
    if t1.0.Fail? then t1 else
    var t2 := AddQuantOp(t1.1, "gamma_e", Scalar, Mask);
    if t2.0.Fail? then t2 else
    var t3 := AddQuantOp(t2.1, "Cs", Scalar, Mask);
    if t3.0.Fail? then t3 else
    AddQuantOp(t3.1, "Cl", Scalar, Mask)
  }

  function CouplingRun(s: EngineState): (Outcome, EngineState)
  {
    var t1 := AddQuantOp(s, "Gel", Scalar, Mask);
    if t1.0.Fail? then t1 else
    var t2 := LookupOp(t1.1, "Ges");
    if t2.0.Fail? then t2 else
    AddQuantOp(t2.1, "Gsl", Scalar, Mask)
  }

  function FluxRun(s: EngineState): (Outcome, EngineState)
  {
    var t1 := AddQuantOp(s, "Qe", Scalar, Field);
    if t1.0.Fail? then t1 else
    var t2 := AddQuantOp(t1.1, "Qs", Scalar, Field);
    if t2.0.Fail? then t2 else
    AddQuantOp(t2.1, "Ql", Scalar, Field)
  }

  function WireRun(s: EngineState): (Outcome, EngineState)
  {
    var t1 := DependsOp(s, "Qe", QeDeps);
    if t1.0.Fail? then t1 else
    var t2 := DependsOp(t1.1, "Qs", QsDeps);
    if t2.0.Fail? then t2 else
    var t3 := DependsOp(t2.1, "Ql", QlDeps);
    if t3.0.Fail? then t3 else
    var t4 := SetUpdaterOp(t3.1, "Qe", QeUpdater());
    if t4.0.Fail? then t4 else
    var t5 := SetUpdaterOp(t4.1, "Qs", QsUpdater());
    if t5.0.Fail? then t5 else
    SetUpdaterOp(t5.1, "Ql", QlUpdater())
  }

  function CoupleRun(s: EngineState): (Outcome, EngineState)
  {
    var t1 := AddOdeOp(s, "Te", "Qe");
    if t1.0.Fail? then t1 else
    var t2 := AddOdeOp(t1.1, "Ts", "Qs");
    if t2.0.Fail? then t2 else
    AddOdeOp(t2.1, "Tl", "Ql")
  }

  /** The outcome and state that Load3T's calls produce (after LoadT and
      LoadGes), stopping at the first failing call. */
  function Run(s: EngineState): (Outcome, EngineState)
  {
    var t1 := LookupRun(s);
    if t1.0.Fail? then t1 else
    var t2 := CapacityRun(t1.1);
    if t2.0.Fail? then t2 else
    var t3 := CouplingRun(t2.1);
    if t3.0.Fail? then t3 else
    var t4 := FluxRun(t3.1);
    if t4.0.Fail? then t4 else
    var t5 := WireRun(t4.1);
    if t5.0.Fail? then t5 else
    CoupleRun(t5.1)
  }

  lemma CapacityRunMeets(s: EngineState)
    ensures CapacityRun(s).0.Pass? <==>
              "Q" !in s.quants && "gamma_e" !in s.quants && "Cs" !in s.quants && "Cl" !in s.quants
    ensures CapacityRun(s).0.Pass? ==> CapacityRun(s).1 == s.(quants := WithCapacities(s.quants))
  {
  }

  lemma CouplingRunMeets(s: EngineState)
    ensures CouplingRun(s).0.Pass? <==> "Gel" !in s.quants && "Ges" in s.quants && "Gsl" !in s.quants
    ensures CouplingRun(s).0.Pass? ==> CouplingRun(s).1 == s.(quants := WithCouplings(s.quants))
  {
  }

  lemma FluxRunMeets(s: EngineState)
    ensures FluxRun(s).0.Pass? <==> "Qe" !in s.quants && "Qs" !in s.quants && "Ql" !in s.quants
    ensures FluxRun(s).0.Pass? ==> FluxRun(s).1 == s.(quants := WithFluxes(s.quants))
  {
  }

  /** Once every name is declared, the wiring cannot fail: it adds the flux
      edges and the update rules. */
  lemma WireRunMeets(s: EngineState)
    requires "Te" in s.quants && "Ts" in s.quants && "Tl" in s.quants && "Ges" in s.quants
    requires forall n :: n in Params ==> n in s.quants
    requires "Qe" in s.quants && "Qs" in s.quants && "Ql" in s.quants
    ensures WireRun(s) == (Pass, s.(edges := HeatEdges(s.edges),
                                    quants := s.quants["Qe" := s.quants["Qe"].(updater := QeUpdater())]
                                                      ["Qs" := s.quants["Qs"].(updater := QsUpdater())]
                                                      ["Ql" := s.quants["Ql"].(updater := QlUpdater())]))
  {
    assert AllDeclared(s.quants, QeDeps) && AllDeclared(s.quants, QsDeps) && AllDeclared(s.quants, QlDeps);
    assert AllDeclared(s.quants, UpdaterRefs(QeUpdater())) && AllDeclared(s.quants, UpdaterRefs(QsUpdater()));
    assert AllDeclared(s.quants, UpdaterRefs(QlUpdater()));
  }

  lemma CoupleRunMeets(s: EngineState)
    requires "Te" in s.quants && "Ts" in s.quants && "Tl" in s.quants
    requires "Qe" in s.quants && "Qs" in s.quants && "Ql" in s.quants
    ensures CoupleRun(s) == (Pass, s.(odes := s.odes + [Ode("Te", "Qe"), Ode("Ts", "Qs"), Ode("Tl", "Ql")]))
  {
    assert s.odes + [Ode("Te", "Qe")] + [Ode("Ts", "Qs")] + [Ode("Tl", "Ql")]
        == s.odes + [Ode("Te", "Qe"), Ode("Ts", "Qs"), Ode("Tl", "Ql")];
  }

  /** The state after the declarations, when Load3T is enabled. */
  lemma DeclarationsMeet(s: EngineState)
    requires Enabled(s)
    ensures LookupRun(s) == (Pass, s)
    ensures CapacityRun(s) == (Pass, s.(quants := WithCapacities(s.quants)))
    ensures var s2 := s.(quants := WithCapacities(s.quants));
            CouplingRun(s2) == (Pass, s2.(quants := WithCouplings(s2.quants)))
    ensures var s3 := s.(quants := WithCouplings(WithCapacities(s.quants)));
            FluxRun(s3) == (Pass, s3.(quants := WithFluxes(s3.quants)))
  {
    CapacityRunMeets(s);
    var s2 := s.(quants := WithCapacities(s.quants));
    CouplingRunMeets(s2);
    var s3 := s2.(quants := WithCouplings(s2.quants));
    FluxRunMeets(s3);
  }

  lemma RunPassesIffEnabled(s: EngineState)
    ensures Run(s).0.Pass? <==> Enabled(s)
  {
    var s2 := s.(quants := WithCapacities(s.quants));
    var s3 := s2.(quants := WithCouplings(s2.quants));
    var s4 := s3.(quants := WithFluxes(s3.quants));
    CapacityRunMeets(s);
    CouplingRunMeets(s2);
    FluxRunMeets(s3);
    CapacitiesKeepOthers(s.quants);
    CouplingsKeepFluxes(s2.quants);
    var ok := LookupRun(s).0.Pass? && CapacityRun(s).0.Pass? && CouplingRun(s2).0.Pass? && FluxRun(s3).0.Pass?;
    assert ok <==> Enabled(s);
    if ok {
      assert forall n :: n in Params ==> n in s4.quants;
      WireRunMeets(s4);
      CoupleRunMeets(WireRun(s4).1);
    }
  }

  /** The capacities are not among the other names Load3T uses. */
  lemma CapacitiesKeepOthers(qs: map<string, Quant>)
    ensures var q := WithCapacities(qs);
            && ("Te" in q <==> "Te" in qs) && ("Ts" in q <==> "Ts" in qs) && ("Tl" in q <==> "Tl" in qs)
            && ("Gel" in q <==> "Gel" in qs) && ("Ges" in q <==> "Ges" in qs) && ("Gsl" in q <==> "Gsl" in qs)
            && ("Qe" in q <==> "Qe" in qs) && ("Qs" in q <==> "Qs" in qs) && ("Ql" in q <==> "Ql" in qs)
  {
  }

  lemma CouplingsKeepFluxes(qs: map<string, Quant>)
    ensures var q := WithCouplings(qs);
            && ("Te" in q <==> "Te" in qs) && ("Ts" in q <==> "Ts" in qs) && ("Tl" in q <==> "Tl" in qs)
            && ("Ges" in q <==> "Ges" in qs)
            && ("Qe" in q <==> "Qe" in qs) && ("Qs" in q <==> "Qs" in qs) && ("Ql" in q <==> "Ql" in qs)
  {
  }

  /** Setting the update rules of the freshly declared fluxes. */
  lemma WiredFluxes(qs: map<string, Quant>)
    ensures var f := WithFluxes(qs);
            f["Qe" := f["Qe"].(updater := QeUpdater())]["Qs" := f["Qs"].(updater := QsUpdater())]
             ["Ql" := f["Ql"].(updater := QlUpdater())]
            == qs["Qe" := ScalarField().(updater := QeUpdater())]["Qs" := ScalarField().(updater := QsUpdater())]
                 ["Ql" := ScalarField().(updater := QlUpdater())]
  {
  }

  lemma RunMeetsPost(s: EngineState)
    requires Run(s).0.Pass?
    ensures Run(s).1 == Post(s)
  {
    RunPassesIffEnabled(s);
    DeclarationsMeet(s);
    var s4 := s.(quants := WithFluxes(WithCouplings(WithCapacities(s.quants))));
    assert forall n :: n in Params ==> n in s4.quants;
    WireRunMeets(s4);
    var s5 := WireRun(s4).1;
    CoupleRunMeets(s5);
    WiredFluxes(WithCouplings(WithCapacities(s.quants)));
  }

  /** Quant("Te"), Quant("Ts"), Quant("Tl"). */
  method LookupTemperatures(e: Engine) returns (r: Outcome)
    requires e.Valid()
    ensures (r, e.State()) == LookupRun(e.State())
  {
    var q := e.Lookup("Te");
    if q.Err? { return Fail(q.error); }
    q := e.Lookup("Ts");
    if q.Err? { return Fail(q.error); }
    q := e.Lookup("Tl");
    if q.Err? { return Fail(q.error); }
    r := Pass;
  }

  /** The declarations of the heater power and the three heat capacities. */
  method DeclareCapacities(e: Engine) returns (r: Outcome)
    requires e.Valid()
    modifies e
    ensures e.Valid()
    ensures (r, e.State()) == CapacityRun(old(e.State()))
  {
    r := e.AddQuant("Q", Scalar, Mask);
    if r.Fail? { return; }
    r := e.AddQuant("gamma_e", Scalar, Mask);
    if r.Fail? { return; }
    r := e.AddQuant("Cs", Scalar, Mask);
    if r.Fail? { return; }
    r := e.AddQuant("Cl", Scalar, Mask);
  }

  /** The declarations of the couplings (Ges is looked up). */
  method DeclareCouplings(e: Engine) returns (r: Outcome)
    requires e.Valid()
    modifies e
    ensures e.Valid()
    ensures (r, e.State()) == CouplingRun(old(e.State()))
  {
    r := e.AddQuant("Gel", Scalar, Mask);
    if r.Fail? { return; }
    var q := e.Lookup("Ges");
    if q.Err? { return Fail(q.error); }
    r := e.AddQuant("Gsl", Scalar, Mask);
  }

  /** The declarations of the three heat-flux densities. */
  method DeclareFluxes(e: Engine) returns (r: Outcome)
    requires e.Valid()
    modifies e
    ensures e.Valid()
    ensures (r, e.State()) == FluxRun(old(e.State()))
  {
    r := e.AddQuant("Qe", Scalar, Field);
    if r.Fail? { return; }
    r := e.AddQuant("Qs", Scalar, Field);
    if r.Fail? { return; }
    r := e.AddQuant("Ql", Scalar, Field);
  }

  /** The Depends and SetUpdater calls of Load3T. */
  method Wire(e: Engine) returns (r: Outcome)
    requires e.Valid()
    modifies e
    ensures e.Valid()
    ensures (r, e.State()) == WireRun(old(e.State()))
  {
    r := e.Depends("Qe", QeDeps);
    if r.Fail? { return; }
    r := e.Depends("Qs", QsDeps);
    if r.Fail? { return; }
    r := e.Depends("Ql", QlDeps);
    if r.Fail? { return; }
    r := e.SetUpdater("Qe", QeUpdater());
    if r.Fail? { return; }
    r := e.SetUpdater("Qs", QsUpdater());
    if r.Fail? { return; }
    r := e.SetUpdater("Ql", QlUpdater());
  }

  /** The AddPDE1 calls of Load3T. */
  method Couple(e: Engine) returns (r: Outcome)
    requires e.Valid()
    modifies e
    ensures e.Valid()
    ensures (r, e.State()) == CoupleRun(old(e.State()))
  {
    r := e.AddOde("Te", "Qe");
    if r.Fail? { return; }
    r := e.AddOde("Ts", "Qs");
    if r.Fail? { return; }
    r := e.AddOde("Tl", "Ql");
  }

  /** Load3T, from the point after LoadT and LoadGes. */
  method Load3T(e: Engine) returns (r: Outcome)
    requires e.Valid()
    modifies e
    ensures e.Valid()
    ensures (r, e.State()) == Run(old(e.State()))
    ensures r.Pass? <==> Enabled(old(e.State()))
    ensures r.Pass? ==> e.State() == Post(old(e.State()))
  {
    RunPassesIffEnabled(e.State());
    if Run(e.State()).0.Pass? { RunMeetsPost(e.State()); }
    r := LookupTemperatures(e);
    if r.Fail? { return; }
    r := DeclareCapacities(e);
    if r.Fail? { return; }
    r := DeclareCouplings(e);
    if r.Fail? { return; }
    r := DeclareFluxes(e);
    if r.Fail? { return; }
    r := Wire(e);
    if r.Fail? { return; }
    r := Couple(e);
  }

  /** init(): registers the module as "3T". */
  method Init(reg: ModuleRegistry) returns (r: Outcome)
    modifies reg
    ensures (r, reg.modules) == Register(old(reg.modules), "3T", ModuleEntry("Three-temperature model module", ThreeTLoader))
  {
    r := reg.RegisterModule("3T", ModuleEntry("Three-temperature model module", ThreeTLoader));
  }

  // ----------------------------------------------------------- properties

  /** Each flux reads exactly the quantities it is declared to depend on, so
      the engine refreshes it whenever one of them changes. */
  lemma FluxesReadTheirDependencies(s: EngineState)
    requires ValidState(s) && Enabled(s)
    ensures forall out, p :: out in {"Qe", "Qs", "Ql"} ==>
              (Dep(out, p) in Post(s).edges <==> p in UpdaterRefs(Post(s).quants[out].updater))
  {
    DepSetMembers("Qe", QeDeps);
    DepSetMembers("Qs", QsDeps);
    DepSetMembers("Ql", QlDeps);
    assert forall d :: d in s.edges ==> d.child in s.quants;
  }

  /** Each temperature is driven by its own flux: three equations are added. */
  lemma LoadAddsThreeOdes(s: EngineState)
    ensures Post(s).odes == s.odes + [Ode("Te", "Qe"), Ode("Ts", "Qs"), Ode("Tl", "Ql")]
    ensures Post(s).odes[|s.odes|..] == [Ode("Te", "Qe"), Ode("Ts", "Qs"), Ode("Tl", "Ql")]
  {
  }

  /** The six parameters are new unit scalar masks and the fluxes are scalar
      fields. */
  lemma LoadDeclaresParams(s: EngineState)
    requires Enabled(s)
    ensures forall n :: n in Params ==> Post(s).quants[n] == NewQuant(Scalar, Mask)
    ensures forall n :: n in {"Qe", "Qs", "Ql"} ==>
              Post(s).quants[n].shape == Scalar && Post(s).quants[n].kind == Field
  {
  }

  /** Load3T declares exactly nine names and leaves every existing quantity as
      it was. */
  lemma LoadKeepsOthers(s: EngineState)
    requires Enabled(s)
    ensures forall n :: n in s.quants ==> n in Post(s).quants && Post(s).quants[n] == s.quants[n]
    ensures Post(s).quants.Keys == s.quants.Keys + {"Q", "gamma_e", "Cs", "Cl", "Gel", "Gsl", "Qe", "Qs", "Ql"}
  {
  }

  /** Each flux only reads other quantities and nothing reads a flux yet, so
      the flux edges close no cycle. */
  lemma HeatEdgesAcyclic(edges: set<Dep>)
    requires Acyclic(edges)
    requires forall d :: d in edges ==> d.child !in {"Qe", "Qs", "Ql"} && d.parent !in {"Qe", "Qs", "Ql"}
    ensures Acyclic(HeatEdges(edges))
  {
    FluxesNotParents();
    var e1 := edges + DepSet("Qe", QeDeps);
    AddSourceAcyclic(edges, "Qe", QeDeps);
    DepSetAvoids("Qe", QeDeps, "Qs");
    DepSetAvoids("Qe", QeDeps, "Ql");
    var e2 := e1 + DepSet("Qs", QsDeps);
    AddSourceAcyclic(e1, "Qs", QsDeps);
    DepSetAvoids("Qs", QsDeps, "Ql");
    AddSourceAcyclic(e2, "Ql", QlDeps);
  }

  /** No flux depends on itself or on a flux declared after it. */
  lemma FluxesNotParents()
    ensures "Qe" !in QeDeps && "Qs" !in QeDeps && "Ql" !in QeDeps
    ensures "Qs" !in QsDeps && "Ql" !in QsDeps && "Ql" !in QlDeps
    ensures "Qe" != "Qs" && "Qe" != "Ql" && "Qs" != "Ql"
  {
  }

  /** The edges of one Depends call neither start nor end at a name that is
      neither the child nor one of the parents. */
  lemma DepSetAvoids(child: string, parents: seq<string>, x: string)
    requires x != child && x !in parents
    ensures forall d :: d in DepSet(child, parents) ==> d.child != x && d.parent != x
  {
    DepSetMembers(child, parents);
  }

  lemma LoadAcyclic(s: EngineState)
    requires ValidState(s) && Enabled(s) && Acyclic(s.edges)
    ensures Acyclic(Post(s).edges)
  {
    HeatEdgesAcyclic(s.edges);
  }

  // ------------------------------------------------------------ the updaters

  /** Qe_async, Qs_async and Ql_async, selected by the flux: from the arrays
      of the three temperatures and the parameters, and the multipliers of
      the parameters, the flux density. The kernels are not modelled. */
  type HeatKernel = (HeatFlux, seq<seq<real>>, seq<seq<real>>) -> seq<real>

  /** The state after QeUpdater / QsUpdater / QlUpdater.Update on `out`. */
  function HeatStep(s: EngineState, out: string, kernel: HeatKernel): EngineState
    requires ValidState(s) && out in s.quants && s.quants[out].updater.Heat?
  {
    var u := s.quants[out].updater;
    var ins := UpdaterRefs(u);
    var arrays := seq(|ins|, i requires 0 <= i < |ins| => s.quants[ins[i]].data);
    var muls := seq(|u.params|, i requires 0 <= i < |u.params| => s.quants[u.params[i]].multiplier);
    s.(quants := s.quants[out := s.quants[out].(data := kernel(u.flux, arrays, muls))],
       inFlight := s.inFlight - {out})
  }

  /** The flux array is a function of the arrays of the quantities its update
      rule names and the multipliers of its parameters, and of nothing else:
      two states that agree on those give the same flux. After the update
      the flux is synchronised and no other quantity has changed. */
  lemma HeatStepReadsOnlyInputs(s1: EngineState, s2: EngineState, out: string, kernel: HeatKernel)
    requires ValidState(s1) && out in s1.quants && s1.quants[out].updater.Heat?
    requires ValidState(s2) && out in s2.quants && s2.quants[out].updater == s1.quants[out].updater
    requires forall n :: n in UpdaterRefs(s1.quants[out].updater) ==> s1.quants[n].data == s2.quants[n].data
    requires forall n :: n in s1.quants[out].updater.params ==> s1.quants[n].multiplier == s2.quants[n].multiplier
    ensures HeatStep(s1, out, kernel).quants[out].data == HeatStep(s2, out, kernel).quants[out].data
    ensures out !in HeatStep(s1, out, kernel).inFlight
    ensures HeatStep(s1, out, kernel).quants.Keys == s1.quants.Keys
    ensures forall n :: n in s1.quants && n != out ==> HeatStep(s1, out, kernel).quants[n] == s1.quants[n]
  {
    var u := s1.quants[out].updater;
    var ins := UpdaterRefs(u);
    var a1 := seq(|ins|, i requires 0 <= i < |ins| => s1.quants[ins[i]].data);
    var a2 := seq(|ins|, i requires 0 <= i < |ins| => s2.quants[ins[i]].data);
    assert a1 == a2 by {
      forall i | 0 <= i < |ins| ensures a1[i] == a2[i] {
        assert ins[i] in ins;
      }
    }
    var m1 := seq(|u.params|, i requires 0 <= i < |u.params| => s1.quants[u.params[i]].multiplier);
    var m2 := seq(|u.params|, i requires 0 <= i < |u.params| => s2.quants[u.params[i]].multiplier);
    assert m1 == m2 by {
      forall i | 0 <= i < |u.params| ensures m1[i] == m2[i] {
        assert u.params[i] in u.params;
      }
    }
  }

  /** QeUpdater / QsUpdater / QlUpdater.Update: runs the flux kernel on the
      current arrays and multipliers, then waits for the flux array. */
  method UpdateHeat(e: Engine, out: string, kernel: HeatKernel)
    requires e.Valid() && out in e.quants && e.quants[out].updater.Heat?
    modifies e
    ensures e.Valid()
    ensures e.State() == HeatStep(old(e.State()), out, kernel)
  {
    var qs := e.quants;
    var u := qs[out].updater;
    var ins := UpdaterRefs(u);
    assert forall n :: n in ins ==> n in qs;
    var arrays := seq(|ins|, i requires 0 <= i < |ins| => qs[ins[i]].data);
    var muls := seq(|u.params|, i requires 0 <= i < |u.params| => qs[u.params[i]].multiplier);
    e.LaunchKernel(out, kernel(u.flux, arrays, muls));
    e.Sync(out);
  }
}
