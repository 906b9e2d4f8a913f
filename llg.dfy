/** The Landau-Lifshitz-Gilbert module (mod_llg.go): damping alpha, the
    gyromagnetic ratio gamma and the torque, with m driven by the torque. */
module Llg {
  import opened Wrappers
  import opened Engine
  import opened Registry
  import HField

  /** Gamma0, the default gyromagnetic ratio in m/As, as a real number. */
  const Gamma0: real := 221100.0

  const TorqueInputs: seq<string> := ["m", "H_eff", "alpha", "gamma"]

  /** The four torque edges. */
  lemma TorqueEdges()
    ensures DepSet("torque", TorqueInputs)
         == {Dep("torque", "m"), Dep("torque", "H_eff"), Dep("torque", "alpha"), Dep("torque", "gamma")}
  {
    DepSetMembers("torque", TorqueInputs);
  }

  lemma TorqueInputsDeclared(qs: map<string, Quant>)
    ensures AllDeclared(qs, TorqueInputs) <==> "m" in qs && "H_eff" in qs && "alpha" in qs && "gamma" in qs
  {
    assert forall n :: n in TorqueInputs <==> n in {"m", "H_eff", "alpha", "gamma"};
  }

  /** gamma as LoadLLG leaves it: Gamma0, guarded against zero. */
  function GammaQuant(): Quant
  {
    NewQuant(Scalar, Value).(multiplier := [Gamma0], verifier := NonZero)
  }

  function TorqueQuant(): Quant
  {
    NewQuant(Vector, Field).(updater := Torque("m", "H_eff", "alpha", "gamma"))
  }

  /** LoadLLG succeeds exactly when m exists (the magnetisation module is not
      part of this model) and alpha, gamma and torque are new. */
  ghost predicate Enabled(s: EngineState)
  {
    "m" in s.quants && "alpha" !in s.quants && "gamma" !in s.quants && "torque" !in s.quants
  }

  ghost function Post(s: EngineState): EngineState
  {
    var s1 := HField.Post(s);
    s1.(quants := s1.quants["alpha" := NewQuant(Scalar, Mask)]["gamma" := GammaQuant()]["torque" := TorqueQuant()],
        edges := s1.edges + DepSet("torque", TorqueInputs),
        odes := s1.odes + [Ode("m", "torque")])
  }

  /** The outcome and state that LoadLLG's calls produce. */
  function Run(s: EngineState): (Outcome, EngineState)
  {
    var s0 := HField.Run(s).1;
    var t1 := AddQuantOp(s0, "alpha", Scalar, Mask);
    if t1.0.Fail? then t1 else
    var t2 := AddQuantOp(t1.1, "gamma", Scalar, Value);
    if t2.0.Fail? then t2 else
    var t3 := SetScalarOp(t2.1, "gamma", Gamma0);
    if t3.0.Fail? then t3 else
    var t4 := SetVerifierOp(t3.1, "gamma", NonZero);
    if t4.0.Fail? then t4 else
    var t5 := AddQuantOp(t4.1, "torque", Vector, Field);
    if t5.0.Fail? then t5 else
    var t6 := DependsOp(t5.1, "torque", TorqueInputs);
    if t6.0.Fail? then t6 else
    var t7 := SetUpdaterOp(t6.1, "torque", Torque("m", "H_eff", "alpha", "gamma"));
    if t7.0.Fail? then t7 else
    AddOdeOp(t7.1, "m", "torque")
  }

  lemma RunPassesIffEnabled(s: EngineState)
    ensures Run(s).0.Pass? <==> Enabled(s)
  {
    HField.RunMeetsPost(s);
    HField.PostChangesOnlyHEff(s);
    var s0 := HField.Post(s);
    assert "m" in s0.quants <==> "m" in s.quants;
    assert "alpha" in s0.quants <==> "alpha" in s.quants;
    assert "gamma" in s0.quants <==> "gamma" in s.quants;
    assert "torque" in s0.quants <==> "torque" in s.quants;
    var t1 := AddQuantOp(s0, "alpha", Scalar, Mask);
    if t1.0.Pass? {
      var t2 := AddQuantOp(t1.1, "gamma", Scalar, Value);
      if t2.0.Pass? {
        var t3 := SetScalarOp(t2.1, "gamma", Gamma0);
        var t4 := SetVerifierOp(t3.1, "gamma", NonZero);
        var t5 := AddQuantOp(t4.1, "torque", Vector, Field);
        assert t5.0.Pass? <==> "torque" !in s.quants;
        if t5.0.Pass? {
          assert t5.1.quants.Keys == s.quants.Keys + {"H_eff", "alpha", "gamma", "torque"};
          TorqueInputsDeclared(t5.1.quants);
        }
      }
    }
  }

  lemma RunMeetsPost(s: EngineState)
    requires Run(s).0.Pass?
    ensures Run(s).1 == Post(s)
  {
    HField.RunMeetsPost(s);
    HField.PostChangesOnlyHEff(s);
  }

  /** The torque's update rule reads exactly the quantities it is declared to
      depend on. */
  lemma TorqueReadsItsDependencies(s: EngineState)
    requires ValidState(s) && Enabled(s)
    ensures Post(s).quants["torque"].updater == Torque("m", "H_eff", "alpha", "gamma")
    ensures forall p :: Dep("torque", p) in Post(s).edges <==> p in UpdaterRefs(Post(s).quants["torque"].updater)
  {
    HField.PostChangesOnlyHEff(s);
    DepSetMembers("torque", TorqueInputs);
  }

  /** gamma starts at Gamma0 with the non-zero verifier; m' = torque is added. */
  lemma LoadSetsGammaAndOde(s: EngineState)
    requires Enabled(s)
    ensures Post(s).quants["gamma"].multiplier == [Gamma0] && Post(s).quants["gamma"].verifier == NonZero
    ensures Post(s).quants["alpha"] == NewQuant(Scalar, Mask)
    ensures Post(s).quants["torque"].shape == Vector && Post(s).quants["torque"].kind == Field
    ensures Post(s).odes == s.odes + [Ode("m", "torque")]
  {
    HField.PostChangesOnlyHEff(s);
  }

  /** The torque edges go to m and H_eff, which precede it, and to alpha and
      gamma, which are new and of lower rank: no cycle appears. */
  lemma LoadAcyclic(s: EngineState)
    requires ValidState(s) && Enabled(s) && Acyclic(s.edges)
    ensures Acyclic(Post(s).edges)
  {
    var added := DepSet("torque", TorqueInputs);
    TorqueEdges();
    var rank := map["alpha" := 0, "gamma" := 0, "torque" := 1];
    assert FreshLayer(s.edges, added, rank);
    ExtendAcyclic(s.edges, added, rank);
    HField.PostChangesOnlyHEff(s);
  }

  /** LoadLLG. */
  method LoadLLG(e: Engine) returns (r: Outcome)
    requires e.Valid()
    modifies e
    ensures e.Valid()
    ensures (r, e.State()) == Run(old(e.State()))
    ensures r.Pass? <==> Enabled(old(e.State()))
    ensures r.Pass? ==> e.State() == Post(old(e.State()))
  {
    RunPassesIffEnabled(e.State());
    if Run(e.State()).0.Pass? { RunMeetsPost(e.State()); }
    HField.LoadHField(e);
    r := e.AddQuant("alpha", Scalar, Mask);
    if r.Fail? { return; }
    r := e.AddQuant("gamma", Scalar, Value);
    if r.Fail? { return; }
    r := e.SetScalar("gamma", Gamma0);
    if r.Fail? { return; }
    r := e.SetVerifier("gamma", NonZero);
    if r.Fail? { return; }
    r := e.AddQuant("torque", Vector, Field);
    if r.Fail? { return; }
    r := e.Depends("torque", TorqueInputs);
    if r.Fail? { return; }
    r := e.SetUpdater("torque", Torque("m", "H_eff", "alpha", "gamma"));
    if r.Fail? { return; }
    r := e.AddOde("m", "torque");
  }

  /** init(): registers the module as "llg". */
  method Init(reg: ModuleRegistry) returns (r: Outcome)
    modifies reg
    ensures (r, reg.modules) == Register(old(reg.modules), "llg", ModuleEntry("Landau-Lifshitz-Gilbert equation", LlgLoader))
  {
    r := reg.RegisterModule("llg", ModuleEntry("Landau-Lifshitz-Gilbert equation", LlgLoader));
  }

  // ------------------------------------------------------------ the updater

  /** gpu.Torque: the torque array from m, H, the damping map and the damping
      multiplier. The kernel itself is not modelled. */
  type TorqueKernel = (seq<real>, seq<real>, seq<real>, real) -> seq<real>

  /** The state after torqueUpdater.Update on the quantity `out`. */
  function TorqueStep(s: EngineState, out: string, kernel: TorqueKernel): (Outcome, EngineState)
    requires ValidState(s) && out in s.quants && s.quants[out].updater.Torque?
  {
    var q := s.quants[out];
    var u := q.updater;
    var gamma := s.quants[u.gamma].multiplier[0];
    if gamma == 0.0 then (Fail(InputErr("gamma should be non-zero")), s)
    else
      var filled := s.quants[out := q.(multiplier := seq(|q.multiplier|, _ => gamma))];
      var alpha := filled[u.alpha];
      var tau := kernel(filled[u.m].data, filled[u.h].data, alpha.data, alpha.multiplier[0]);
      (Pass, s.(quants := filled[out := filled[out].(data := tau)], inFlight := s.inFlight - {out}))
  }

  /** A zero gamma is refused with an input error, and nothing changes. */
  lemma ZeroGammaRefused(s: EngineState, out: string, kernel: TorqueKernel)
    requires ValidState(s) && out in s.quants && s.quants[out].updater.Torque?
    requires s.quants[s.quants[out].updater.gamma].multiplier[0] == 0.0
    ensures TorqueStep(s, out, kernel) == (Fail(InputErr("gamma should be non-zero")), s)
  {
  }

  /** With a non-zero gamma the update succeeds, every multiplier component of
      the torque equals gamma, the torque array holds the kernel's output and
      is synchronised, and no other quantity changes. The kernel reads the
      arrays of m, H and alpha and the damping multiplier; when the torque is
      not its own damping map these are the values before the update. */
  lemma NonZeroGammaFills(s: EngineState, out: string, kernel: TorqueKernel)
    requires ValidState(s) && out in s.quants && s.quants[out].updater.Torque?
    requires s.quants[s.quants[out].updater.gamma].multiplier[0] != 0.0
    ensures var (r, t) := TorqueStep(s, out, kernel);
            var u := s.quants[out].updater;
            var gamma := s.quants[u.gamma].multiplier[0];
            && r == Pass
            && t.quants.Keys == s.quants.Keys
            && |t.quants[out].multiplier| == |s.quants[out].multiplier|
            && (forall i :: 0 <= i < |t.quants[out].multiplier| ==> t.quants[out].multiplier[i] == gamma)
            && (u.alpha != out ==>
                  t.quants[out].data == kernel(s.quants[u.m].data, s.quants[u.h].data,
                                               s.quants[u.alpha].data, s.quants[u.alpha].multiplier[0]))
            && t.inFlight == s.inFlight - {out}
            && (forall n :: n in s.quants && n != out ==> t.quants[n] == s.quants[n])
            && t.quants[out].shape == s.quants[out].shape && t.quants[out].kind == s.quants[out].kind
            && t.quants[out].updater == u && t.quants[out].verifier == s.quants[out].verifier
            && t.edges == s.edges && t.odes == s.odes
            && t.gridSize == s.gridSize && t.cellSize == s.cellSize
  {
  }

  /** torqueUpdater.Update: refuses a zero gamma before touching anything,
      sets every multiplier component of the torque to gamma, then runs the
      kernel, which returns only once the torque array is written. */
  method UpdateTorque(e: Engine, out: string, kernel: TorqueKernel) returns (r: Outcome)
    requires e.Valid() && out in e.quants && e.quants[out].updater.Torque?
    modifies e
    ensures e.Valid()
    ensures (r, e.State()) == TorqueStep(old(e.State()), out, kernel)
  {
    ghost var s := e.State();
    var u := e.quants[out].updater;
    var mul := e.quants[out].multiplier;
    var gamma := e.quants[u.gamma].multiplier[0];
    if gamma == 0.0 {
      return Fail(InputErr("gamma should be non-zero"));
    }
    var i := 0;
    while i < |mul|
      invariant 0 <= i <= |mul| == |e.quants[out].multiplier|
      invariant forall j :: 0 <= j < i ==> mul[j] == gamma
    {
      mul := mul[i := gamma];
      i := i + 1;
    }
    assert mul == seq(|mul|, _ => gamma);
    e.SetMultiplier(out, mul);
    ghost var filled := e.quants;
    var alpha := e.quants[u.alpha];
    var tau := kernel(e.quants[u.m].data, e.quants[u.h].data, alpha.data, alpha.multiplier[0]);
    e.LaunchKernel(out, tau);
    e.Sync(out);
    assert e.inFlight == s.inFlight - {out};
    assert e.quants == filled[out := filled[out].(data := tau)];
    r := Pass;
  }
}
