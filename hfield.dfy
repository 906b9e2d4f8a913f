/** The effective field H_eff of the newer module package (hfield.go): created
    once, as a sum; if a flux density B exists at that moment, B/Mu0 becomes its
    first term. */
module HField {
  import opened Wrappers
  import opened Engine

  /** H_eff as first created: its sum holds B/Mu0 exactly when B exists. */
  function HEffQuant(hasB: bool): Quant
  {
    NewQuant(Vector, Field).(updater := Sum(if hasB then [Parent("B", InvMu0)] else []))
  }

  ghost function Post(s: EngineState): EngineState
  {
    if "H_eff" in s.quants then s
    else s.(quants := s.quants["H_eff" := HEffQuant("B" in s.quants)])
  }

  /** The outcome and state that LoadHField's calls produce. */
  function Run(s: EngineState): (Outcome, EngineState)
  {
    if "H_eff" in s.quants then (Pass, s) else
    var t1 := AddQuantOp(s, "H_eff", Vector, Field);
    if t1.0.Fail? then t1 else
    var t2 := SetUpdaterOp(t1.1, "H_eff", Sum([]));
    if t2.0.Fail? || "B" !in t2.1.quants then t2 else
    AddParentOp(t2.1, "H_eff", "B", InvMu0)
  }

  /** Loading never fails, and produces Post. */
  lemma RunMeetsPost(s: EngineState)
    ensures Run(s).0 == Pass
    ensures Run(s).1 == Post(s)
  {
    if "H_eff" !in s.quants {
      assert [] + [Parent("B", InvMu0)] == [Parent("B", InvMu0)];
    }
  }

  /** If H_eff exists, nothing changes; otherwise only H_eff is added. */
  lemma PostChangesOnlyHEff(s: EngineState)
    ensures "H_eff" in Post(s).quants
    ensures Post(s).edges == s.edges && Post(s).odes == s.odes && Post(s).inFlight == s.inFlight
    ensures forall n :: n in s.quants ==> n in Post(s).quants && Post(s).quants[n] == s.quants[n]
    ensures Post(s).quants.Keys == s.quants.Keys + {"H_eff"}
    ensures "H_eff" !in s.quants ==>
              Post(s).quants["H_eff"].updater ==
                (if "B" in s.quants then Sum([Parent("B", InvMu0)]) else Sum([]))
  {
  }

  lemma PostValid(s: EngineState)
    requires ValidState(s)
    ensures ValidState(Post(s))
  {
  }

  /** Loading twice is the same as loading once. */
  lemma LoadIdempotent(s: EngineState)
    ensures Run(Run(s).1) == Run(s)
  {
    RunMeetsPost(s);
    RunMeetsPost(Run(s).1);
  }

  /** LoadHField: adds H_eff unless it exists. */
  method LoadHField(e: Engine)
    requires e.Valid()
    modifies e
    ensures e.Valid()
    ensures (Pass, e.State()) == Run(old(e.State()))
    ensures e.State() == Post(old(e.State()))
  {
    RunMeetsPost(e.State());
    if !e.HasQuant("H_eff") {
      var r := e.AddQuant("H_eff", Vector, Field);
      r := e.SetUpdater("H_eff", Sum([]));
      if e.HasQuant("B") {
        r := e.AddParent("H_eff", "B", InvMu0);
      }
    }
  }
}
