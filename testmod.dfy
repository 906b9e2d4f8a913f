/** The test physics graph of the older engine package (mod_testmod.go):
    magnetisation m, a time-dependent field h_z, the total field h and the
    torque, with m driven by the torque. */
module TestModule {
  import opened Wrappers
  import opened Engine

  /** The edges LoadTest declares: h_z on t, h on h_z, torque on m and h. */
  function TestEdges(): set<Dep>
  {
    {Dep("h_z", "t"), Dep("h", "h_z"), Dep("torque", "m"), Dep("torque", "h")}
  }

  /** The edges after each Depends call of LoadTest, in order. */
  function AddTestEdges(edges: set<Dep>): set<Dep>
  {
    edges + DepSet("h_z", ["t"]) + DepSet("h", ["h_z"]) + DepSet("torque", ["m"]) + DepSet("torque", ["h"])
  }

  lemma AddTestEdgesIsUnion(edges: set<Dep>)
    ensures AddTestEdges(edges) == edges + TestEdges()
  {
    DepSetSingle("h_z", "t");
    DepSetSingle("h", "h_z");
    DepSetSingle("torque", "m");
    DepSetSingle("torque", "h");
  }

  /** LoadTest succeeds exactly when time `t` exists and none of its four
      quantities has been declared yet. */
  ghost predicate Enabled(s: EngineState)
  {
    "t" in s.quants && "m" !in s.quants && "h_z" !in s.quants && "h" !in s.quants && "torque" !in s.quants
  }

  /** The engine after LoadTest. */
  ghost function Post(s: EngineState): EngineState
  {
    s.(quants := s.quants["m" := NewQuant(Vector, Field)]["h_z" := NewQuant(Vector, Field)]
                         ["h" := NewQuant(Vector, Field)]["torque" := NewQuant(Vector, Field)],
       edges := AddTestEdges(s.edges),
       odes := s.odes + [Ode("m", "torque")])
  }

  /** The outcome and state that LoadTest's calls produce, stopping at the
      first failing call. */
  function Run(s: EngineState): (Outcome, EngineState)
  {
    var t1 := AddQuantOp(s, "m", Vector, Field);
    if t1.0.Fail? then t1 else
    var t2 := AddQuantOp(t1.1, "h_z", Vector, Field);
    if t2.0.Fail? then t2 else
    var t3 := DependsOp(t2.1, "h_z", ["t"]);
    if t3.0.Fail? then t3 else
    var t4 := AddQuantOp(t3.1, "h", Vector, Field);
    if t4.0.Fail? then t4 else
    var t5 := DependsOp(t4.1, "h", ["h_z"]);
    if t5.0.Fail? then t5 else
    var t6 := AddQuantOp(t5.1, "torque", Vector, Field);
    if t6.0.Fail? then t6 else
    var t7 := DependsOp(t6.1, "torque", ["m"]);
    if t7.0.Fail? then t7 else
    var t8 := DependsOp(t7.1, "torque", ["h"]);
    if t8.0.Fail? then t8 else
    AddOdeOp(t8.1, "m", "torque")
  }

  /** LoadTest succeeds exactly when it is enabled. */
  lemma RunPassesIffEnabled(s: EngineState)
    ensures Run(s).0.Pass? <==> Enabled(s)
  {
    assert "t" in ["t"] && "h_z" in ["h_z"] && "m" in ["m"] && "h" in ["h"];
    assert "m" != "h_z" && "m" != "h" && "m" != "torque" && "m" != "t";
    assert "h_z" != "h" && "h_z" != "torque" && "h_z" != "t";
    assert "h" != "torque" && "h" != "t" && "torque" != "t";
  }

  /** A successful LoadTest produces Post. */
  lemma RunMeetsPost(s: EngineState)
    requires Run(s).0.Pass?
    ensures Run(s).1 == Post(s)
  {
    RunPassesIffEnabled(s);
  }

  /** Engine.LoadTest. */
  method LoadTest(e: Engine) returns (r: Outcome)
    requires e.Valid()
    modifies e
    ensures e.Valid()
    ensures (r, e.State()) == Run(old(e.State()))
    ensures r.Pass? <==> Enabled(old(e.State()))
    ensures r.Pass? ==> e.State() == Post(old(e.State()))
  {
    RunPassesIffEnabled(e.State());
    if Run(e.State()).0.Pass? { RunMeetsPost(e.State()); }
    r := e.AddQuant("m", Vector, Field);
    if r.Fail? { return; }
    r := e.AddQuant("h_z", Vector, Field);
    if r.Fail? { return; }
    r := e.Depends("h_z", ["t"]);
    if r.Fail? { return; }
    r := e.AddQuant("h", Vector, Field);
    if r.Fail? { return; }
    r := e.Depends("h", ["h_z"]);
    if r.Fail? { return; }
    r := e.AddQuant("torque", Vector, Field);
    if r.Fail? { return; }
    r := e.Depends("torque", ["m"]);
    if r.Fail? { return; }
    r := e.Depends("torque", ["h"]);
    if r.Fail? { return; }
    r := e.AddOde("m", "torque");
  }

  /** The four quantities exist, all as vector fields, and LoadTest attaches
      no update rule and no verifier to them. */
  lemma LoadTestQuants(s: EngineState)
    requires Enabled(s)
    ensures forall n :: n in {"m", "h_z", "h", "torque"} ==>
              n in Post(s).quants && Post(s).quants[n] == NewQuant(Vector, Field)
              && Post(s).quants[n].updater == NoUpdater
    ensures forall n :: n in s.quants ==> n in Post(s).quants && Post(s).quants[n] == s.quants[n]
    ensures Post(s).quants.Keys == s.quants.Keys + {"m", "h_z", "h", "torque"}
  {
  }

  /** Exactly one ODE is added, m' = torque, and exactly the four test edges. */
  lemma LoadTestOdeAndEdges(s: EngineState)
    ensures Post(s).odes == s.odes + [Ode("m", "torque")]
    ensures Post(s).edges == s.edges + TestEdges()
  {
    AddTestEdgesIsUnion(s.edges);
  }

  /** The test graph adds no cycle: its edges go from torque (rank 2) down to h
      (rank 1) and m (rank 0), from h to h_z (rank 0), and from h_z out to t. */
  lemma LoadTestAcyclic(s: EngineState)
    requires ValidState(s) && Enabled(s) && Acyclic(s.edges)
    ensures Acyclic(Post(s).edges)
  {
    var rank := map["m" := 0, "h_z" := 0, "h" := 1, "torque" := 2];
    assert rank.Keys == {"m", "h_z", "h", "torque"};
    assert forall d :: d in TestEdges() ==> d.child in rank && (d.parent in rank ==> rank[d.parent] < rank[d.child]);
    ValidExtendAcyclic(s, TestEdges(), rank);
    AddTestEdgesIsUnion(s.edges);
  }

  /** torque depends on time, through h and h_z. */
  lemma TorqueDependsOnTime(s: EngineState)
    requires Enabled(s)
    ensures DependsOn(Post(s).edges, "torque", "t")
  {
    AddTestEdgesIsUnion(s.edges);
    var p := ["torque", "h", "h_z", "t"];
    assert IsPath(Post(s).edges, p);
  }
}
