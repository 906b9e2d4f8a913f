# mumax2 engine core, modelled in Dafny

This project models the core of mumax2, a GPU micromagnetic simulator. The core covers:

- how physics modules are registered and loaded into the simulation engine;
- the scripting API through which clients drive that engine;
- the client-side line tokenizer;
- the generators that write Python and Java client stubs.

The engine keeps a table of named quantities. Each quantity has a shape (scalar or vector), a kind (value, mask or field), a multiplier, data, a verifier and an updater. The engine also keeps a set of dependency edges, a list of first-order ODEs (`AddPDE1`/`ODE1`), the set of outputs whose kernel was launched but not yet synchronised, and the grid and cell sizes.

The engine's own implementation is not part of this model. Module `Engine` gives each engine call the loaders and the API use a pure specification function (`AddQuantOp`, `DependsOp`, …). Each such function returns an outcome and the new state. The `Engine.Engine` class implements these calls as methods proved against those functions. Two Go behaviours are modelled as `Fail` outcomes:

- an engine panic (unknown quantity, duplicate quantity, failed `SumUpdater` type assertion);
- a panic raised by a module.

Each module loader follows the same pattern:

- a function `Run(s)` states what loading does to an engine state;
- `Enabled(s)` says when loading succeeds, and `Post(s)` says what it produces;
- lemmas prove `Run(s)` passes exactly when `Enabled(s)` holds, and that it then yields `Post(s)`;
- further lemmas prove what the new state contains, and that loading keeps the dependency graph acyclic;
- a method on the engine class is proved equal to `Run`.

Modules:

- `Wrappers`, `Strings`, `Writers`: Option/Result, Go's `strings.Split`/`Join` with their round-trip lemmas, and an `io.Writer` as a growing string.
- `Registry`: the global module table and `RegisterModule`.
- `Engine`: quantities, dependency edges, engine calls, acyclicity lemmas.
- `TestModule`, `Zeeman`, `PkgHField`, `HField`, `Llg`, `ThreeTemperature`, `UniaxialAnisotropy`: the module loaders and their updaters.
- `Api`: the scripting API, including the x/z axis swap between user order and internal order.
- `AutoSaves`: the output file name and save request built by the periodic auto-save.
- `EngineApi`: the RPC test surface, with Go `int` taken as a wrapping 64-bit integer.
- `ClientIo`: `readChar`/`parseLine` over a stream of read results.
- `PythonGen`, `JavaGen`: the stub generators, including Go `Printf` format semantics where the Python doc comment is used as a format.

## Model

| member | source | states |
|---|---|---|
| Registry.Register | src/pkg/mumax/engine/module.go:26-31 | registering a name already present fails with "already registered" and leaves the table unchanged; otherwise the name maps to the new module; the key set grows by exactly that name and every other entry is kept |
| Registry.RegisterTwice | src/pkg/mumax/engine/module.go:27-29 | a second registration under the same name fails and keeps the first module |
| Registry.RegisterCommutes | src/pkg/mumax/engine/module.go:26-31 | registering two different names gives the same table in either order |
| Registry.ModuleRegistry.constructor | src/pkg/mumax/engine/module.go:22 | the table starts empty |
| Registry.ModuleRegistry.RegisterModule | src/pkg/mumax/engine/module.go:26-31 | the outcome and the new table are those of `Register` on the old table |
| Engine.DepSetMembers | src/mumax/modules/mod_3T.go:43-45 | `Depends(child, parents…)` adds exactly the edges from child to each listed parent |
| Engine.DepSetSingle | src/pkg/mumax/engine/mod_testmod.go:17 | a one-parent `Depends` adds a single edge |
| Engine.FirstMissing | src/mumax/modules/mod_llg.go:42 | reports no name exactly when every listed parent is declared; a reported name is undeclared |
| Engine.LookupOp | src/mumax/modules/mod_3T.go:25-27 | `e.Quant(name)` succeeds exactly when the quantity exists, fails with no-such-quantity otherwise, and never changes the engine |
| Engine.AddQuantOp | src/pkg/mumax/engine/mod_testmod.go:14-21 | adding succeeds exactly when the name is new; a duplicate fails and changes nothing |
| Engine.DependsOp | src/pkg/mumax/engine/mod_testmod.go:17-23 | `Depends` succeeds exactly when the child and every parent are declared; otherwise no-such-quantity and nothing changes |
| Engine.SetUpdaterOp | src/mumax/modules/mod_llg.go:43-49 | setting an updater succeeds exactly when the quantity and every quantity the updater reads exist; a failure changes nothing |
| Engine.AddParentOp | src/pkg/mumax/engine/mod_zeeman.go:32-34 | `AddParent` succeeds exactly when the target exists, has a `SumUpdater` and the parent exists; a target with another updater fails the type assertion; failures change nothing |
| Engine.SetScalarOp | src/mumax/modules/mod_llg.go:38 | `SetScalar` succeeds exactly on an existing scalar quantity; a failure changes nothing |
| Engine.SetVerifierOp | src/mumax/modules/mod_llg.go:39 | `SetVerifier` succeeds exactly on an existing quantity; a failure changes nothing |
| Engine.SetValueOp | src/pkg/mumax/engine/api.go:80-88 | `SetValue` succeeds exactly when the quantity exists, is a VALUE or a MASK, and the value has its number of components and passes its verifier; a FIELD is refused as the wrong kind; a failure changes nothing |
| Engine.AddOdeOp | src/pkg/mumax/engine/mod_testmod.go:25 | adding an ODE succeeds exactly when both quantities exist; a failure changes nothing |
| Engine.SumRefsAppend | src/pkg/mumax/engine/mod_zeeman.go:34 | after `AddParent`, a sum reads exactly its old parents plus the new one |
| Engine.AddQuantKeepsValid | src/pkg/mumax/engine/mod_testmod.go:14 | adding a quantity keeps the engine's well-formedness |
| Engine.DependsKeepsValid | src/pkg/mumax/engine/mod_testmod.go:17 | `Depends` keeps every edge between declared quantities |
| Engine.SetUpdaterKeepsValid | src/mumax/modules/mod_llg.go:44 | setting an updater keeps well-formedness |
| Engine.SetScalarKeepsValid | src/mumax/modules/mod_llg.go:38 | setting a scalar keeps well-formedness |
| Engine.SetVerifierKeepsValid | src/mumax/modules/mod_llg.go:39 | setting a verifier keeps well-formedness |
| Engine.SetValueKeepsValid | src/pkg/mumax/engine/api.go:83-88 | setting a value keeps well-formedness |
| Engine.AddOdeKeepsValid | src/pkg/mumax/engine/mod_testmod.go:25 | adding an ODE keeps well-formedness |
| Engine.AddParentKeepsValid | src/pkg/mumax/engine/mod_zeeman.go:34 | adding a sum parent keeps well-formedness |
| Engine.PathStaysOld | src/mumax/modules/mod_3T.go:43-45 | a path in the extended graph that starts at an old node uses only old edges |
| Engine.PathRankDrops | src/mumax/modules/mod_3T.go:43-45 | along a path between new nodes the rank strictly drops |
| Engine.ExtendAcyclic | src/mumax/modules/mod_3T.go:43-45 | adding a layer of edges from ranked new nodes keeps the dependency graph acyclic |
| Engine.ValidExtendAcyclic | src/mumax/modules/mod_llg.go:42 | edges out of newly declared quantities, ranked, keep the graph acyclic |
| Engine.AddSourceAcyclic | src/pkg/mumax/engine/mod_zeeman.go:35 | a `Depends` on a quantity nothing touches yet keeps the graph acyclic |
| Engine.Engine.Lookup | src/mumax/modules/mod_3T.go:25-27 | returns the quantity exactly when it exists, else no-such-quantity |
| Engine.Engine.AddQuant | src/pkg/mumax/engine/mod_testmod.go:14-21 | behaves as `AddQuantOp` |
| Engine.Engine.Depends | src/pkg/mumax/engine/mod_testmod.go:17-23 | behaves as `DependsOp` |
| Engine.Engine.SetUpdater | src/mumax/modules/mod_llg.go:43-49 | behaves as `SetUpdaterOp` |
| Engine.Engine.AddParent | src/pkg/mumax/engine/mod_zeeman.go:32-34 | behaves as `AddParentOp` |
| Engine.Engine.SetScalar | src/mumax/modules/mod_llg.go:38 | behaves as `SetScalarOp` |
| Engine.Engine.SetVerifier | src/mumax/modules/mod_llg.go:39 | behaves as `SetVerifierOp` |
| Engine.Engine.SetValue | src/pkg/mumax/engine/api.go:80-88 | behaves as `SetValueOp` |
| Engine.Engine.AddOde | src/pkg/mumax/engine/mod_testmod.go:25 | behaves as `AddOdeOp` |
| Engine.Engine.SetMultiplier | src/mumax/modules/mod_llg.go:66-68 | replaces one quantity's multiplier and nothing else |
| Engine.Engine.LaunchKernel | src/mumax/modules/mod_llg.go:69 | writes an output's data and marks it in flight |
| Engine.Engine.Sync | src/mumax/modules/mod_3T.go:83 | clears the output's in-flight mark and nothing else |
| Engine.Engine.SetGridSize | src/pkg/mumax/engine/api.go:30-32 | stores the grid size and nothing else |
| Engine.Engine.SetCellSize | src/pkg/mumax/engine/api.go:43-45 | stores the cell size and nothing else |
| TestModule.AddTestEdgesIsUnion | src/pkg/mumax/engine/mod_testmod.go:17-23 | the four `Depends` calls add exactly h_z→t, h→h_z, torque→m and torque→h |
| TestModule.RunPassesIffEnabled | src/pkg/mumax/engine/mod_testmod.go:13-26 | `LoadTest` succeeds exactly when m, h_z, h and torque are new and t exists |
| TestModule.RunMeetsPost | src/pkg/mumax/engine/mod_testmod.go:13-26 | a successful `LoadTest` produces `Post` |
| TestModule.LoadTest | src/pkg/mumax/engine/mod_testmod.go:13-26 | the method behaves as `Run`: it passes exactly when enabled, and then yields `Post` |
| TestModule.LoadTestQuants | src/pkg/mumax/engine/mod_testmod.go:14-21 | declares exactly m, h_z, h and torque as vector fields with no updater and keeps every other quantity |
| TestModule.LoadTestOdeAndEdges | src/pkg/mumax/engine/mod_testmod.go:17-25 | appends the ODE dm/dt = torque and adds exactly the test edges |
| TestModule.LoadTestAcyclic | src/pkg/mumax/engine/mod_testmod.go:17-23 | loading keeps the dependency graph acyclic |
| TestModule.TorqueDependsOnTime | src/pkg/mumax/engine/mod_testmod.go:17-23 | torque transitively depends on t through h and h_z |
| PkgHField.RunMeetsPost | src/pkg/mumax/modules/mod_hfield.go:24-28 | loading succeeds exactly when H is new and then yields `Post`; otherwise duplicate-quantity "H" and nothing changes |
| PkgHField.LoadTwiceFails | src/pkg/mumax/modules/mod_hfield.go:24-28 | loading this hfield twice fails with duplicate "H" |
| PkgHField.LoadHField | src/pkg/mumax/modules/mod_hfield.go:24-28 | the method behaves as `Run` |
| PkgHField.Init | src/pkg/mumax/modules/mod_hfield.go:20-22 | registers "hfield" with its description and loader |
| HField.RunMeetsPost | src/mumax/modules/hfield.go:19-29 | this `LoadHField` never fails and yields `Post` |
| HField.PostChangesOnlyHEff | src/mumax/modules/hfield.go:19-29 | it only declares H_eff if absent, as a sum with the parent B/Mu0 exactly when B exists, and keeps all else |
| HField.PostValid | src/mumax/modules/hfield.go:19-29 | loading keeps the engine well-formed |
| HField.LoadIdempotent | src/mumax/modules/hfield.go:20 | loading twice equals loading once |
| HField.LoadHField | src/mumax/modules/hfield.go:19-29 | the method yields `Post` of the old state |
| Zeeman.RunMeetsPost | src/pkg/mumax/engine/mod_zeeman.go:29-36 | loading succeeds exactly when `Enabled` holds and then yields `Post` |
| Zeeman.HExtFeedsH | src/pkg/mumax/engine/mod_zeeman.go:31-35 | H becomes the sum of H_ext alone; H_ext is a vector mask; the only new edge is H_ext→t; ODEs are unchanged |
| Zeeman.LoadAcyclic | src/pkg/mumax/engine/mod_zeeman.go:35 | loading keeps the graph acyclic |
| Zeeman.Load | src/pkg/mumax/engine/mod_zeeman.go:29-36 | the method behaves as `Run` |
| Zeeman.Init | src/pkg/mumax/engine/mod_zeeman.go:15-27 | registers "zeeman" with "externally applied field (A/m)" |
| Llg.TorqueEdges | src/mumax/modules/mod_llg.go:42 | torque depends on exactly m, H_eff, alpha and gamma |
| Llg.TorqueInputsDeclared | src/mumax/modules/mod_llg.go:42-49 | the torque inputs are declared exactly when m, H_eff, alpha and gamma all exist |
| Llg.RunPassesIffEnabled | src/mumax/modules/mod_llg.go:31-52 | `LoadLLG` succeeds exactly when `Enabled` holds |
| Llg.RunMeetsPost | src/mumax/modules/mod_llg.go:31-52 | a successful load yields `Post` |
| Llg.TorqueReadsItsDependencies | src/mumax/modules/mod_llg.go:42-49 | the torque updater reads exactly the quantities torque is declared to depend on |
| Llg.LoadSetsGammaAndOde | src/mumax/modules/mod_llg.go:36-51 | gamma is Gamma0 with a non-zero verifier; alpha is a scalar mask; torque is a vector field; dm/dt = torque is appended |
| Llg.LoadAcyclic | src/mumax/modules/mod_llg.go:42 | loading keeps the graph acyclic |
| Llg.LoadLLG | src/mumax/modules/mod_llg.go:31-52 | the method behaves as `Run` |
| Llg.Init | src/mumax/modules/mod_llg.go:17-19 | registers "llg" |
| Llg.ZeroGammaRefused | src/mumax/modules/mod_llg.go:62-65 | with gamma zero the update panics with "gamma should be non-zero" and changes nothing |
| Llg.NonZeroGammaFills | src/mumax/modules/mod_llg.go:66-69 | otherwise every torque multiplier component becomes gamma; when alpha is not the torque itself, the torque data is the kernel's output for m, H_eff, alpha and alpha's multiplier; only the torque's in-flight mark is cleared; every other quantity, the torque's shape, kind, updater and verifier, the edges, the ODEs and the grid and cell sizes are unchanged |
| Llg.UpdateTorque | src/mumax/modules/mod_llg.go:59-70 | the method behaves as `TorqueStep` |
| ThreeTemperature.CapacityRunMeets | src/mumax/modules/mod_3T.go:29-32 | declaring Q, gamma_e, Cs and Cl succeeds exactly when all are new, and then adds them as scalar masks |
| ThreeTemperature.CouplingRunMeets | src/mumax/modules/mod_3T.go:34-37 | succeeds exactly when Gel and Gsl are new and Ges exists, and then adds Gel and Gsl |
| ThreeTemperature.FluxRunMeets | src/mumax/modules/mod_3T.go:39-41 | succeeds exactly when Qe, Qs and Ql are new, and then adds them as scalar fields |
| ThreeTemperature.WireRunMeets | src/mumax/modules/mod_3T.go:43-49 | with everything declared, adds the three flux edge sets and the three heat updaters |
| ThreeTemperature.CoupleRunMeets | src/mumax/modules/mod_3T.go:51-53 | appends the ODEs Te/Qe, Ts/Qs, Tl/Ql in that order |
| ThreeTemperature.DeclarationsMeet | src/mumax/modules/mod_3T.go:23-41 | when enabled, each declaration step passes with its stated state |
| ThreeTemperature.RunPassesIffEnabled | src/mumax/modules/mod_3T.go:21-55 | `Load3T` succeeds exactly when the temperatures and Ges exist and its nine new names are free |
| ThreeTemperature.WiredFluxes | src/mumax/modules/mod_3T.go:39-41 | the declared fluxes are scalar fields without updaters |
| ThreeTemperature.RunMeetsPost | src/mumax/modules/mod_3T.go:21-55 | a successful load yields `Post` |
| ThreeTemperature.LookupTemperatures | src/mumax/modules/mod_3T.go:25-27 | the lookups behave as `LookupRun` |
| ThreeTemperature.DeclareCapacities | src/mumax/modules/mod_3T.go:29-32 | behaves as `CapacityRun` |
| ThreeTemperature.DeclareCouplings | src/mumax/modules/mod_3T.go:34-37 | behaves as `CouplingRun` |
| ThreeTemperature.DeclareFluxes | src/mumax/modules/mod_3T.go:39-41 | behaves as `FluxRun` |
| ThreeTemperature.Wire | src/mumax/modules/mod_3T.go:43-49 | behaves as `WireRun` |
| ThreeTemperature.Couple | src/mumax/modules/mod_3T.go:51-53 | behaves as `CoupleRun` |
| ThreeTemperature.Load3T | src/mumax/modules/mod_3T.go:21-55 | the method behaves as `Run` |
| ThreeTemperature.Init | src/mumax/modules/mod_3T.go:17-19 | registers "3T" |
| ThreeTemperature.FluxesReadTheirDependencies | src/mumax/modules/mod_3T.go:43-49 | each flux updater reads exactly the quantities its `Depends` lists |
| ThreeTemperature.LoadAddsThreeOdes | src/mumax/modules/mod_3T.go:51-53 | exactly three ODEs are appended, in source order |
| ThreeTemperature.LoadDeclaresParams | src/mumax/modules/mod_3T.go:29-41 | the parameters are scalar masks and the fluxes are scalar fields with heat updaters |
| ThreeTemperature.LoadKeepsOthers | src/mumax/modules/mod_3T.go:29-41 | every prior quantity is kept and exactly the nine new names are added |
| ThreeTemperature.HeatEdgesAcyclic | src/mumax/modules/mod_3T.go:43-45 | the flux edges keep an acyclic graph acyclic |
| ThreeTemperature.LoadAcyclic | src/mumax/modules/mod_3T.go:43-45 | loading keeps the graph acyclic |
| ThreeTemperature.HeatStepReadsOnlyInputs | src/mumax/modules/mod_3T.go:69-114 | a flux update depends only on its inputs' data and parameter multipliers; it syncs its output and changes nothing else |
| ThreeTemperature.UpdateHeat | src/mumax/modules/mod_3T.go:69-84 | the method behaves as `HeatStep` |
| UniaxialAnisotropy.DeclareRunMeets | src/pkg/mumax/modules/mod_uniaxialanisotropy.go:25-30 | the hfield load and the four declarations succeed exactly when H, H_anis, Ku1, Ku2 and anisU are new |
| UniaxialAnisotropy.WireRunMeets | src/pkg/mumax/modules/mod_uniaxialanisotropy.go:32-37 | wiring succeeds exactly when MSat and m exist, and then adds H_anis to H's sum, its edges and its updater |
| UniaxialAnisotropy.RunPassesIffEnabled | src/pkg/mumax/modules/mod_uniaxialanisotropy.go:24-38 | loading succeeds exactly when `Enabled` holds and then yields `Post` |
| UniaxialAnisotropy.Declare | src/pkg/mumax/modules/mod_uniaxialanisotropy.go:25-30 | behaves as `DeclareRun` |
| UniaxialAnisotropy.Wire | src/pkg/mumax/modules/mod_uniaxialanisotropy.go:32-37 | behaves as `WireRun` |
| UniaxialAnisotropy.LoadAnisUniaxial | src/pkg/mumax/modules/mod_uniaxialanisotropy.go:24-38 | the method behaves as `Run` |
| UniaxialAnisotropy.Init | src/pkg/mumax/modules/mod_uniaxialanisotropy.go:20-22 | registers "anisotropy/uniaxial" |
| UniaxialAnisotropy.AnisFeedsH | src/pkg/mumax/modules/mod_uniaxialanisotropy.go:27-37 | H becomes the sum of H_anis; H_anis gets the anisotropy updater; Ku1, Ku2 and anisU get their shapes; prior quantities and ODEs are kept |
| UniaxialAnisotropy.LoadFailsAfterHField | src/pkg/mumax/modules/mod_uniaxialanisotropy.go:25 | after the pkg hfield is loaded, this loader fails with duplicate "H" |
| UniaxialAnisotropy.UpdaterReadsUndeclaredM | src/pkg/mumax/modules/mod_uniaxialanisotropy.go:35-37 | as written, the updater reads m but H_anis has no edge to m, and it has an edge to MSat, which the updater does not read |
| UniaxialAnisotropy.FixedDepsCoverUpdater | src/pkg/mumax/modules/mod_uniaxialanisotropy.go:35-37 | with m among the dependencies, every quantity the updater struct references (m, Ku1, Ku2, anisU) is a declared dependency and acyclicity is kept; the "msat" looked up at update time is still not one |
| UniaxialAnisotropy.LoadAcyclic | src/pkg/mumax/modules/mod_uniaxialanisotropy.go:35 | loading keeps the graph acyclic |
| UniaxialAnisotropy.AnisStepOutcome | src/pkg/mumax/modules/mod_uniaxialanisotropy.go:44-60 | the update fails with no-such-quantity "msat" exactly when msat is missing, changing nothing; otherwise it writes and syncs H_anis only |
| UniaxialAnisotropy.AnisStepReadsOnlyInputs | src/pkg/mumax/modules/mod_uniaxialanisotropy.go:44-60 | the new H_anis depends only on the updater's inputs and msat |
| UniaxialAnisotropy.UpdateAnis | src/pkg/mumax/modules/mod_uniaxialanisotropy.go:44-60 | the method behaves as `AnisStep` |
| Api.SwapXZInvolution | src/pkg/mumax/engine/api.go:162-167 | swapping x and z twice gives the original vector, and keeps its length |
| Api.SwapXYZ | src/pkg/mumax/engine/api.go:162-167 | the in-place swap leaves the array holding `SwapXZ` of its old contents: x and z exchanged for three elements, any other length untouched |
| Api.UserOrderInternal | src/pkg/mumax/engine/api.go:30-39 | reading a size back gives the user's (x, y, z) |
| Api.InternalUserOrder | src/pkg/mumax/engine/api.go:36-39 | a stored size with three entries reads back in user order and is stored again unchanged |
| Api.DispatchKnowsFourNames | src/pkg/mumax/engine/api.go:56-69 | exactly test, micromag, micromagenergy and spintorque are known, to distinct modules; any other name panics with "Unknown module:" + name + " Options: micromag" |
| Api.SetValueThenGetValue | src/pkg/mumax/engine/api.go:83-131 | a successful `SetValue` is read back unchanged by `GetValue` and has the quantity's number of components |
| Api.SetValueThenGetScalar | src/pkg/mumax/engine/api.go:83-139 | setting [x] reads back as the scalar x |
| Api.RefusedValueKeepsOld | src/pkg/mumax/engine/api.go:80-88 | a refused value leaves the quantity's value as it was; a FIELD is refused as the wrong kind; for a VALUE or MASK with the right arity, a refusal means the verifier rejected it |
| Api.Api.constructor | src/pkg/mumax/engine/api.go:56-69 | the API wraps the given engine |
| Api.Api.SetGridSize | src/pkg/mumax/engine/api.go:30-32 | stores the size in internal (z, y, x) order and changes nothing else |
| Api.Api.GetGridSize | src/pkg/mumax/engine/api.go:36-39 | returns the stored size in user order; re-storing it gives the same size |
| Api.Api.SetCellSize | src/pkg/mumax/engine/api.go:43-45 | stores the cell size in internal order |
| Api.Api.GetCellSize | src/pkg/mumax/engine/api.go:49-52 | returns the cell size in user order |
| Api.Api.Load | src/pkg/mumax/engine/api.go:56-69 | an unknown name panics with the unknown-module message; "test" behaves as `LoadTest` |
| Api.Api.SetValue | src/pkg/mumax/engine/api.go:83-88 | stores the x/z-swapped value through `SetValue` when the quantity exists, else fails with no-such-quantity |
| Api.Api.GetValue | src/pkg/mumax/engine/api.go:124-131 | returns a fresh copy of the multiplier in user order exactly when the quantity exists, else no-such-quantity |
| Api.Api.GetScalar | src/pkg/mumax/engine/api.go:135-139 | succeeds exactly for an existing scalar quantity and returns its multiplier; a missing quantity gives no-such-quantity, a vector or tensor gives a wrong-arity error |
| AutoSaves.FileNameParts | src/pkg/mumax/engine/notify_autosave.go:28 | the file name is the quantity, then the number, then "." and the format's extension |
| AutoSaves.FileNameDeterminesNumber | src/pkg/mumax/engine/notify_autosave.go:28 | distinct file numbers give distinct file names |
| AutoSaves.RequestSavesNamedQuant | src/pkg/mumax/engine/notify_autosave.go:26-30 | a save is requested exactly when the quantity exists, with its own format, options and file name; otherwise no-such-quantity |
| AutoSaves.AutoSave.constructor | src/pkg/mumax/engine/notify_autosave.go:17-23 | the record holds the given quantity, format, options, period and last save time |
| AutoSaves.AutoSave.Notify | src/pkg/mumax/engine/notify_autosave.go:26-30 | the save request built is `Request` for the engine's state |
| EngineApi.Wrap | src/pkg/mumax/engine/engineapi.go:57-59 | the result is congruent to the input modulo 2^64, and equals it in the int64 range |
| EngineApi.Sum | src/pkg/mumax/engine/engineapi.go:57-59 | i + j modulo 2^64, exact when no overflow occurs |
| EngineApi.TestAnswers | src/pkg/mumax/engine/engineapi.go:20-53 | Version is 2, Echo returns its argument, GetFloat/GetDouble are 42, GetString is "hello", GetBool is true |
| EngineApi.SumCommutes | src/pkg/mumax/engine/engineapi.go:57-59 | Sum is commutative and 0 is its identity |
| EngineApi.SumOverflows | src/pkg/mumax/engine/engineapi.go:57-59 | MaxInt64 + 1 wraps to MinInt64 and MinInt64 − 1 to MaxInt64 |
| Strings.JoinSplit | src/pkg/mumax/client/io.go:47 | joining the split parts restores the line |
| Strings.SplitJoin | src/pkg/mumax/client/io.go:47 | splitting joined separator-free words gives back the words |
| Strings.SplitNoSep | src/pkg/mumax/client/io.go:47 | a line without the separator splits into itself |
| ClientIo.Chars | src/pkg/mumax/client/io.go:40 | each byte becomes one character, in order |
| ClientIo.NextChar | src/pkg/mumax/client/io.go:52-67 | each step consumes input; only end of input can consume nothing |
| ClientIo.NoDatas | src/pkg/mumax/client/io.go:57-64 | a run of k zero-byte reads |
| ClientIo.NextCharRetries | src/pkg/mumax/client/io.go:57-64 | zero-byte reads are retried; a read error, or running out of input, reports end of file |
| ClientIo.ReadLine | src/pkg/mumax/client/io.go:35-46 | a line read never contains the newline and consumes input |
| ClientIo.Continue | src/pkg/mumax/client/io.go:39-46 | the loop's continuation has the same properties |
| ClientIo.ParseLineSpec | src/pkg/mumax/client/io.go:32-49 | eof exactly when no words and exactly when no complete line; the words hold no space or newline and join with spaces into the line |
| ClientIo.SplitKeepsOut | src/pkg/mumax/client/io.go:47 | splitting never introduces a character absent from the line |
| ClientIo.ReadsCompleteLine | src/pkg/mumax/client/io.go:35-46 | bytes followed by a newline are read as exactly that line, and the input after it is left |
| ClientIo.DropsPartialLine | src/pkg/mumax/client/io.go:41-44 | a line cut off by end of input or a read error is dropped |
| ClientIo.ParsesCompleteLine | src/pkg/mumax/client/io.go:32-49 | a complete line is split at spaces into words |
| ClientIo.ParseDropsPartialLine | src/pkg/mumax/client/io.go:41-44 | a cut-off line yields no words and eof |
| ClientIo.Reader.constructor | src/pkg/mumax/client/io.go:52-56 | the reader holds the given read results |
| ClientIo.Reader.Read | src/pkg/mumax/client/io.go:58 | one read consumes one pending result and reports it |
| ClientIo.ReadChar | src/pkg/mumax/client/io.go:52-67 | the loop behaves as `NextChar` |
| ClientIo.ParseLine | src/pkg/mumax/client/io.go:32-49 | the loop behaves as `ParseLineSpec` |
| PythonGen.PyDocComment | src/mumax/apigen/python.go:179-188 | the loop builds `DocComment` |
| PythonGen.DocLinesSplit | src/mumax/apigen/python.go:184-186 | each comment line becomes one output line, in order |
| PythonGen.DocCommentLines | src/mumax/apigen/python.go:179-188 | a non-empty comment gives one "##"-marked line per input line, then a final newline |
| PythonGen.DocEndsLine | src/mumax/apigen/python.go:180-182 | the doc comment is empty exactly for no lines, and otherwise ends in a newline |
| PythonGen.OneLineDoc | src/mumax/apigen/python.go:179-188 | one line l gives "## " + l + newline |
| PythonGen.NoPercentInDoc | src/mumax/apigen/python.go:179-188 | comment lines without '%' give a doc comment without '%' |
| PythonGen.SpecLen | src/mumax/apigen/python.go:144 | the flags, width and precision of a Printf verb fit in the format |
| PythonGen.SpecLenInGoOrder | src/mumax/apigen/python.go:144 | the measured part is flags, then width digits, then at most one '.' that is not last followed by precision digits: no flag after a width digit, nothing but digits after the '.' |
| PythonGen.FlagAfterWidthIsVerb | src/mumax/apigen/python.go:144 | a flag after a width digit ("%5-d") is the verb, printed as "%!-(MISSING)" |
| PythonGen.SecondDotIsVerb | src/mumax/apigen/python.go:144 | a second '.' after a precision ("%1.2.d") is the verb, printed as "%!.(MISSING)" |
| PythonGen.TrailingDotIsVerb | src/mumax/apigen/python.go:144 | a '.' that ends the format after a width is the verb, printed as "%!.(MISSING)" |
| PythonGen.Printf0Plain | src/mumax/apigen/python.go:144 | a format with no '%' is printed verbatim |
| PythonGen.Printf0Prefix | src/mumax/apigen/python.go:144 | text before the first '%' is printed verbatim |
| PythonGen.Printf0NewlineVerb | src/mumax/apigen/python.go:144 | "%" followed by a newline prints "%!", the newline, then "(MISSING)" |
| PythonGen.PercentAtLineEnd | src/mumax/apigen/python.go:144 | a line ending in '%' has its newline taken as a verb |
| PythonGen.PercentSwallowsNewline | src/mumax/apigen/python.go:144-188 | a comment line ending in '%' prints with "(MISSING)" after its newline |
| PythonGen.ConvertTable | src/mumax/apigen/python.go:168-176 | int→int, float32/float64→float, string→str, bool→bool, any other type→"" |
| PythonGen.ReturnsJoin | src/mumax/apigen/python.go:158-163 | the return loop writes the conversions joined by ", " |
| PythonGen.ReturnsInOrder | src/mumax/apigen/python.go:162 | the i-th return is converted as convert(type)(ret[i]) |
| PythonGen.FourLines | src/mumax/apigen/python.go:143-164 | four newline-free lines, each followed by a newline, split back into those lines |
| PythonGen.StubLines | src/mumax/apigen/python.go:143-164 | the stub is a blank line, the doc and def line, the call line and the return line |
| PythonGen.StubShape | src/mumax/apigen/python.go:135-166 | with enough argument names, the stub is written in full and nothing panics; with too few, the text stops after "def name(" and the panic is recovered |
| PythonGen.ArgumentsReadBack | src/mumax/apigen/python.go:147-153 | the argument list splits back into the argument names |
| PythonGen.PlainCommentVerbatim | src/mumax/apigen/python.go:144 | when no comment line contains '%', the stub equals the one that writes the comment verbatim |
| PythonGen.BrokenHeader | src/mumax/apigen/python.go:143-154 | a doc that holds a newline puts the def line on its own line after it |
| PythonGen.PercentBreaksStub | src/mumax/apigen/python.go:144 | as written, a comment line ending in '%' prints as "## line%!" and the def line that follows begins with "(MISSING)" |
| PythonGen.OpensWithDoc | src/mumax/apigen/python.go:143-145 | the stub opens with a newline, the doc text and "def " |
| PythonGen.FixedStubKeepsComment | src/mumax/apigen/python.go:144 | writing the doc verbatim keeps every comment line, '%' included, and "def" starts its own line |
| PythonGen.WriteFooter | src/mumax/apigen/python.go:131-133 | the footer writes nothing |
| PythonGen.WriteReturns | src/mumax/apigen/python.go:158-163 | the loop writes `Returns` |
| PythonGen.JoinArgs | src/mumax/apigen/python.go:147-153 | builds the names joined by ", " exactly when there are enough names; otherwise reports the out-of-range panic |
| PythonGen.WriteFunc | src/mumax/apigen/python.go:135-166 | appends `FuncText` and reports whether a panic was recovered |
| JavaGen.WriteFooter | src/pkg/mumax/client/apigen_java.go:73-75 | writes "}" |
| JavaGen.ParseOnlyInt | src/pkg/mumax/client/apigen_java.go:112 | only "int" has a parse function (Integer.parseInt); other types give "" |
| JavaGen.ParamsJoin | src/pkg/mumax/client/apigen_java.go:87-94 | the parameter loop writes the parameter declarations joined by ", " |
| JavaGen.CallArgList | src/pkg/mumax/client/apigen_java.go:99-104 | the i-th call argument is `"" + arg(i+1)` |
| JavaGen.CallArgsJoin | src/pkg/mumax/client/apigen_java.go:99-104 | the call-argument loop writes them joined by ", " |
| JavaGen.ParamsInOrder | src/pkg/mumax/client/apigen_java.go:87-94 | the parameter list splits back into one declaration per argument, in order |
| JavaGen.FixedParamsOwnTypes | src/pkg/mumax/client/apigen_java.go:92 | with the argument's own type, parameter i is declared as its type followed by " arg(i+1)" |
| JavaGen.StubDeterminesParams | src/pkg/mumax/client/apigen_java.go:84-108 | the stub text determines the parameter list |
| JavaGen.ParamDeclaredWithReturnType | src/pkg/mumax/client/apigen_java.go:92 | as written, an int argument of a method returning string is declared "string arg1", unlike the corrected text |
| JavaGen.AllParamsUseReturnType | src/pkg/mumax/client/apigen_java.go:92 | as written, every parameter is declared with the return type |
| JavaGen.NilReturnWithArgsPanics | src/pkg/mumax/client/apigen_java.go:80-92 | a void method with arguments panics on the nil return type after writing the header |
| JavaGen.WriteCallArgs | src/pkg/mumax/client/apigen_java.go:99-104 | the loop writes `CallArgsUpTo` |
| JavaGen.WriteStubRest | src/pkg/mumax/client/apigen_java.go:95-108 | writes the rest of the stub after the parameters |
| JavaGen.WriteFunc | src/pkg/mumax/client/apigen_java.go:78-109 | appends `JavaText` and reports its outcome |

## Left out

- The micromag, micromagenergy and spintorque loaders that `Api.Load` dispatches to are not part of this model: only the dispatch is modelled.
- `Step`, `SetMask`/`SetField` with resampling, `GetField` and `SaveGraph` (src/pkg/mumax/engine/api.go) are not modelled: they need the GPU, floating-point resampling or the file system. `GetField` is also incomplete as written.
- Api.Api.GetValue: the `q.Update()` before reading is not modelled; the quantity's stored multiplier is returned.
- Api.Api.GetScalar: likewise without the update. `Quant.Scalar` is not part of this model: only its refusal of a non-scalar quantity is modelled, as a wrong-arity error.
- Engine.SetValueOp: the arity and verifier checks are those expected of `Quant.SetValue`, which is not part of this model; only the VALUE-or-MASK rule is stated in src/pkg/mumax/engine/api.go.
- The torque and anisotropy updaters read `Scalar()` of gamma and msat. `Quant.Scalar` is not part of this model, so both read the first multiplier component.
- `LoadT`, `LoadGes` and `LoadMagnetization` are not part of this model. Their quantities (Te, Ts, Tl, Ges, m) are required to exist already, which is part of the loaders' `Enabled`.
- Engine.AddParentOp: `SumUpdater` (its `AddParent` and `MAddParent`) is not part of this model. Any sum-to-parent dependency edge it may record, and any parent or component check it may make, is not modelled; the model records no edge and refuses a missing parent. The exact edge sets stated by `Zeeman.HExtFeedsH` and `HField.PostChangesOnlyHEff` rest on this.
- Engine.Engine.AddParent: carries the same gap as `Engine.AddParentOp`.
- Engine.Engine.Depends: the engine's own cycle check is not modelled. Each loader proves instead that it keeps the dependency graph acyclic.
- GPU kernels are not modelled. Their results are parameters (`TorqueKernel`, `HeatKernel`, `AnisKernel`) that depend only on the inputs passed to them. Floating point is `real`. Mu0 is a symbolic weight. Gamma0 is the constant 2.211e5.
- `mkFifo` (src/pkg/mumax/client/io.go) creates a named pipe through the operating system: left out.
- The Python and Java stub headers (`WriteHeader`, `writeHeader`) are constant text and are not modelled. Filename and comment are.
- AutoSaves.AutoSave.Notify: `Sprintf(e.filenameFormat, e.OutputID())` and `GetOutputFormat(a.format).Name()` are parameters (the number text and the format's extension). `e.Save`'s file I/O is reduced to the save request it receives.
- Zeeman.Init: `RegisterModule(&ModZeeman{})` passes one argument, unlike the two- and three-argument forms elsewhere. It is modelled as registering under `Name()` with `Description()`.
- Zeeman.Load: `e.LoadModule("hfield")` is modelled as a direct call of the pkg hfield loader. The module table lookup inside the engine is not part of this model.
- PythonGen.WriteFunc: the message written to standard error on a recovered panic is not modelled; only that a panic was recovered.
- PythonGen.Printf0: Printf with no operands is modelled for flags, width, precision and verbs. `*` widths and `[n]` argument indexes are not.
- EngineApi.Sum: Go's `int` is taken to be 64 bits wide. The source predates Go 1, and toolchains of that time made `int` 32 bits wide, so `Sum` may wrap at 2^31 rather than 2^63 there.
- ClientIo.ReadChar: the `Debug(err)` log call on a read error (src/pkg/mumax/client/io.go:60) is not modelled; only the end-of-input result is.
- EngineApi.EngineAPI.Sink: it discards its arguments and has nothing to state.
- UniaxialAnisotropy.FixedDepsCoverUpdater: the corrected dependencies still omit the `GetEngine().Quant("msat")` lookup of src/pkg/mumax/modules/mod_uniaxialanisotropy.go:56; only the quantities named in the updater struct are covered.
- UniaxialAnisotropy.AnisStepOutcome: the updater looks up "msat" while the loader depends on "MSat". The model keeps both spellings as written.

## Findings

| source | as written | input that shows it | evidently intended | confidence | as-written member | corrected member |
|---|---|---|---|---|---|---|
| src/pkg/mumax/modules/mod_uniaxialanisotropy.go:35-37 | H_anis is declared to depend on Ku1, Ku2, anisU and MSat, but its updater reads m, which is not among them | any engine where the loader succeeds: H_anis has no edge to m | m is listed in `Depends`, so every quantity the updater struct references is a dependency | not executed | UniaxialAnisotropy.UpdaterReadsUndeclaredM | UniaxialAnisotropy.FixedDepsCoverUpdater |
| src/mumax/apigen/python.go:144 | the doc comment is passed to `Fprintf` as the format string | a comment line "x%" produces "## x%!" then a newline, and the def line begins with "(MISSING)" | the comment is written verbatim | not executed | PythonGen.PercentBreaksStub | PythonGen.FixedStubKeepsComment |
| src/pkg/mumax/client/apigen_java.go:92 | each parameter is declared with the return type's name rather than its own type | argument types ["int"] with return type "string" give "string arg1" | each parameter is declared with its own type | not executed | JavaGen.ParamDeclaredWithReturnType | JavaGen.FixedParamsOwnTypes |
