/** The process-wide table of physics modules, keyed by name (module.go).
    Each module file registers itself once, at start-up. */
module Registry {
  import opened Wrappers

  /** The loader a registered module runs; one per loader of this model. */
  datatype Loader =
    | ZeemanLoader
    | HFieldLoader        // the unguarded LoadHField of the older module package
    | LlgLoader
    | ThreeTLoader
    | AnisUniaxialLoader

  datatype ModuleEntry = ModuleEntry(description: string, loader: Loader)

  /** The input error raised on a duplicate name. The message has no space
      between the name and "already". */
  function AlreadyRegistered(name: string): Error
  {
    InputErr("module " + name + "already registered")
  }

  /** The registry after registering `entry` under `name`, with the outcome. */
  function Register(modules: map<string, ModuleEntry>, name: string, entry: ModuleEntry)
    : (res: (Outcome, map<string, ModuleEntry>))
    ensures name in modules ==> res.0 == Fail(AlreadyRegistered(name)) && res.1 == modules
    ensures name !in modules ==> res.0 == Pass && name in res.1 && res.1[name] == entry
    ensures res.1.Keys == modules.Keys + {name}
    ensures forall n :: n in modules && n != name ==> res.1[n] == modules[n]
  {
    if name in modules then (Fail(AlreadyRegistered(name)), modules)
    else (Pass, modules[name := entry])
  }

  /** Registering the same name twice fails the second time and keeps the first entry. */
  lemma RegisterTwice(modules: map<string, ModuleEntry>, name: string, first: ModuleEntry, second: ModuleEntry)
    requires name !in modules
    ensures var (r1, m1) := Register(modules, name, first);
            var (r2, m2) := Register(m1, name, second);
            r1 == Pass && r2 == Fail(AlreadyRegistered(name)) && m2 == m1 && m2[name] == first
  {
  }

  /** Registering two different names gives the same table in either order. */
  lemma RegisterCommutes(modules: map<string, ModuleEntry>, a: string, ea: ModuleEntry, b: string, eb: ModuleEntry)
    requires a != b
    ensures Register(Register(modules, a, ea).1, b, eb).1 == Register(Register(modules, b, eb).1, a, ea).1
  {
    var ab := Register(Register(modules, a, ea).1, b, eb).1;
    var ba := Register(Register(modules, b, eb).1, a, ea).1;
    assert ab.Keys == ba.Keys;
    forall n | n in ab ensures ab[n] == ba[n] {
      if n != a && n != b {
        assert ab[n] == modules[n] == ba[n];
      }
    }
  }

  class ModuleRegistry {
    var modules: map<string, ModuleEntry>

    /** The table starts empty. */
    constructor ()
      ensures modules == map[]
    {
      modules := map[];
    }

    /** RegisterModule: adds `name`, or fails with an input error before
        touching the table if the name is taken. */
    method RegisterModule(name: string, entry: ModuleEntry) returns (r: Outcome)
      modifies this
      ensures (r, modules) == Register(old(modules), name, entry)
    {
      if name in modules {
        return Fail(AlreadyRegistered(name));
      }
      modules := modules[name := entry];
      r := Pass;
    }
  }
}
