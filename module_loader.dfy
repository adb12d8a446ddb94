/** The module registry: loads a fixed, ordered list of module names into
    handles, aborting on the first failure, and reloads a module that is
    already loaded. The import machinery is an injected `ImportSystem`. */
module Loader {
  import opened Wrappers

  /** What the import machinery does when asked for one module by name. */
  datatype Resolution<H> =
    | Imported(handle: H)         // returned a module object (possibly falsy)
    | ImportFailed(cause: string) // raised ImportError or one of its subclasses
    | Raised(cause: string)       // raised any other subclass of Exception

  /** What re-executing an already imported module does. */
  datatype ReloadResult =
    | Reloaded
    | ReloadRaised(cause: string) // raised a subclass of Exception

  /** The import machinery as the loader sees it at the time of one call:
      import by name, the truthiness of a returned object, and reload of an
      existing object in place. */
  datatype ImportSystem<!H> = ImportSystem(
    importModule: string -> Resolution<H>,
    isTruthy: H -> bool,
    reload: H -> ReloadResult)

  /** The loader's failure kinds. `ModuleLoadError` is the aggregate that
      every failure of a whole load is wrapped into; `UnexpectedError` is an
      exception the import machinery raised that is not an ImportError and so
      passes through the per-name handler unwrapped. */
  datatype LoaderError =
    | ModuleImportError(name: string, cause: string)
    | ModuleNotFoundError(name: string)
    | ModuleReloadError(name: string, cause: string)
    | ModuleLoadError(inner: LoaderError)
    | UnexpectedError(cause: string)

  /** The failures that one name of a batch load can produce. */
  predicate IsStepError(e: LoaderError) {
    e.ModuleImportError? || e.ModuleNotFoundError? || e.UnexpectedError?
  }

  /** The names a new loader is configured with, in load order. */
  const DefaultModulePaths: seq<string> := ["perception", "reasoning", "memory"]

  /** Imports one module by name; only an ImportError is translated into the
      loader's own import failure, carrying the name. */
  function ImportModule<H>(sys: ImportSystem<H>, name: string): (r: Result<H, LoaderError>)
    ensures r.Ok? <==> sys.importModule(name).Imported?
    ensures r.Ok? ==> sys.importModule(name) == Imported(r.value)
    ensures sys.importModule(name).ImportFailed? ==>
              r == Err(ModuleImportError(name, sys.importModule(name).cause))
    ensures sys.importModule(name).Raised? ==>
              r == Err(UnexpectedError(sys.importModule(name).cause))
    ensures r.Err? ==> r.error.ModuleImportError? || r.error.UnexpectedError?
  {
    match sys.importModule(name)
    case Imported(h) => Ok(h)
    case ImportFailed(c) => Err(ModuleImportError(name, c))
    case Raised(c) => Err(UnexpectedError(c))
  }

  /** One iteration of the batch load: import the name, then refuse a falsy
      module object. */
  function LoadStep<H>(sys: ImportSystem<H>, name: string): (r: Result<H, LoaderError>)
    ensures r.Ok? <==>
              sys.importModule(name).Imported? && sys.isTruthy(sys.importModule(name).handle)
    ensures r.Ok? ==> sys.importModule(name) == Imported(r.value)
    ensures r.Err? ==> IsStepError(r.error)
    ensures (r.Err? && r.error.ModuleNotFoundError?) <==>
              sys.importModule(name).Imported? && !sys.isTruthy(sys.importModule(name).handle)
    ensures (r.Err? && r.error.ModuleNotFoundError?) ==> r.error.name == name
    ensures sys.importModule(name).ImportFailed? ==>
              r == Err(ModuleImportError(name, sys.importModule(name).cause))
    ensures sys.importModule(name).Raised? ==>
              r == Err(UnexpectedError(sys.importModule(name).cause))
  {
    match ImportModule(sys, name)
    case Err(e) => Err(e)
    case Ok(h) => if sys.isTruthy(h) then Ok(h) else Err(ModuleNotFoundError(name))
  }

  /** No name occurs twice in `s`. */
  predicate Distinct(s: seq<string>) {
    forall i, j :: 0 <= i < j < |s| ==> s[i] != s[j]
  }

  /** `order` lists every key of `m` exactly once: the iteration order of
      the registry dictionary. */
  ghost predicate OrderMatches<H>(order: seq<string>, m: map<string, H>) {
    Distinct(order) && forall n :: n in order <==> n in m
  }

  /** The key order after storing under `name`: a new key goes to the end,
      a key already present keeps its position. */
  function InsertKey(order: seq<string>, name: string): (o: seq<string>)
    ensures forall n :: n in o <==> n in order || n == name
    ensures |order| <= |o| && o[..|order|] == order
    ensures name in order ==> o == order
    ensures Distinct(order) ==> Distinct(o)
  {
    if name in order then order else order + [name]
  }

  /** The registry contents after a batch load and what the call reported. */
  datatype LoadOutcome<H> = LoadOutcome(modules: map<string, H>, result: Result<map<string, H>, LoaderError>)

  /** Reference semantics of a batch load starting from the registry `m`:
      names are processed in order, each success is recorded before the next
      name is tried, and the first failure stops the batch. */
  function LoadAll<H>(m: map<string, H>, names: seq<string>, sys: ImportSystem<H>): LoadOutcome<H>
    decreases |names|
  {
    if names == [] then LoadOutcome(m, Ok(m))
    else
      match LoadStep(sys, names[0])
      case Ok(h) => LoadAll(m[names[0] := h], names[1..], sys)
      case Err(e) => LoadOutcome(m, Err(ModuleLoadError(e)))
  }

  /** The registry's key order after a batch load starting from `order`:
      each name that loads is stored in turn, up to the first failure. */
  function LoadOrder<H>(order: seq<string>, names: seq<string>, sys: ImportSystem<H>): seq<string>
    decreases |names|
  {
    if names == [] || LoadStep(sys, names[0]).Err? then order
    else LoadOrder(InsertKey(order, names[0]), names[1..], sys)
  }

  /** The index of the first name whose load step fails, or |names| if none does. */
  function FirstFailure<H>(sys: ImportSystem<H>, names: seq<string>): (k: nat)
    ensures k <= |names|
    ensures forall j :: 0 <= j < k ==> LoadStep(sys, names[j]).Ok?
    ensures k < |names| ==> LoadStep(sys, names[k]).Err?
    decreases |names|
  {
    if names == [] || LoadStep(sys, names[0]).Err? then 0
    else 1 + FirstFailure(sys, names[1..])
  }

  /** The registry `m` with every name of `names` bound to its loaded handle. */
  ghost function Bound<H>(m: map<string, H>, names: seq<string>, sys: ImportSystem<H>): map<string, H>
    requires forall j :: 0 <= j < |names| ==> LoadStep(sys, names[j]).Ok?
  {
    m + map n | n in names :: LoadStep(sys, n).value
  }

  lemma BoundCons<H>(m: map<string, H>, names: seq<string>, sys: ImportSystem<H>)
    requires names != []
    requires forall j :: 0 <= j < |names| ==> LoadStep(sys, names[j]).Ok?
    ensures Bound(m[names[0] := LoadStep(sys, names[0]).value], names[1..], sys) == Bound(m, names, sys)
  {
  }

  /** The batch load is characterized without recursion: it records exactly
      the names before the first failing one, and reports either the whole
      registry or the aggregate error wrapping that name's failure. */
  lemma {:induction false} LoadAllCharacterized<H>(m: map<string, H>, names: seq<string>, sys: ImportSystem<H>)
    ensures var k := FirstFailure(sys, names);
      LoadAll(m, names, sys) ==
        if k == |names| then LoadOutcome(Bound(m, names, sys), Ok(Bound(m, names, sys)))
        else LoadOutcome(Bound(m, names[..k], sys), Err(ModuleLoadError(LoadStep(sys, names[k]).error)))
    decreases |names|
  {
    if names == [] {
      assert Bound(m, names, sys) == m;
    } else if LoadStep(sys, names[0]).Err? {
      assert names[..0] == [];
      assert Bound(m, names[..0], sys) == m;
    } else {
      var h := LoadStep(sys, names[0]).value;
      var rest := names[1..];
      LoadAllCharacterized(m[names[0] := h], rest, sys);
      var k := FirstFailure(sys, rest);
      assert FirstFailure(sys, names) == k + 1;
      if k == |rest| {
        BoundCons(m, names, sys);
      } else {
        assert names[..k + 1][1..] == rest[..k];
        BoundCons(m, names[..k + 1], sys);
        assert rest[k] == names[k + 1];
      }
    }
  }

  /** When every name loads, the registry afterwards holds the earlier keys
      plus exactly the configured names, each bound to its imported, truthy
      handle, and the call returns the registry. */
  lemma LoadAllSucceeds<H>(m: map<string, H>, names: seq<string>, sys: ImportSystem<H>)
    requires forall j :: 0 <= j < |names| ==> LoadStep(sys, names[j]).Ok?
    ensures var o := LoadAll(m, names, sys);
      o.result == Ok(o.modules) &&
      o.modules.Keys == m.Keys + (set n | n in names) &&
      (forall n :: n in names ==>
         sys.importModule(n) == Imported(o.modules[n]) && sys.isTruthy(o.modules[n])) &&
      (forall n :: n in m && n !in names ==> o.modules[n] == m[n])
  {
    LoadAllCharacterized(m, names, sys);
    assert FirstFailure(sys, names) == |names|;
  }

  /** When name k is the first to fail, the registry afterwards holds exactly
      the earlier keys plus names 0..k-1, the call reports the aggregate error
      wrapping name k's failure, and name k is not recorded by this call. */
  lemma LoadAllFailsAt<H>(m: map<string, H>, names: seq<string>, sys: ImportSystem<H>, k: nat)
    requires k < |names|
    requires forall j :: 0 <= j < k ==> LoadStep(sys, names[j]).Ok?
    requires LoadStep(sys, names[k]).Err?
    ensures var o := LoadAll(m, names, sys);
      o.result == Err(ModuleLoadError(LoadStep(sys, names[k]).error)) &&
      o.modules.Keys == m.Keys + (set j | 0 <= j < k :: names[j]) &&
      (forall j :: 0 <= j < k ==> sys.importModule(names[j]) == Imported(o.modules[names[j]])) &&
      (forall n :: n in m && n !in names[..k] ==> o.modules[n] == m[n]) &&
      (names[k] in o.modules <==> names[k] in m || names[k] in names[..k])
  {
    LoadAllCharacterized(m, names, sys);
    var f := FirstFailure(sys, names);
    assert f == k;
    var prefix := names[..k];
    assert (set n | n in prefix) == (set j | 0 <= j < k :: names[j]) by {
      forall n | n in prefix ensures n in (set j | 0 <= j < k :: names[j]) {
        var j :| 0 <= j < |prefix| && prefix[j] == n;
      }
    }
    forall j | 0 <= j < k ensures sys.importModule(names[j]) == Imported(LoadAll(m, names, sys).modules[names[j]]) {
      assert names[j] in prefix;
    }
  }

  /** A failed batch load does not depend on anything past the failing name:
      two import systems that agree on names 0..k give the same outcome. */
  lemma {:induction false} LoadIgnoresLaterNames<H>(
    m: map<string, H>, names: seq<string>, sys1: ImportSystem<H>, sys2: ImportSystem<H>, k: nat)
    requires k < |names|
    requires forall j :: 0 <= j < k ==> LoadStep(sys1, names[j]).Ok?
    requires LoadStep(sys1, names[k]).Err?
    requires forall j :: 0 <= j <= k ==> LoadStep(sys1, names[j]) == LoadStep(sys2, names[j])
    ensures LoadAll(m, names, sys1) == LoadAll(m, names, sys2)
    decreases k
  {
    if k > 0 {
      var h := LoadStep(sys1, names[0]).value;
      assert LoadStep(sys2, names[0]) == Ok(h);
      var rest := names[1..];
      forall j | 0 <= j <= k - 1 ensures LoadStep(sys1, rest[j]) == LoadStep(sys2, rest[j]) {
        assert rest[j] == names[j + 1];
      }
      forall j | 0 <= j < k - 1 ensures LoadStep(sys1, rest[j]).Ok? {
        assert rest[j] == names[j + 1];
      }
      assert rest[k - 1] == names[k];
      LoadIgnoresLaterNames(m[names[0] := h], rest, sys1, sys2, k - 1);
    }
  }

  /** Every failure of a batch load surfaces as the single aggregate kind,
      wrapping one per-name failure; a success returns the registry itself.
      A batch load never removes a key and adds only configured names. */
  lemma LoadOutcomeShape<H>(m: map<string, H>, names: seq<string>, sys: ImportSystem<H>)
    ensures var o := LoadAll(m, names, sys);
      (o.result.Ok? ==> o.result.value == o.modules) &&
      (o.result.Err? ==> o.result.error.ModuleLoadError? && IsStepError(o.result.error.inner)) &&
      m.Keys <= o.modules.Keys <= m.Keys + (set n | n in names)
  {
    LoadAllCharacterized(m, names, sys);
    var k := FirstFailure(sys, names);
    if k < |names| {
      forall n | n in names[..k] ensures n in names {
        var j :| 0 <= j < k && names[..k][j] == n;
        assert names[j] == n;
      }
    }
  }

  /** A new loader whose three configured modules all load ends up holding
      exactly those three names. */
  lemma DefaultLoadRecordsThreeModules<H>(sys: ImportSystem<H>)
    requires forall n :: n in DefaultModulePaths ==> LoadStep(sys, n).Ok?
    ensures LoadAll(map[], DefaultModulePaths, sys).result.Ok?
    ensures LoadAll(map[], DefaultModulePaths, sys).modules.Keys == {"perception", "reasoning", "memory"}
  {
  }

  /** A batch load keeps the key order in step with the registry: afterwards
      it lists exactly the registry's keys, each once, and the keys present
      before keep their positions at the front. */
  lemma {:induction false} LoadOrderMatchesKeys<H>(
    m: map<string, H>, order: seq<string>, names: seq<string>, sys: ImportSystem<H>)
    requires OrderMatches(order, m)
    ensures OrderMatches(LoadOrder(order, names, sys), LoadAll(m, names, sys).modules)
    ensures |order| <= |LoadOrder(order, names, sys)| && LoadOrder(order, names, sys)[..|order|] == order
    decreases |names|
  {
    if names != [] && LoadStep(sys, names[0]).Ok? {
      var h := LoadStep(sys, names[0]).value;
      var o := InsertKey(order, names[0]);
      LoadOrderMatchesKeys(m[names[0] := h], o, names[1..], sys);
      var r := LoadOrder(o, names[1..], sys);
      assert r[..|order|] == r[..|o|][..|order|];
    }
  }

  /** When every name loads, none was a key before and no name repeats, the
      new keys follow the configured names in order. */
  lemma {:induction false} LoadOrderAppendsNames<H>(order: seq<string>, names: seq<string>, sys: ImportSystem<H>)
    requires forall j :: 0 <= j < |names| ==> LoadStep(sys, names[j]).Ok?
    requires Distinct(names) && forall j :: 0 <= j < |names| ==> names[j] !in order
    ensures LoadOrder(order, names, sys) == order + names
    decreases |names|
  {
    if names != [] {
      assert LoadStep(sys, names[0]).Ok? && names[0] !in order;
      var next := order + [names[0]];
      var rest := names[1..];
      assert LoadOrder(order, names, sys) == LoadOrder(next, rest, sys);
      forall j | 0 <= j < |rest| ensures LoadStep(sys, rest[j]).Ok? && rest[j] !in next {
        assert rest[j] == names[j + 1];
      }
      assert Distinct(rest) by {
        forall i, j | 0 <= i < j < |rest| ensures rest[i] != rest[j] {
          assert rest[i] == names[i + 1] && rest[j] == names[j + 1];
        }
      }
      LoadOrderAppendsNames(next, rest, sys);
      assert next + rest == order + names;
    }
  }

  /** A new loader whose three configured modules all load lists them in
      the configured order. */
  lemma DefaultLoadOrder<H>(sys: ImportSystem<H>)
    requires forall n :: n in DefaultModulePaths ==> LoadStep(sys, n).Ok?
    ensures LoadOrder([], DefaultModulePaths, sys) == ["perception", "reasoning", "memory"]
  {
    LoadOrderAppendsNames([], DefaultModulePaths, sys);
  }

  /** The registry object: the loaded modules by name, the order in which
      their names were first stored (the dictionary's iteration order), and
      the ordered names to load. */
  class ModuleLoader<H> {
    var modules: map<string, H>
    var keyOrder: seq<string>
    var modulePaths: seq<string>

    /** The key order lists exactly the loaded names, each once. */
    ghost predicate Valid()
      reads this
    {
      OrderMatches(keyOrder, modules)
    }

    /** A new loader has nothing loaded and the three default names configured. */
    constructor()
      ensures modules == map[] && keyOrder == []
      ensures modulePaths == DefaultModulePaths
      ensures Valid()
    {
      modules := map[];
      keyOrder := [];
      modulePaths := DefaultModulePaths;
    }

    /** Loads every configured name in order, recording each module as it
        loads; stops at the first failure, which is reported as the
        aggregate load error while the entries already recorded stay. A name
        stored for the first time joins the end of the key order. */
    method LoadModules(sys: ImportSystem<H>) returns (r: Result<map<string, H>, LoaderError>)
      requires Valid()
      modifies this`modules, this`keyOrder
      ensures LoadOutcome(modules, r) == LoadAll(old(modules), modulePaths, sys)
      ensures keyOrder == LoadOrder(old(keyOrder), modulePaths, sys)
      ensures Valid()
    {
      LoadOrderMatchesKeys(modules, keyOrder, modulePaths, sys);
      var i := 0;
      while i < |modulePaths|
        invariant 0 <= i <= |modulePaths|
        invariant LoadAll(modules, modulePaths[i..], sys) == LoadAll(old(modules), modulePaths, sys)
        invariant LoadOrder(keyOrder, modulePaths[i..], sys) == LoadOrder(old(keyOrder), modulePaths, sys)
      {
        var path := modulePaths[i];
        assert modulePaths[i..][0] == path && modulePaths[i..][1..] == modulePaths[i + 1..];
        var imported := ImportModule(sys, path);
        if imported.Err? {
          return Err(ModuleLoadError(imported.error));
        }
        var handle := imported.value;
        if sys.isTruthy(handle) {
          if path !in keyOrder {
            keyOrder := keyOrder + [path];
          }
          modules := modules[path := handle];
        } else {
          return Err(ModuleLoadError(ModuleNotFoundError(path)));
        }
        i := i + 1;
      }
      r := Ok(modules);
    }

    /** Reloads an already loaded module in place. A name that is not loaded
        is refused with the not-found kind; any exception from the reload is
        reported as the reload kind. The registry map is never written (no
        modifies clause), so no key is added or removed on any path. */
    method ReloadModule(name: string, sys: ImportSystem<H>) returns (r: Result<(), LoaderError>)
      ensures r.Err? && r.error.ModuleNotFoundError? <==> name !in modules
      ensures name !in modules ==> r == Err(ModuleNotFoundError(name))
      ensures name in modules ==> (r.Ok? <==> sys.reload(modules[name]).Reloaded?)
      ensures name in modules && r.Err? ==>
                r == Err(ModuleReloadError(name, sys.reload(modules[name]).cause))
    {
      if name !in modules {
        return Err(ModuleNotFoundError(name));
      }
      match sys.reload(modules[name])
      case Reloaded => r := Ok(());
      case ReloadRaised(cause) => r := Err(ModuleReloadError(name, cause));
    }
  }
}
