# Module loader and synergy optimizer, modelled in Dafny

This project models the two components of the autonomous cross-domain synergy
engine that carry its logic:

- **`ModuleLoader`** (`module_loader.dfy`, module `Loader`): a registry that
  loads a fixed, ordered list of module names (`perception`, `reasoning`,
  `memory`) into handles, recording each one in its `modules` map as it loads
  and stopping at the first failure, and that reloads an already loaded module
  in place. It is a class with a `modules: map<string, H>` field, a
  `keyOrder: seq<string>` field holding the registry dictionary's iteration
  order (a name stored for the first time goes to the end, a name stored
  again keeps its place), and methods that return a `Result`.
- **`SynergyOptimizer`** (`synergy_optimizer.dfy`, module `Synergy`): scores
  every ordered pair of loaded module names with
  `|1 - ((len a + len b) mod 3)|` and maps each module to the first partner
  with the strictly highest score, starting from a -1 sentinel. Ties go to
  the first partner in the registry's iteration order. It is a class over
  that key sequence (`keyOrder`) whose `FindSynergies` method runs the
  nested scan with loop invariants and is proved equal to a functional
  specification (`Synergies`), which lemmas relate to an independent
  first-maximal definition (`IsBestPartner`).

`wrappers.dfy` holds the `Result` datatype used in place of exceptions.

The import machinery is injected as an `ImportSystem<H>` value: importing a
name returns a handle, raises an ImportError, or raises something else; a
handle may be truthy or falsy; reloading a handle succeeds or raises. Each
exception class of the source is a constructor of `LoaderError` or
`SynergyError`, and wrapping (`raise X from e`) is a constructor holding the
inner failure.

The optimizer evaluates a connection expression held in its `formula` field.
The ordinary constructor installs the source's expression (`SourceFormula`),
which never raises; the `WithFormula` constructor accepts any other expression,
so the path on which an evaluation fails and the whole analysis fails with
`SynergyAnalysisError` is part of the model. The dictionary the optimizer
receives is modelled by its keys in insertion order, the order in which the
source iterates it; its values are never read.

The two components meet where the optimizer is built from the loader's
registry: `Synergy.DefaultRegistrySynergies` takes the key order a new
loader ends with once its three default modules load, and derives the
system's synergy map from it.

The nested loop of `find_synergies` is split in two: `ScanPartners` is the
inner loop for one module and `FindSynergies` the outer loop.

Behaviour of the code that the model keeps:

- A failed batch load is not all-or-nothing: every entry stored before the
  failing name stays in the registry (`LoadAllFailsAt`).
- `reload_module` never writes `self.modules`; it only reloads the stored
  object in place. In the model `ReloadModule` has no `modifies` clause, so
  the map is unchanged on every path, success or failure.
- `_import_module` catches only ImportError. Any other subclass of
  `Exception` raised by the import passes through it unwrapped
  (`UnexpectedError`) and is then wrapped into the aggregate load error like
  the others.
- The aggregate kind `ModuleLoadError` is raised but never defined in
  `module_loader.py`; the model gives it the intended meaning, an aggregate
  wrapping the per-name failure.

## Model

| member | source | states |
|---|---|---|
| Loader.ModuleLoader.constructor | module_loader.py:20-22 | a new loader has an empty `modules` map with an empty key order, and the configured names are exactly `["perception", "reasoning", "memory"]` |
| Loader.InsertKey | module_loader.py:57 | storing under a name leaves exactly the old keys plus that name, keeps every existing key in its position, changes nothing when the name is already a key, and never duplicates a key |
| Loader.ImportModule | module_loader.py:24-40 | an import that returns a handle yields it unchanged; an ImportError becomes `ModuleImportError` carrying the name and cause; any other raise passes through unwrapped as `UnexpectedError` with its cause |
| Loader.LoadStep | module_loader.py:55-60 | one name loads exactly when the import returns a truthy handle; a falsy handle is the not-found failure for that name, distinct from an import failure; an ImportError is `ModuleImportError` for that name and any other raise `UnexpectedError`, each with its cause |
| Loader.FirstFailure | module_loader.py:53-60 | the index of the first name that fails to load: every earlier name loads and that one does not |
| Loader.ModuleLoader.LoadModules | module_loader.py:42-64 | the loop leaves the registry and result that the reference batch load `LoadAll` gives from the old registry and the configured names, and the key order that `LoadOrder` gives; the key order still lists exactly the registry's keys, each once |
| Loader.LoadOrderMatchesKeys | module_loader.py:53-64 | after any batch load, success or failure, the key order lists exactly the registry's keys, each once, and the keys present before keep their positions at the front |
| Loader.LoadOrderAppendsNames | module_loader.py:53-61 | when every name loads, none was a key before and none repeats, the key order afterwards is the old order followed by the configured names in load order |
| Loader.DefaultLoadOrder | module_loader.py:53-61 | a new loader whose three modules load iterates them as `perception`, `reasoning`, `memory` |
| Loader.LoadAllCharacterized | module_loader.py:53-64 | a batch load records exactly the names before the first failing one, bound to their handles, and returns either the registry or the aggregate error wrapping that name's failure |
| Loader.LoadAllSucceeds | module_loader.py:53-61 | when every name loads, the keys afterwards are the earlier keys plus exactly the configured names, each bound to its imported truthy handle, other entries untouched, and the call returns the registry |
| Loader.LoadAllFailsAt | module_loader.py:53-64 | when name k is the first to fail, the registry keeps the earlier keys plus names 0..k-1, the call reports the aggregate error wrapping name k's failure, and name k is present only if it already was |
| Loader.LoadIgnoresLaterNames | module_loader.py:53-60 | the outcome of a failed load depends on nothing past the failing name, so no later name is attempted |
| Loader.LoadOutcomeShape | module_loader.py:61-64 | every failure surfaces as the single aggregate kind wrapping a per-name failure, a success returns the registry itself, and a load never removes a key and adds only configured names |
| Loader.DefaultLoadRecordsThreeModules | module_loader.py:53-61 | a new loader whose three configured modules load ends up holding exactly `perception`, `reasoning` and `memory` |
| Loader.ModuleLoader.ReloadModule | module_loader.py:66-83 | a name that is not loaded fails with not-found; otherwise the call succeeds exactly when the reload succeeds and otherwise fails with `ModuleReloadError` for that name; the registry is never written |
| Synergy.ConnectionScore | synergy_optimizer.py:38 | the score of two names is 0 or 1, and it is 0 exactly when the sum of their lengths is 1 modulo 3 |
| Synergy.ConnectionScoreByLengths | synergy_optimizer.py:38 | the score depends only on the two lengths and is symmetric |
| Synergy.ConnectionScoreExamples | synergy_optimizer.py:38 | ("ab", "cd") scores 0 and ("a", "bb") scores 1 |
| Synergy.SynergyOptimizer.constructor | synergy_optimizer.py:19-20 | a new optimizer holds the given module names and evaluates the source's connection expression |
| Synergy.SynergyOptimizer.EvaluateConnection | synergy_optimizer.py:22-41 | a pair evaluates to its score or fails with `ModuleConnectionError` carrying the cause; with the source's expression it always succeeds with a score in {0, 1} |
| Synergy.BestIndex | synergy_optimizer.py:56-63 | the partner the scan keeps is either none or an index of another module than the one scanned for |
| Synergy.Synergies | synergy_optimizer.py:54-66 | every key and every value of the synergy map is a module name, no module is mapped to itself, and no value is the empty name |
| Synergy.SynergyOptimizer.ScanPartners | synergy_optimizer.py:56-63 | the inner scan succeeds exactly when every candidate pair evaluates, then returns the kept partner (or ""), and otherwise fails with the first raised candidate's connection error |
| Synergy.SynergyOptimizer.FindSynergies | synergy_optimizer.py:43-69 | the analysis succeeds exactly when every pair of different names evaluates, then returns the synergy map `Synergies`, and otherwise fails with `SynergyAnalysisError` wrapping the first raised pair in scan order |
| Synergy.BestBelowUnique | synergy_optimizer.py:61-63 | the first-maximal partner is unique |
| Synergy.BestIndexIsFirstMaximal | synergy_optimizer.py:56-63 | the kept partner is not the module itself, beats the -1 sentinel, scores at least as high as every other candidate and strictly higher than every earlier one; when none is kept no candidate beats the sentinel |
| Synergy.SynergiesAreFirstMaximal | synergy_optimizer.py:54-66 | a module is a key exactly when it has a first-maximal partner with a non-empty name, and is then mapped to that partner |
| Synergy.EveryModuleHasPartner | synergy_optimizer.py:56-65 | a module with another module beside it, all of whose scores are at least 0 and all names non-empty, is a key |
| Synergy.SourceFormulaPartnersEveryModule | synergy_optimizer.py:53-66 | with the source's expression and at least two distinct non-empty names, every pair evaluates and the keys are exactly the module names |
| Synergy.SynergiesEqual | synergy_optimizer.py:54-66 | any map that holds exactly the module names whose kept partner is non-empty, each bound to that partner, is the synergy map |
| Synergy.FewModulesNoSynergies | synergy_optimizer.py:55-65 | with zero or one module the synergy map is empty |
| Synergy.ThreeModulePartners | synergy_optimizer.py:56-63 | among "x", "yy", "zzz" the kept partners are "yy", "x" and "yy" |
| Synergy.ThreeModuleExample | synergy_optimizer.py:53-66 | the synergy map of "x", "yy", "zzz" is x to yy, yy to x, zzz to yy; "yy" ties and keeps the first maximal partner |
| Synergy.DefaultModulePartners | synergy_optimizer.py:56-63 | in the order perception, reasoning, memory the kept partners are reasoning, memory and reasoning |
| Synergy.DefaultModuleSynergies | synergy_optimizer.py:53-66 | the synergy map of the three default names in load order is perception to reasoning, reasoning to memory, memory to reasoning |
| Synergy.DefaultRegistrySynergies | synergy_optimizer.py:53-66 | an optimizer over the registry of a new loader whose three modules load, in the registry's key order, finds perception to reasoning, reasoning to memory and memory to reasoning |
| Synergy.RegistryOrderDecidesTies | synergy_optimizer.py:55-63 | with the same three names listed as perception, memory, reasoning, perception's kept partner is memory: the iteration order decides ties |

## Left out

- The real `importlib.import_module` and `importlib.reload` are foreign runtime calls; they are the injected `ImportSystem` operations, and what a reload does to the module object itself is not modelled (the handle is opaque).
- All logging calls are a side channel with no functional effect and are not modelled.
- The `__main__` example block is an entry point only.
- `optimize_connections`, `report_status` and everything past line 76 of `synergy_optimizer.py` are not part of this model: the file ends there.
- The exception messages are not modelled; each failure carries the module name and the inner cause where the source passes them on.
- Aliasing is not modelled: `load_modules` returns the very dictionary it keeps, and the optimizer keeps a reference to the caller's dictionary; the model returns and stores values.
- The `float` return annotation of `_evaluate_connection` is not modelled; the computed values are integers.
- LoadOutcomeShape, ReloadModule, FindSynergies: the `Raised`, `ReloadRaised` and `Evaluation.Raised` outcomes stand only for subclasses of `Exception`. An exception that derives only from `BaseException` (`SystemExit` from a module calling `sys.exit()` while it is imported, `KeyboardInterrupt`) escapes the `except Exception` handlers of `load_modules`, `reload_module`, `_evaluate_connection` and `find_synergies` unwrapped, with the entries already stored kept. The model has no such outcome, so "every failure is the aggregate kind" is promised only for `Exception` subclasses.
- The shadowing of Python's builtin `ModuleNotFoundError`, and the `NameError` that the undefined `ModuleLoadError` would raise, are not modelled; the intended error kinds are constructors.
