# terraform-provider-azurerm-lro, modelled in Dafny

The tool is a lint pass over a Go package that uses the Azure SDKs. It finds calls that start
a long-running operation (create, update, delete) without waiting for it to finish. It has two
rules, and this project models and proves both of them.

- **Track 1** (`trackOneSDKScan`, go-autorest clients). `ast.Inspect` walks every file with a
  callback. The callback reports an assignment `_, err := x.Method(...)` when `Method`'s first
  result is a named struct whose first field is `azure.FutureAPI`. Binding that result to `_`
  discards the only handle that can wait for the operation. On a hit the callback stops
  descending into the assignment.
- **Pandora** (`pandoraSDKScan`, hashicorp/go-azure-sdk clients). The rule works in four steps:
  1. It collects the package's uses of CRUD-named, non-polling functions and methods, with
     their positions, grouped by object.
  2. It builds an inventory from the imported generated clients. Exported plain CRUD
     definitions go into a sync map (object to name). Exported `...ThenPoll` methods go into an
     async set under the key `receiver + "." + name`.
  3. If any generated-client import is missing or was not type-checked, it gives up.
  4. It reports every position of a used plain method whose `receiver.nameThenPoll` key is in
     the async set.

The inputs that `go/packages` and `go/types` produce are written as plain datatypes in
`go_types.dfy`. These are identifiers, expressions, types, objects, the `Uses`/`Defs` tables and
packages with their imports. Resolution is not modelled; its answers are data.

The model is split into these files:

- `go_strings.dfy` holds `strings.Contains`, `strings.TrimPrefix`, the relative-position
  formatting and an ASCII `unicode.IsLower`, plus lemmas about substrings and dot-joined keys.
- `multisets.dfy` holds the sum of multisets over a finite set. Go's map iteration order is
  unspecified, so the Pandora reports are stated as a multiset.
- `track_one.dfy` holds the callback in two forms:
  - `VisitAsWritten`, guard by guard as written, including the inputs on which it panics;
  - `Visit`, the corrected form, which the rest of the model uses.

  It also holds `ast.Inspect`'s pruning walk and the scan method.
- `pandora.dfy` holds the specification of what Pandora reports (`PandoraReports`), and the
  scan as methods with loops over maps and sets. Each method is proved against that
  specification.
- `pandora_properties.dfy` holds what the reports mean in terms of the inputs, and a worked
  case with `Create` and `CreateThenPoll`.

`main.go` has no method-inventory cache, no secondary package load, no false-positive labels and
no ordering of findings, so the model has none either.

## Model

| member | source | states |
|---|---|---|
| GoStrings.TrimPrefix | main.go:97 | the result is `s` with `prefix` removed when `s` starts with it, and `s` unchanged otherwise |
| GoStrings.RelativePosition | main.go:127 | a position under `root + separator` loses exactly that prefix; any other position is reported unchanged |
| GoStrings.DotJoinInjective | main.go:176 | two keys `receiver + "." + name`, with no dot in either name, are equal only when both receivers and both names are equal |
| TrackOne.VisitAsWritten | main.go:41-99 | the callback as written panics exactly on `PanicsAsWritten`; otherwise it stops descending exactly when the assignment discards a future wrapper, it reports exactly when it stops, and the report is the relative position of the assignment |
| TrackOne.Visit | main.go:41-99 | the guard chain with the `At(0)`, `Field(0)` and `Pkg().Path()` steps guarded: it never panics, and it stops descending exactly when the assignment discards a future wrapper (2 targets and 1 value, first target `_`, a call through a selector resolved to a signature whose first result is a named struct whose first field is `FutureAPI` of `github.com/Azure/go-autorest/autorest/azure`); it reports exactly when it stops, at the assignment's relative position |
| TrackOne.AsWrittenAgrees | main.go:41-99 | wherever the callback as written returns, it returns what the corrected callback returns |
| TrackOne.InspectSoundComplete | main.go:40-100 | `ast.Inspect` over one tree reports only relative positions of future-discarding assignments in that tree, and reports nothing exactly when the tree holds none, despite not descending below a hit |
| TrackOne.InspectAllSoundComplete | main.go:39-100 | the same for the files of a package, inspected in order |
| TrackOne.InspectReportsEveryHit | main.go:40-100 | every future-discarding assignment the walk reaches, that is, one with no hit above it, is reported at its relative position: the walk reports every such hit, not only the first |
| TrackOne.InspectAllReportsEveryHit | main.go:39-100 | the same for the files of a package |
| TrackOne.TrackOneSDKScan | main.go:38-102 | the scan's reports are the per-file inspections concatenated in file order; each is a future-discarding assignment of the package; every future-discarding assignment with no hit above it is reported; and there are none exactly when the package has none |
| TrackOne.BlankFutureDiscardReported | main.go:46-99 | `_, err := c.Op()` with `Op` returning a future wrapper is reported as `main.go:9:2` relative to `/src/app`, and the walk does not descend |
| TrackOne.NamedTargetNotReported | main.go:55-57 | the same call assigned to `future, err` is not reported |
| TrackOne.ResponseFirstFieldNotReported | main.go:88-95 | a struct whose second field is a FutureAPI but whose first field is not is never a hit |
| TrackOne.UnresolvedNotReported | main.go:68-70 | without type information nothing is reported |
| TrackOne.EmptyStructPanicsAsWritten | main.go:84-88 | a first result that is a named struct with no fields makes the callback as written panic at `Field(0)`; the corrected callback continues |
| Pandora.CrudFilterRedundant | main.go:109-112 | the `CreateOrUpdate` test of the name filter adds nothing: the filter is "contains Create, Update or Delete" |
| Pandora.FirstRuneIsLower | main.go:157-169 | the one-iteration loop over the runes sets `isPrivateMethod` exactly when the name is non-empty and its first rune is lower-case |
| Pandora.CollectedObjectsNonEmpty | main.go:108-128 | an object is a key of the uses map exactly when at least one collected use contributes a position to it |
| Pandora.GroupsUsesStep | main.go:108-128 | appending one collected use's position to its object's list, or skipping a filtered-out use, keeps every list equal, as a multiset, to the positions of the uses seen so far |
| Pandora.CollectUses | main.go:105-128 | the uses map's keys are exactly the objects of uses whose name contains Create, Update or Delete, does not contain ThenPoll, and that denote a function or method; each object's list holds exactly the relative positions of those uses, counted with multiplicity |
| Pandora.SdkImportPaths | main.go:130-137 | the list holds exactly the import paths containing `github.com/hashicorp/go-azure-sdk/resource-manager/` |
| Pandora.AddSdkDefs | main.go:151-180 | one client's Defs add to the sync map exactly its exported CRUD definitions without ThenPoll, each mapped to its own name, and add to the async set exactly the `receiver.name` keys of its exported CRUD ThenPoll methods |
| Pandora.BuildInventory | main.go:143-181 | the inventory is built exactly when every generated-client import is present and type-checked, and then holds the sync definitions and async keys of all of them |
| Pandora.HitIsReported | main.go:186-200 | against the complete inventory, the loop's test (in the sync map, has a receiver, `recv.nameThenPoll` in the async set) is exactly `Reported` |
| Pandora.CrossReferenceStep | main.go:186-204 | emitting all positions of one more object when its test passes keeps the reports equal to the sum over the objects seen |
| Pandora.CrossReference | main.go:183-205 | the reports, as a multiset, are all positions of every collected object that is reported |
| Pandora.PandoraSDKScan | main.go:104-205 | the reports, as a multiset, are exactly `PandoraReports`; they are empty when no import is a generated client, and empty when any generated-client import is missing or untyped |
| PandoraProperties.PandoraReportsSound | main.go:104-205 | every reported position is that of a collected use of a reported object, and is reported only if the generated clients are imported and all loaded |
| PandoraProperties.PandoraReportsComplete | main.go:183-204 | when the generated clients are imported and loaded, every collected use of a reported object is reported at its position |
| PandoraProperties.PandoraReportsIff | main.go:104-205 | both directions together: a position is reported exactly when the clients are imported and loaded and a collected use of a reported object sits there |
| PandoraProperties.AsyncUseNeverReported | main.go:116-119 | a position at which only ThenPoll names are used is never reported |
| PandoraProperties.SdkSyncMember | main.go:151-180 | every object in the sync map is an exported CRUD definition without ThenPoll, and some identifier of a generated client's Defs with that object's name defines it |
| PandoraProperties.SdkAsyncMember | main.go:175-177 | every async key is `receiver.name` of an exported CRUD ThenPoll method of a generated client |
| PandoraProperties.ReportedHasAsyncPartner | main.go:186-200 | a reported object is an exported plain CRUD method, and a generated client defines a method named `<its name>ThenPoll` whose receiver prints the same |
| PandoraProperties.PrivateMethodNeverReported | main.go:157-171 | a method whose name starts with a lower-case letter is never reported |
| PandoraProperties.CreateReportedThenPollNot | main.go:104-205 | with a generated client defining `Create` and `CreateThenPoll` on one receiver, the call of `Create` is reported at `vm.go:12:20` once and the call of `CreateThenPoll` is not |

## Left out

- `main` (main.go:14-36) is left out. Reading the working directory, `packages.Load`, `PrintErrors` and the exit status are I/O.
- `go/types` and `go/ast` resolution (`Uses`, `Defs`, `Underlying()`, `Type().String()`) are not modelled. Their results are inputs.
  - Receiver strings are modelled for named receivers (`*path.Name` or `path.Name`).
  - Generic receivers (`T[P]`) are not modelled.
- `fmt.Println`/`Printf` are not modelled. A report is the relative position string, without the "Track 1 Hit: " and "Pandora Hit: " prefixes.
- `pkg.Fset.Position(...).String()` is not modelled. Positions are given as strings.
- The `ast.Inspect` machinery beyond the callback's return value is not modelled. The call of the callback with `nil` after a node's children does nothing and is not modelled.
- IsLower: `unicode.IsLower` is modelled on ASCII only. Non-ASCII lower-case letters (`é`, Greek, Cyrillic) count as exported here. Go identifiers in the generated clients are ASCII.
- Pandora.PandoraSDKScan: the order of the reports is not modelled. It follows Go's map iteration and is unspecified, so the contract states the reports as a multiset. The order of positions within one object is not stated either.
- Pandora.PandoraSDKScan: the scan requires that every Defs table of a generated client maps an identifier to an object of that identifier's name. The type checker guarantees this.
- Pandora.PandoraSDKScan: the scan requires that every exported CRUD ThenPoll definition is a method. Line 176's type assertion and `Recv()` would otherwise panic. The panic is not modelled.
- Pandora.PandoraSDKScan: the scan requires that the package itself has type information. The source dereferences `pkg.TypesInfo.Uses` without a check.
- PandoraProperties.ReportedHasAsyncPartner: the lemma assumes that Go identifiers in the clients' Defs contain no dot.
- TrackOne.Visit: the callback as written can also panic in two other cases. One is a resolved callee with no results (`Results().At(0)`). The other is a first field named `FutureAPI` with no package (`Pkg().Path()`). Neither occurs in type-checked code, because `_, err := f()` needs two results and only predeclared types have no package. `VisitAsWritten` models both.

## Findings

| source | as written | input that shows it | evidently intended | confidence | as-written member | corrected member |
|---|---|---|---|---|---|---|
| main.go:84-88 | `ures.Field(0)` is taken after checking only that the underlying type is a struct | `_, err := c.Delete(...)` where `Delete` returns `(DeleteResult, error)` and `type DeleteResult struct{}`: `Field(0)` indexes an empty field list and the scan panics | a struct with no fields is not a future wrapper; the callback returns true and the walk continues | not executed | TrackOne.EmptyStructPanicsAsWritten | TrackOne.Visit |
