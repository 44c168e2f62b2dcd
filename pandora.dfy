/** The Pandora rule, for clients generated into hashicorp/go-azure-sdk: every such client has a
    plain method (`CreateOrUpdate`) and, when the operation is long-running, a sibling with the
    suffix `ThenPoll` that also waits for it. A call of the plain method on a receiver type that
    also has the `ThenPoll` sibling is reported. */
module Pandora {

  import opened GoTypes
  import opened GoStrings
  import opened Multisets

  /** Import paths of the generated clients contain this. */
  const SdkPathMarker: string := "github.com/hashicorp/go-azure-sdk/resource-manager/"

  /** The suffix of the method that polls until the operation has finished. */
  const AsyncSuffix: string := "ThenPoll"

  // ---------------------------------------------------------------------------------------
  // Name tests

  /** The name mentions Create, CreateOrUpdate, Update or Delete. */
  predicate IsCrudName(name: string) {
    Contains(name, "Create") || Contains(name, "CreateOrUpdate") || Contains(name, "Update") || Contains(name, "Delete")
  }

  /** The name is that of a polling method. */
  predicate IsAsyncName(name: string) {
    Contains(name, AsyncSuffix)
  }

  /** Go's export rule as the scanner applies it: the first rune is not a lower-case letter. */
  predicate IsExported(name: string) {
    name == [] || !IsLower(name[0])
  }

  /** The CreateOrUpdate alternative of the name filter is subsumed by Create. */
  lemma CrudFilterRedundant(name: string)
    ensures IsCrudName(name) <==> Contains(name, "Create") || Contains(name, "Update") || Contains(name, "Delete")
  {
    if Contains(name, "CreateOrUpdate") {
      OccursAt("CreateOrUpdate", "Create", 0);
      ContainsTransitive(name, "CreateOrUpdate", "Create");
    }
  }

  /** The exported-name check: a loop over the runes of the name that decides on the first one. */
  method FirstRuneIsLower(name: string) returns (isPrivateMethod: bool)
    ensures isPrivateMethod <==> !IsExported(name)
  {
    isPrivateMethod := false;
    for k := 0 to |name|
      invariant k == 0 && !isPrivateMethod
    {
      if IsLower(name[k]) {
        isPrivateMethod := true;
        break;
      }
      break;
    }
  }

  // ---------------------------------------------------------------------------------------
  // Collected uses

  /** A use is collected when its name is a CRUD name, not a polling name, and it denotes a
      function or method. */
  predicate UseKept(ident: Ident, def: Object) {
    IsCrudName(ident.name) && !IsAsyncName(ident.name) && def.typ.Signature?
  }

  /** The package's Uses table (empty when it has no type information). */
  function UsesOf(pkg: Package): map<Ident, Object> {
    if pkg.typesInfo.Some? then pkg.typesInfo.value.uses else map[]
  }

  /** The objects collected from the identifiers `idents`. */
  function CollectedObjects(uses: map<Ident, Object>, idents: set<Ident>): set<Object> {
    set ident | ident in idents && ident in uses && UseKept(ident, uses[ident]) :: uses[ident]
  }

  /** The position an identifier contributes to the positions recorded for `def`. */
  function UsePositionTerm(uses: map<Ident, Object>, def: Object, root: string, sep: char): Ident -> multiset<string> {
    ident => if ident in uses && uses[ident] == def && UseKept(ident, def)
             then multiset{RelativePosition(ident.pos, root, sep)} else multiset{}
  }

  /** Every position at which `def` is used and collected. */
  ghost function UsePositions(uses: map<Ident, Object>, def: Object, root: string, sep: char): multiset<string> {
    SumOver(uses.Keys, UsePositionTerm(uses, def, root, sep))
  }

  // ---------------------------------------------------------------------------------------
  // The SDK inventory

  /** The imports that are generated clients. */
  function SdkPaths(pkg: Package): set<string> {
    set path | path in pkg.imports && Contains(path, SdkPathMarker)
  }

  /** The import at `path` is present and type-checked. */
  predicate IsLoaded(pkg: Package, path: string) {
    path in pkg.imports && pkg.imports[path].Some? && pkg.imports[path].value.typesInfo.Some?
  }

  predicate AllSdkLoaded(pkg: Package) {
    forall path :: path in SdkPaths(pkg) ==> IsLoaded(pkg, path)
  }

  /** The Defs table of the import at `path` (empty when it is not loaded). */
  function DefsAt(pkg: Package, path: string): map<Ident, Option<Object>> {
    if IsLoaded(pkg, path) then pkg.imports[path].value.typesInfo.value.defs else map[]
  }

  /** A definition enters the inventory when its name is a CRUD name and exported. */
  predicate SdkDefKept(name: string) {
    IsCrudName(name) && IsExported(name)
  }

  /** The definition is a method: a function type with a receiver. */
  predicate IsMethodDef(def: Option<Object>) {
    def.Some? && def.value.typ.Signature? && def.value.typ.recv.Some?
  }

  /** The key of a polling method: its receiver type, a dot, and its name. */
  function AsyncKey(def: Option<Object>, name: string): string
    requires IsMethodDef(def)
  {
    ReceiverString(def.value.typ.recv.value) + "." + name
  }

  /** The plain definitions among `idents` (a nil definition is kept as None). */
  function SyncDefs(defs: map<Ident, Option<Object>>, idents: set<Ident>): set<Option<Object>> {
    set ident | ident in idents && ident in defs && SdkDefKept(ident.name) && !IsAsyncName(ident.name) :: defs[ident]
  }

  /** The keys of the polling methods among `idents`. */
  function AsyncKeys(defs: map<Ident, Option<Object>>, idents: set<Ident>): set<string> {
    set ident | ident in idents && ident in defs && SdkDefKept(ident.name) && IsAsyncName(ident.name) && IsMethodDef(defs[ident])
      :: AsyncKey(defs[ident], ident.name)
  }

  /** The plain definitions of all imports in `paths`. */
  function SdkSync(pkg: Package, paths: set<string>): set<Option<Object>> {
    set path, def | path in paths && def in SyncDefs(DefsAt(pkg, path), DefsAt(pkg, path).Keys) :: def
  }

  /** The polling keys of all imports in `paths`. */
  function SdkAsync(pkg: Package, paths: set<string>): set<string> {
    set path, key | path in paths && key in AsyncKeys(DefsAt(pkg, path), DefsAt(pkg, path).Keys) :: key
  }

  /** What the type checker guarantees of a Defs table and the scan relies on: an object is
      defined under its own name, and (line 176 asserts it) every exported polling definition
      is a method. */
  predicate DefsWellFormed(defs: map<Ident, Option<Object>>) {
    forall ident :: ident in defs ==>
      && (defs[ident].Some? ==> defs[ident].value.name == ident.name)
      && (SdkDefKept(ident.name) && IsAsyncName(ident.name) ==> IsMethodDef(defs[ident]))
  }

  predicate SdkDefsWellFormed(pkg: Package) {
    forall path :: path in SdkPaths(pkg) ==> DefsWellFormed(DefsAt(pkg, path))
  }

  // ---------------------------------------------------------------------------------------
  // The cross-reference

  /** The key the polling sibling of method `def` would have. */
  function AsyncPartnerKey(def: Object): string
    requires def.typ.Signature? && def.typ.recv.Some?
  {
    ReceiverString(def.typ.recv.value) + "." + (def.name + AsyncSuffix)
  }

  /** `def` is a plain SDK method whose polling sibling is in the inventory. */
  predicate Reported(pkg: Package, def: Object) {
    && Some(def) in SdkSync(pkg, SdkPaths(pkg))
    && def.typ.Signature? && def.typ.recv.Some?
    && AsyncPartnerKey(def) in SdkAsync(pkg, SdkPaths(pkg))
  }

  ghost function ReportTerm(pkg: Package, root: string, sep: char): Object -> multiset<string> {
    def => if Reported(pkg, def) then UsePositions(UsesOf(pkg), def, root, sep) else multiset{}
  }

  /** Everything the Pandora rule reports for `pkg`: nothing unless the package imports a
      generated client and every such import is loaded; otherwise every collected position of
      every reported object. */
  ghost function PandoraReports(pkg: Package, root: string, sep: char): multiset<string> {
    if SdkPaths(pkg) == {} || !AllSdkLoaded(pkg) then multiset{}
    else SumOver(CollectedObjects(UsesOf(pkg), UsesOf(pkg).Keys), ReportTerm(pkg, root, sep))
  }

  // ---------------------------------------------------------------------------------------
  // Steps of the inventory, one element at a time

  lemma CollectedObjectsAdd(uses: map<Ident, Object>, idents: set<Ident>, ident: Ident)
    requires ident in uses
    ensures CollectedObjects(uses, idents + {ident}) ==
              CollectedObjects(uses, idents) + (if UseKept(ident, uses[ident]) then {uses[ident]} else {})
  {
  }

  lemma SyncDefsAdd(defs: map<Ident, Option<Object>>, idents: set<Ident>, ident: Ident)
    requires ident in defs
    ensures SyncDefs(defs, idents + {ident}) ==
              SyncDefs(defs, idents) + (if SdkDefKept(ident.name) && !IsAsyncName(ident.name) then {defs[ident]} else {})
  {
  }

  lemma AsyncKeysAdd(defs: map<Ident, Option<Object>>, idents: set<Ident>, ident: Ident)
    requires ident in defs
    ensures AsyncKeys(defs, idents + {ident}) ==
              AsyncKeys(defs, idents) +
              (if SdkDefKept(ident.name) && IsAsyncName(ident.name) && IsMethodDef(defs[ident])
               then {AsyncKey(defs[ident], ident.name)} else {})
  {
  }

  lemma SdkSyncAdd(pkg: Package, paths: set<string>, path: string)
    ensures SdkSync(pkg, paths + {path}) == SdkSync(pkg, paths) + SyncDefs(DefsAt(pkg, path), DefsAt(pkg, path).Keys)
  {
  }

  lemma SdkAsyncAdd(pkg: Package, paths: set<string>, path: string)
    ensures SdkAsync(pkg, paths + {path}) == SdkAsync(pkg, paths) + AsyncKeys(DefsAt(pkg, path), DefsAt(pkg, path).Keys)
  {
  }

  /** An object is collected exactly when some collected use of it contributes a position. */
  lemma CollectedObjectsNonEmpty(uses: map<Ident, Object>, def: Object, root: string, sep: char)
    ensures def in CollectedObjects(uses, uses.Keys) <==> UsePositions(uses, def, root, sep) != multiset{}
  {
    if def in CollectedObjects(uses, uses.Keys) {
      var ident :| ident in uses && UseKept(ident, uses[ident]) && uses[ident] == def;
      SumOverMember(uses.Keys, UsePositionTerm(uses, def, root, sep), RelativePosition(ident.pos, root, sep));
    } else if UsePositions(uses, def, root, sep) != multiset{} {
      var p :| p in UsePositions(uses, def, root, sep);
      SumOverMember(uses.Keys, UsePositionTerm(uses, def, root, sep), p);
    }
  }

  // ---------------------------------------------------------------------------------------
  // The scan, phase by phase

  /** `usesSet` groups the positions of the collected identifiers among `seen` by object. */
  ghost predicate GroupsUses(uses: map<Ident, Object>, seen: set<Ident>, usesSet: map<Object, seq<string>>, root: string, sep: char) {
    && (forall def :: def in usesSet ==> usesSet[def] != [])
    && (forall def :: def in usesSet ==> multiset(usesSet[def]) == SumOver(seen, UsePositionTerm(uses, def, root, sep)))
    && (forall def :: def !in usesSet ==> SumOver(seen, UsePositionTerm(uses, def, root, sep)) == multiset{})
  }

  /** Appending one more collected identifier to its object's list keeps the grouping. */
  lemma GroupsUsesStep(uses: map<Ident, Object>, seen: set<Ident>, usesSet: map<Object, seq<string>>, root: string, sep: char, ident: Ident)
    requires ident in uses && ident !in seen
    requires GroupsUses(uses, seen, usesSet, root, sep)
    ensures UseKept(ident, uses[ident]) ==>
              var positions := if uses[ident] in usesSet then usesSet[uses[ident]] else [];
              GroupsUses(uses, seen + {ident}, usesSet[uses[ident] := positions + [RelativePosition(ident.pos, root, sep)]], root, sep)
    ensures !UseKept(ident, uses[ident]) ==> GroupsUses(uses, seen + {ident}, usesSet, root, sep)
  {
    var def := uses[ident];
    var kept := UseKept(ident, def);
    var p := RelativePosition(ident.pos, root, sep);
    var positions := if def in usesSet then usesSet[def] else [];
    var usesSet' := if kept then usesSet[def := positions + [p]] else usesSet;
    forall d
      ensures d in usesSet' ==> multiset(usesSet'[d]) == SumOver(seen + {ident}, UsePositionTerm(uses, d, root, sep))
      ensures d !in usesSet' ==> SumOver(seen + {ident}, UsePositionTerm(uses, d, root, sep)) == multiset{}
    {
      SumOverAdd(seen, UsePositionTerm(uses, d, root, sep), ident);
      assert UsePositionTerm(uses, d, root, sep)(ident) == if kept && d == def then multiset{p} else multiset{};
      if kept && d == def {
        assert multiset(positions) == SumOver(seen, UsePositionTerm(uses, d, root, sep));
      }
    }
  }

  /** Collect the uses: every collected identifier appends its position to the list of the
      object it denotes. As multisets, the lists are the objects' UsePositions. */
  method CollectUses(uses: map<Ident, Object>, root: string, sep: char) returns (usesSet: map<Object, seq<string>>)
    ensures usesSet.Keys == CollectedObjects(uses, uses.Keys)
    ensures forall def :: def in usesSet ==> multiset(usesSet[def]) == UsePositions(uses, def, root, sep)
  {
    usesSet := map[];
    var pending := uses.Keys;
    ghost var seen: set<Ident> := {};
    while pending != {}
      invariant pending !! seen && pending + seen == uses.Keys
      invariant GroupsUses(uses, seen, usesSet, root, sep)
      decreases pending
    {
      var ident :| ident in pending;
      var def := uses[ident];
      GroupsUsesStep(uses, seen, usesSet, root, sep, ident);
      pending, seen := pending - {ident}, seen + {ident};
      if !IsCrudName(ident.name) {
        continue;
      }
      if IsAsyncName(ident.name) {
        continue;
      }
      if !def.typ.Signature? {
        continue;
      }
      var positions := if def in usesSet then usesSet[def] else [];
      usesSet := usesSet[def := positions + [RelativePosition(ident.pos, root, sep)]];
    }
    forall def ensures def in usesSet <==> def in CollectedObjects(uses, uses.Keys) {
      CollectedObjectsNonEmpty(uses, def, root, sep);
      if def in usesSet {
        assert usesSet[def][0] in multiset(usesSet[def]);
      }
    }
  }

  /** The paths of the imports that are generated clients. */
  method SdkImportPaths(pkg: Package) returns (sdkPkgPathList: seq<string>)
    ensures forall path :: path in sdkPkgPathList <==> path in SdkPaths(pkg)
  {
    sdkPkgPathList := [];
    var importsPending := pkg.imports.Keys;
    while importsPending != {}
      invariant importsPending <= pkg.imports.Keys
      invariant forall path :: path in sdkPkgPathList <==>
                  path in pkg.imports && path !in importsPending && Contains(path, SdkPathMarker)
      decreases importsPending
    {
      var importedPkgPath :| importedPkgPath in importsPending;
      if Contains(importedPkgPath, SdkPathMarker) {
        sdkPkgPathList := sdkPkgPathList + [importedPkgPath];
      }
      importsPending := importsPending - {importedPkgPath};
    }
  }

  /** Add the definitions of one generated client to the inventory: exported plain CRUD
      definitions to the sync map (object to name), exported polling methods to the async set
      under their keys. Every object in the sync map is mapped to its own name. */
  method AddSdkDefs(defs: map<Ident, Option<Object>>, sdkSyncSet: map<Option<Object>, string>, sdkAsyncSet: set<string>)
    returns (sdkSyncSet': map<Option<Object>, string>, sdkAsyncSet': set<string>)
    requires DefsWellFormed(defs)
    requires forall d :: d in sdkSyncSet && d.Some? ==> sdkSyncSet[d] == d.value.name
    ensures sdkSyncSet'.Keys == sdkSyncSet.Keys + SyncDefs(defs, defs.Keys)
    ensures forall d :: d in sdkSyncSet' && d.Some? ==> sdkSyncSet'[d] == d.value.name
    ensures sdkAsyncSet' == sdkAsyncSet + AsyncKeys(defs, defs.Keys)
  {
    sdkSyncSet', sdkAsyncSet' := sdkSyncSet, sdkAsyncSet;
    var defsPending := defs.Keys;
    ghost var defsSeen: set<Ident> := {};
    while defsPending != {}
      invariant defsPending !! defsSeen && defsPending + defsSeen == defs.Keys
      invariant sdkSyncSet'.Keys == sdkSyncSet.Keys + SyncDefs(defs, defsSeen)
      invariant forall d :: d in sdkSyncSet' && d.Some? ==> sdkSyncSet'[d] == d.value.name
      invariant sdkAsyncSet' == sdkAsyncSet + AsyncKeys(defs, defsSeen)
      decreases defsPending
    {
      var ident :| ident in defsPending;
      var def := defs[ident];
      SyncDefsAdd(defs, defsSeen, ident);
      AsyncKeysAdd(defs, defsSeen, ident);
      defsPending, defsSeen := defsPending - {ident}, defsSeen + {ident};
      if !IsCrudName(ident.name) {
        continue;
      }
      var isPrivateMethod := FirstRuneIsLower(ident.name);
      if isPrivateMethod {
        continue;
      }
      if IsAsyncName(ident.name) {
        sdkAsyncSet' := sdkAsyncSet' + {ReceiverString(def.value.typ.recv.value) + "." + ident.name};
      } else {
        sdkSyncSet' := sdkSyncSet'[def := ident.name];
      }
    }
  }

  /** The inventory the scan has built: the sync map holds the plain definitions of the
      generated clients, each under its own name, and the async set their polling keys. */
  ghost predicate Inventory(pkg: Package, sdkSyncSet: map<Option<Object>, string>, sdkAsyncSet: set<string>) {
    && sdkSyncSet.Keys == SdkSync(pkg, SdkPaths(pkg))
    && (forall d :: d in sdkSyncSet && d.Some? ==> sdkSyncSet[d] == d.value.name)
    && sdkAsyncSet == SdkAsync(pkg, SdkPaths(pkg))
  }

  /** The test the cross-reference makes on one object, against the inventory. */
  predicate Hit(def: Object, sdkSyncSet: map<Option<Object>, string>, sdkAsyncSet: set<string>) {
    && Some(def) in sdkSyncSet
    && def.typ.Signature? && def.typ.recv.Some?
    && ReceiverString(def.typ.recv.value) + "." + sdkSyncSet[Some(def)] + AsyncSuffix in sdkAsyncSet
  }

  /** Against the full inventory, the test is exactly Reported. */
  lemma HitIsReported(pkg: Package, def: Object, sdkSyncSet: map<Option<Object>, string>, sdkAsyncSet: set<string>)
    requires Inventory(pkg, sdkSyncSet, sdkAsyncSet)
    ensures Hit(def, sdkSyncSet, sdkAsyncSet) <==> Reported(pkg, def)
  {
    if Some(def) in sdkSyncSet && def.typ.Signature? && def.typ.recv.Some? {
      assert ReceiverString(def.typ.recv.value) + "." + sdkSyncSet[Some(def)] + AsyncSuffix == AsyncPartnerKey(def);
    }
  }

  /** Reporting one more object's positions when it is a hit keeps the reports equal to the
      sum over the objects seen. */
  lemma CrossReferenceStep(pkg: Package, usesSet: map<Object, seq<string>>,
                           sdkSyncSet: map<Option<Object>, string>, sdkAsyncSet: set<string>, root: string, sep: char,
                           seen: set<Object>, def: Object, reports: seq<string>)
    requires def in usesSet && def !in seen
    requires multiset(usesSet[def]) == UsePositions(UsesOf(pkg), def, root, sep)
    requires Inventory(pkg, sdkSyncSet, sdkAsyncSet)
    requires multiset(reports) == SumOver(seen, ReportTerm(pkg, root, sep))
    ensures Hit(def, sdkSyncSet, sdkAsyncSet) ==> multiset(reports + usesSet[def]) == SumOver(seen + {def}, ReportTerm(pkg, root, sep))
    ensures !Hit(def, sdkSyncSet, sdkAsyncSet) ==> multiset(reports) == SumOver(seen + {def}, ReportTerm(pkg, root, sep))
  {
    SumOverAdd(seen, ReportTerm(pkg, root, sep), def);
    HitIsReported(pkg, def, sdkSyncSet, sdkAsyncSet);
  }

  /** The cross-reference: for each collected object that is a plain SDK method with a
      receiver whose polling sibling is in the async set, report all its positions. */
  method CrossReference(ghost pkg: Package, usesSet: map<Object, seq<string>>,
                        sdkSyncSet: map<Option<Object>, string>, sdkAsyncSet: set<string>, ghost root: string, ghost sep: char)
    returns (reports: seq<string>)
    requires forall def :: def in usesSet ==> multiset(usesSet[def]) == UsePositions(UsesOf(pkg), def, root, sep)
    requires Inventory(pkg, sdkSyncSet, sdkAsyncSet)
    ensures multiset(reports) == SumOver(usesSet.Keys, ReportTerm(pkg, root, sep))
  {
    reports := [];
    var objsPending := usesSet.Keys;
    ghost var objsSeen: set<Object> := {};
    while objsPending != {}
      invariant objsPending !! objsSeen && objsPending + objsSeen == usesSet.Keys
      invariant multiset(reports) == SumOver(objsSeen, ReportTerm(pkg, root, sep))
      decreases objsPending
    {
      var usesDef :| usesDef in objsPending;
      var pos := usesSet[usesDef];
      CrossReferenceStep(pkg, usesSet, sdkSyncSet, sdkAsyncSet, root, sep, objsSeen, usesDef, reports);
      objsPending, objsSeen := objsPending - {usesDef}, objsSeen + {usesDef};
      if Some(usesDef) in sdkSyncSet {
        var sdkIdentName := sdkSyncSet[Some(usesDef)];
        if !usesDef.typ.Signature? {
          continue;
        }
        var recv := usesDef.typ.recv;
        if recv.None? {
          continue;
        }
        if ReceiverString(recv.value) + "." + sdkIdentName + AsyncSuffix in sdkAsyncSet {
          reports := reports + pos;
        }
      }
    }
  }

  /** Build the inventory from the generated clients in `sdkPkgPathList`, giving up (`loaded`
      false) at the first one that is missing or was not type-checked. */
  method BuildInventory(pkg: Package, sdkPkgPathList: seq<string>)
    returns (loaded: bool, sdkSyncSet: map<Option<Object>, string>, sdkAsyncSet: set<string>)
    requires SdkDefsWellFormed(pkg)
    requires forall path :: path in sdkPkgPathList <==> path in SdkPaths(pkg)
    ensures loaded <==> AllSdkLoaded(pkg)
    ensures loaded ==> Inventory(pkg, sdkSyncSet, sdkAsyncSet)
  {
    sdkSyncSet, sdkAsyncSet := map[], {};
    ghost var done: set<string> := {};
    for k := 0 to |sdkPkgPathList|
      invariant done == set j | 0 <= j < k :: sdkPkgPathList[j]
      invariant forall path :: path in done ==> IsLoaded(pkg, path)
      invariant sdkSyncSet.Keys == SdkSync(pkg, done)
      invariant forall d :: d in sdkSyncSet && d.Some? ==> sdkSyncSet[d] == d.value.name
      invariant sdkAsyncSet == SdkAsync(pkg, done)
    {
      var sdkPkgPath := sdkPkgPathList[k];
      assert sdkPkgPath in SdkPaths(pkg);
      if pkg.imports[sdkPkgPath].None? || pkg.imports[sdkPkgPath].value.typesInfo.None? {
        assert !IsLoaded(pkg, sdkPkgPath);
        return false, sdkSyncSet, sdkAsyncSet;
      }
      SdkSyncAdd(pkg, done, sdkPkgPath);
      SdkAsyncAdd(pkg, done, sdkPkgPath);
      sdkSyncSet, sdkAsyncSet := AddSdkDefs(pkg.imports[sdkPkgPath].value.typesInfo.value.defs, sdkSyncSet, sdkAsyncSet);
      done := done + {sdkPkgPath};
    }
    assert done == SdkPaths(pkg) by {
      forall path | path in SdkPaths(pkg) ensures path in done {
        assert path in sdkPkgPathList;
        var j :| 0 <= j < |sdkPkgPathList| && sdkPkgPathList[j] == path;
      }
    }
    loaded := true;
  }

  /** pandoraSDKScan: collect the uses, build the inventory from the imported generated
      clients, and report every position of a used plain method whose polling sibling exists.
      The order of the reports follows Go's map iteration and is unspecified; as a multiset
      they are exactly PandoraReports. */
  method PandoraSDKScan(pkg: Package, root: string, sep: char) returns (reports: seq<string>)
    requires pkg.typesInfo.Some?
    requires SdkDefsWellFormed(pkg)
    ensures multiset(reports) == PandoraReports(pkg, root, sep)
    ensures SdkPaths(pkg) == {} ==> reports == []
    ensures !AllSdkLoaded(pkg) ==> reports == []
  {
    reports := [];
    var usesSet := CollectUses(pkg.typesInfo.value.uses, root, sep);

    var sdkPkgPathList := SdkImportPaths(pkg);
    if |sdkPkgPathList| == 0 {
      assert forall path :: path in SdkPaths(pkg) ==> path in sdkPkgPathList;
      assert SdkPaths(pkg) == {};
      return;
    }

    var loaded, sdkSyncSet, sdkAsyncSet := BuildInventory(pkg, sdkPkgPathList);
    if !loaded {
      return;
    }
    assert sdkPkgPathList[0] in SdkPaths(pkg);

    reports := CrossReference(pkg, usesSet, sdkSyncSet, sdkAsyncSet, root, sep);
  }
}
