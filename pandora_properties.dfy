/** What the Pandora rule reports, stated against the inputs: which positions, why a reported
    method has a polling sibling, and which uses and definitions can never be reported. */
module PandoraProperties {

  import opened GoTypes
  import opened GoStrings
  import opened Multisets
  import opened Pandora

  /** The uses that put position `p` into the reports: collected uses, at `p`, of a reported
      object. */
  predicate ReportedUseAt(pkg: Package, root: string, sep: char, ident: Ident, p: string) {
    && ident in UsesOf(pkg) && UseKept(ident, UsesOf(pkg)[ident])
    && Reported(pkg, UsesOf(pkg)[ident])
    && RelativePosition(ident.pos, root, sep) == p
  }

  /** Every reported position comes from a collected use of a reported object. */
  lemma PandoraReportsSound(pkg: Package, root: string, sep: char, p: string)
    requires p in PandoraReports(pkg, root, sep)
    ensures SdkPaths(pkg) != {} && AllSdkLoaded(pkg)
    ensures exists ident :: ReportedUseAt(pkg, root, sep, ident, p)
  {
    var uses := UsesOf(pkg);
    var objs := CollectedObjects(uses, uses.Keys);
    SumOverMember(objs, ReportTerm(pkg, root, sep), p);
    var def :| def in objs && p in ReportTerm(pkg, root, sep)(def);
    SumOverMember(uses.Keys, UsePositionTerm(uses, def, root, sep), p);
    var ident :| ident in uses.Keys && p in UsePositionTerm(uses, def, root, sep)(ident);
    assert ReportedUseAt(pkg, root, sep, ident, p);
  }

  /** Once the inventory is complete, every collected use of a reported object is reported at
      its position. */
  lemma PandoraReportsComplete(pkg: Package, root: string, sep: char, ident: Ident)
    requires SdkPaths(pkg) != {} && AllSdkLoaded(pkg)
    requires ReportedUseAt(pkg, root, sep, ident, RelativePosition(ident.pos, root, sep))
    ensures RelativePosition(ident.pos, root, sep) in PandoraReports(pkg, root, sep)
  {
    var uses := UsesOf(pkg);
    var def := uses[ident];
    var p := RelativePosition(ident.pos, root, sep);
    SumOverMember(uses.Keys, UsePositionTerm(uses, def, root, sep), p);
    assert p in UsePositionTerm(uses, def, root, sep)(ident);
    CollectedObjectsAdd(uses, uses.Keys - {ident}, ident);
    assert uses.Keys - {ident} + {ident} == uses.Keys;
    SumOverMember(CollectedObjects(uses, uses.Keys), ReportTerm(pkg, root, sep), p);
  }

  /** A position is reported exactly when the package imports a generated client, every such
      import is loaded, and some collected use of a reported object sits at that position. */
  lemma PandoraReportsIff(pkg: Package, root: string, sep: char, p: string)
    ensures p in PandoraReports(pkg, root, sep) <==>
              SdkPaths(pkg) != {} && AllSdkLoaded(pkg) && exists ident :: ReportedUseAt(pkg, root, sep, ident, p)
  {
    if p in PandoraReports(pkg, root, sep) {
      PandoraReportsSound(pkg, root, sep, p);
    } else if SdkPaths(pkg) != {} && AllSdkLoaded(pkg) && exists ident :: ReportedUseAt(pkg, root, sep, ident, p) {
      var ident :| ReportedUseAt(pkg, root, sep, ident, p);
      PandoraReportsComplete(pkg, root, sep, ident);
    }
  }

  /** A position at which only polling methods are used is never reported. */
  lemma AsyncUseNeverReported(pkg: Package, root: string, sep: char, p: string)
    requires forall ident :: ident in UsesOf(pkg) && RelativePosition(ident.pos, root, sep) == p ==> IsAsyncName(ident.name)
    ensures p !in PandoraReports(pkg, root, sep)
  {
    PandoraReportsIff(pkg, root, sep, p);
  }

  /** Go identifiers contain no dot; the generated clients' definitions are named by such
      identifiers. */
  predicate SdkNamesDotFree(pkg: Package) {
    forall path, ident :: path in SdkPaths(pkg) && ident in DefsAt(pkg, path) ==> '.' !in ident.name
  }

  /** What the inventory's sync side holds: exported plain CRUD definitions, each defined by
      an identifier of its own name in a generated client. */
  lemma SdkSyncMember(pkg: Package, def: Object)
    requires SdkDefsWellFormed(pkg)
    ensures Some(def) in SdkSync(pkg, SdkPaths(pkg)) ==> SdkDefKept(def.name) && !IsAsyncName(def.name)
    ensures Some(def) in SdkSync(pkg, SdkPaths(pkg)) ==>
              exists path, ident :: && path in SdkPaths(pkg) && ident in DefsAt(pkg, path)
                                    && DefsAt(pkg, path)[ident] == Some(def) && ident.name == def.name
  {
    if Some(def) in SdkSync(pkg, SdkPaths(pkg)) {
      var path :| path in SdkPaths(pkg) && Some(def) in SyncDefs(DefsAt(pkg, path), DefsAt(pkg, path).Keys);
      var ident :| && ident in DefsAt(pkg, path) && SdkDefKept(ident.name) && !IsAsyncName(ident.name)
                   && DefsAt(pkg, path)[ident] == Some(def);
      assert DefsWellFormed(DefsAt(pkg, path));
    }
  }

  /** A key of the inventory's async side names an exported polling method of a generated client. */
  lemma SdkAsyncMember(pkg: Package, key: string)
    requires key in SdkAsync(pkg, SdkPaths(pkg))
    ensures exists path, ident ::
              && path in SdkPaths(pkg) && ident in DefsAt(pkg, path)
              && SdkDefKept(ident.name) && IsAsyncName(ident.name) && IsMethodDef(DefsAt(pkg, path)[ident])
              && AsyncKey(DefsAt(pkg, path)[ident], ident.name) == key
  {
    var path :| path in SdkPaths(pkg) && key in AsyncKeys(DefsAt(pkg, path), DefsAt(pkg, path).Keys);
    var ident :| && ident in DefsAt(pkg, path) && SdkDefKept(ident.name) && IsAsyncName(ident.name)
                 && IsMethodDef(DefsAt(pkg, path)[ident]) && AsyncKey(DefsAt(pkg, path)[ident], ident.name) == key;
  }

  /** A reported object is an exported, plain CRUD method of a generated client, and a generated
      client also defines a polling method named after it with the suffix, on a receiver that
      prints the same. */
  lemma ReportedHasAsyncPartner(pkg: Package, def: Object)
    requires SdkDefsWellFormed(pkg) && SdkNamesDotFree(pkg)
    requires Reported(pkg, def)
    ensures IsCrudName(def.name) && IsExported(def.name) && !IsAsyncName(def.name)
    ensures exists path, ident ::
              && path in SdkPaths(pkg) && ident in DefsAt(pkg, path)
              && ident.name == def.name + AsyncSuffix
              && IsMethodDef(DefsAt(pkg, path)[ident])
              && ReceiverString(DefsAt(pkg, path)[ident].value.typ.recv.value) == ReceiverString(def.typ.recv.value)
  {
    SdkSyncMember(pkg, def);
    assert '.' !in def.name;
    var key := AsyncPartnerKey(def);
    SdkAsyncMember(pkg, key);
    var path, ident :| && path in SdkPaths(pkg) && ident in DefsAt(pkg, path)
                       && IsMethodDef(DefsAt(pkg, path)[ident]) && AsyncKey(DefsAt(pkg, path)[ident], ident.name) == key;
    var partner := DefsAt(pkg, path)[ident];
    assert IsMethodDef(partner);
    var r1 := ReceiverString(def.typ.recv.value);
    var r2 := ReceiverString(partner.value.typ.recv.value);
    assert AsyncKey(partner, ident.name) == key;
    assert key == r2 + "." + ident.name;
    assert key == r1 + "." + (def.name + AsyncSuffix);
    assert '.' !in def.name + AsyncSuffix;
    DotJoinInjective(r2, ident.name, r1, def.name + AsyncSuffix);
  }

  /** A method whose name starts with a lower-case letter is never reported. */
  lemma PrivateMethodNeverReported(pkg: Package, def: Object)
    requires SdkDefsWellFormed(pkg)
    requires !IsExported(def.name)
    ensures !Reported(pkg, def)
  {
    SdkSyncMember(pkg, def);
  }

  // ---------------------------------------------------------------------------------------
  // A worked case: a generated client with `Create` and `CreateThenPoll`, called both ways.

  const ClientPath: string := SdkPathMarker + "compute/virtualmachines"
  const ClientReceiver: Receiver := Receiver(true, TypeName("VirtualMachinesClient", Some(ClientPath)))
  const CreateName: string := "Create"
  const CreateThenPollName: string := CreateName + AsyncSuffix
  const CreateMethod: Object := Object(1, CreateName, Signature(Some(ClientReceiver), []))
  const CreateThenPollMethod: Object := Object(2, CreateThenPollName, Signature(Some(ClientReceiver), []))
  const CreateDef: Ident := Ident(10, CreateName, "/go/sdk/client.go:20:29")
  const CreateThenPollDef: Ident := Ident(11, CreateThenPollName, "/go/sdk/client.go:40:29")
  const AppRoot: string := "/src/app"
  const CreateCallPos: string := "vm.go:12:20"
  const CreateUse: Ident := Ident(20, CreateName, AppRoot + "/" + CreateCallPos)
  const CreateThenPollUse: Ident := Ident(21, CreateThenPollName, AppRoot + "/vm.go:20:20")

  /** The program: it calls `client.Create(...)` at vm.go:12:20 and `client.CreateThenPoll(...)`
      at vm.go:20:20, and imports the client's package. */
  function ClientProgram(): Package {
    var sdk := Package([], Some(Info(map[], map[CreateDef := Some(CreateMethod), CreateThenPollDef := Some(CreateThenPollMethod)])), map[]);
    Package([], Some(Info(map[CreateUse := CreateMethod, CreateThenPollUse := CreateThenPollMethod], map[])), map[ClientPath := Some(sdk)])
  }

  /** The client's package is the one generated client imported, and it is loaded. */
  lemma ClientProgramImports()
    ensures SdkPaths(ClientProgram()) == {ClientPath} && AllSdkLoaded(ClientProgram())
  {
    OccursAt(ClientPath, SdkPathMarker, 0);
  }

  /** Its `Create` method is an exported plain CRUD definition of the client. */
  lemma ClientProgramSync()
    ensures Some(CreateMethod) in SdkSync(ClientProgram(), {ClientPath})
  {
    OccursAt(CreateName, "Create", 0);
    var defs := DefsAt(ClientProgram(), ClientPath);
    assert Some(CreateMethod) in SyncDefs(defs, defs.Keys);
  }

  /** The key of its polling sibling is in the client's async keys. */
  lemma ClientProgramAsync()
    ensures AsyncPartnerKey(CreateMethod) in SdkAsync(ClientProgram(), {ClientPath})
  {
    OccursAt(CreateThenPollName, "Create", 0);
    OccursAt(CreateThenPollName, AsyncSuffix, |CreateName|);
    var defs := DefsAt(ClientProgram(), ClientPath);
    assert AsyncKey(defs[CreateThenPollDef], CreateThenPollDef.name) == AsyncPartnerKey(CreateMethod);
    assert AsyncPartnerKey(CreateMethod) in AsyncKeys(defs, defs.Keys);
  }

  /** So `Create` is reported. */
  lemma ClientProgramInventory()
    ensures Reported(ClientProgram(), CreateMethod)
  {
    ClientProgramImports();
    ClientProgramSync();
    ClientProgramAsync();
  }

  /** Only the call of `Create` is collected: `CreateThenPoll` is a polling name. */
  lemma ClientProgramCollected()
    ensures CollectedObjects(UsesOf(ClientProgram()), UsesOf(ClientProgram()).Keys) == {CreateMethod}
    ensures UsePositions(UsesOf(ClientProgram()), CreateMethod, AppRoot, '/') == multiset{CreateCallPos}
  {
    var uses := UsesOf(ClientProgram());
    OccursAt(CreateName, "Create", 0);
    OccursAt(CreateThenPollName, AsyncSuffix, |CreateName|);
    assert !IsAsyncName(CreateName);
    CollectedObjectsAdd(uses, {}, CreateUse);
    CollectedObjectsAdd(uses, {CreateUse}, CreateThenPollUse);
    assert uses.Keys == {} + {CreateUse} + {CreateThenPollUse};
    var term := UsePositionTerm(uses, CreateMethod, AppRoot, '/');
    assert AppRoot + ['/'] <= CreateUse.pos;
    assert RelativePosition(CreateUse.pos, AppRoot, '/') == CreateCallPos;
    assert term(CreateUse) == multiset{CreateCallPos};
    assert term(CreateThenPollUse) == multiset{};
    SumOverAdd({}, term, CreateUse);
    assert {} + {CreateUse} == {CreateUse};
    assert SumOver({CreateUse}, term) == multiset{CreateCallPos};
    SumOverAdd({CreateUse}, term, CreateThenPollUse);
    assert {CreateUse} + {CreateThenPollUse} == uses.Keys;
  }

  /** The call of `Create` is reported, the call of `CreateThenPoll` is not. */
  lemma CreateReportedThenPollNot()
    ensures PandoraReports(ClientProgram(), AppRoot, '/') == multiset{CreateCallPos}
  {
    var pkg := ClientProgram();
    ClientProgramImports();
    ClientProgramInventory();
    ClientProgramCollected();
    assert ReportTerm(pkg, AppRoot, '/')(CreateMethod) == multiset{CreateCallPos};
    SumOverAdd({}, ReportTerm(pkg, AppRoot, '/'), CreateMethod);
    assert {} + {CreateMethod} == {CreateMethod};
  }
}
