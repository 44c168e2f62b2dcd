/** The Track 1 rule: an assignment `_, err := client.Method(...)` whose callee's first result is
    a future wrapper of the go-autorest generation (a named struct whose first field is
    azure.FutureAPI). Binding that result to the blank identifier throws away the only handle
    that can wait for the long-running operation. */
module TrackOne {

  import opened GoTypes
  import opened GoStrings

  /** The marker type: `FutureAPI` in the go-autorest azure package. */
  const FutureAPIName: string := "FutureAPI"
  const FutureAPIPath: string := "github.com/Azure/go-autorest/autorest/azure"

  /** What the `ast.Inspect` callback does with one node: whether traversal descends into the
      node's children, and the position it reports, if any. */
  datatype Verdict = Verdict(descend: bool, report: Option<string>)

  /** The callback as written either returns a verdict or panics (an index out of range or a
      nil dereference inside go/types). */
  datatype Outcome = Returned(verdict: Verdict) | Panicked

  /** Not a hit: keep walking. */
  const Continue: Verdict := Verdict(true, None)

  // ---------------------------------------------------------------------------------------
  // The hazard, defined by shape

  /** The identifier `_`. */
  predicate IsBlank(e: Expr) {
    e.IdentExpr? && e.ident.name == "_"
  }

  /** The type azure.FutureAPI. */
  predicate IsFutureAPI(t: Type) {
    t.Named? && t.obj == TypeName(FutureAPIName, Some(FutureAPIPath))
  }

  /** A named struct type whose first field has type azure.FutureAPI. */
  predicate IsFutureWrapper(t: Type) {
    t.Named? && t.underlying.Struct? && |t.underlying.fields| > 0 && IsFutureAPI(t.underlying.fields[0])
  }

  /** A function or method type whose first result is a future wrapper. */
  predicate ReturnsFutureWrapper(t: Type) {
    t.Signature? && |t.results| > 0 && IsFutureWrapper(t.results[0])
  }

  /** `_, x := e.Sel(...)` where `Sel` resolves to a callee returning a future wrapper first. */
  predicate DiscardsFuture(kind: NodeKind, info: Option<Info>) {
    && kind.AssignStmt?
    && |kind.lhs| == 2 && |kind.rhs| == 1
    && IsBlank(kind.lhs[0])
    && kind.rhs[0].CallExpr? && kind.rhs[0].fun.SelectorExpr?
    && info.Some? && kind.rhs[0].fun.sel in info.value.uses
    && ReturnsFutureWrapper(info.value.uses[kind.rhs[0].fun.sel].typ)
  }

  /** The inputs on which the callback as written panics instead of answering: a resolved
      callee with no results (`Results().At(0)`), a first result that is a named struct with no
      fields (`Field(0)`), or a first field named FutureAPI that has no package (`Pkg().Path()`). */
  predicate PanicsAsWritten(kind: NodeKind, info: Option<Info>) {
    && kind.AssignStmt?
    && |kind.lhs| == 2 && |kind.rhs| == 1
    && IsBlank(kind.lhs[0])
    && kind.rhs[0].CallExpr? && kind.rhs[0].fun.SelectorExpr?
    && info.Some? && kind.rhs[0].fun.sel in info.value.uses
    && var t := info.value.uses[kind.rhs[0].fun.sel].typ;
       && t.Signature?
       && (|| |t.results| == 0
           || (&& t.results[0].Named? && t.results[0].underlying.Struct?
               && (|| |t.results[0].underlying.fields| == 0
                   || (&& t.results[0].underlying.fields[0].Named?
                       && t.results[0].underlying.fields[0].obj.name == FutureAPIName
                       && t.results[0].underlying.fields[0].obj.pkg.None?))))
  }

  // ---------------------------------------------------------------------------------------
  // The callback

  /** The callback passed to `ast.Inspect`, guard by guard as written. On a hit it reports the
      assignment's position relative to `root` and stops descending; everything else continues.
      Its answer agrees with the shape definition, and it panics exactly on PanicsAsWritten. */
  function VisitAsWritten(kind: NodeKind, info: Option<Info>, root: string, sep: char): (r: Outcome)
    ensures r.Panicked? <==> PanicsAsWritten(kind, info)
    ensures r.Returned? ==> (!r.verdict.descend <==> DiscardsFuture(kind, info))
    ensures r.Returned? ==> (r.verdict.descend <==> r.verdict.report.None?)
    ensures r.Returned? && r.verdict.report.Some? ==>
              r.verdict.report.value == RelativePosition(kind.pos, root, sep)
  {
    if !kind.AssignStmt? then Returned(Continue)
    else if |kind.lhs| != 2 || |kind.rhs| != 1 then Returned(Continue)
    else if !kind.lhs[0].IdentExpr? then Returned(Continue)
    else if kind.lhs[0].ident.name != "_" then Returned(Continue)
    else if !kind.rhs[0].CallExpr? then Returned(Continue)
    else if !kind.rhs[0].fun.SelectorExpr? then Returned(Continue)
    else if info.None? then Returned(Continue)
    else if kind.rhs[0].fun.sel !in info.value.uses then Returned(Continue)
    else
      var signature := info.value.uses[kind.rhs[0].fun.sel].typ;
      if !signature.Signature? then Returned(Continue)
      else if |signature.results| == 0 then Panicked
      else
        var res := signature.results[0];
        if !res.Named? then Returned(Continue)
        else if !res.underlying.Struct? then Returned(Continue)
        else if |res.underlying.fields| == 0 then Panicked
        else
          var futureType := res.underlying.fields[0];
          if !futureType.Named? then Returned(Continue)
          else
            var future := futureType.obj;
            if future.name != FutureAPIName then Returned(Continue)
            else if future.pkg.None? then Panicked
            else if future.pkg.value != FutureAPIPath then Returned(Continue)
            else Returned(Verdict(false, Some(RelativePosition(kind.pos, root, sep))))
  }

  /** The callback with each step that can panic guarded: a callee with no results, a struct
      with no fields, or a FutureAPI type with no package is simply not a match. It never
      panics, and it stops and reports exactly on the assignments that discard a future
      wrapper. */
  function Visit(kind: NodeKind, info: Option<Info>, root: string, sep: char): (r: Verdict)
    ensures !r.descend <==> DiscardsFuture(kind, info)
    ensures r.descend <==> r.report.None?
    ensures r.report.Some? ==> r.report.value == RelativePosition(kind.pos, root, sep)
    ensures !r.descend ==> kind.AssignStmt? && |kind.lhs| == 2 && |kind.rhs| == 1
    ensures !r.descend ==> kind.lhs[0].IdentExpr? && kind.lhs[0].ident.name == "_"
    ensures !r.descend ==> kind.rhs[0].CallExpr? && kind.rhs[0].fun.SelectorExpr?
    ensures !r.descend ==> info.Some? && kind.rhs[0].fun.sel in info.value.uses
    ensures !r.descend ==>
              var t := info.value.uses[kind.rhs[0].fun.sel].typ;
              && t.Signature? && |t.results| > 0
              && t.results[0].Named? && t.results[0].underlying.Struct?
              && |t.results[0].underlying.fields| > 0
              && t.results[0].underlying.fields[0].Named?
              && t.results[0].underlying.fields[0].obj.name == "FutureAPI"
              && t.results[0].underlying.fields[0].obj.pkg == Some("github.com/Azure/go-autorest/autorest/azure")
  {
    if !kind.AssignStmt? then Continue
    else if |kind.lhs| != 2 || |kind.rhs| != 1 then Continue
    else if !kind.lhs[0].IdentExpr? then Continue
    else if kind.lhs[0].ident.name != "_" then Continue
    else if !kind.rhs[0].CallExpr? then Continue
    else if !kind.rhs[0].fun.SelectorExpr? then Continue
    else if info.None? then Continue
    else if kind.rhs[0].fun.sel !in info.value.uses then Continue
    else
      var signature := info.value.uses[kind.rhs[0].fun.sel].typ;
      if !signature.Signature? then Continue
      else if |signature.results| == 0 then Continue
      else
        var res := signature.results[0];
        if !res.Named? then Continue
        else if !res.underlying.Struct? then Continue
        else if |res.underlying.fields| == 0 then Continue
        else
          var futureType := res.underlying.fields[0];
          if !futureType.Named? then Continue
          else
            var future := futureType.obj;
            if future.name != FutureAPIName then Continue
            else if future.pkg.None? then Continue
            else if future.pkg.value != FutureAPIPath then Continue
            else Verdict(false, Some(RelativePosition(kind.pos, root, sep)))
  }

  /** Wherever the callback as written answers, its answer is the corrected one. */
  lemma AsWrittenAgrees(kind: NodeKind, info: Option<Info>, root: string, sep: char)
    ensures VisitAsWritten(kind, info, root, sep).Returned? ==>
              VisitAsWritten(kind, info, root, sep).verdict == Visit(kind, info, root, sep)
  {
  }

  // ---------------------------------------------------------------------------------------
  // Traversal: ast.Inspect visits a node, and its children only when the callback says so.

  /** The positions reported by `ast.Inspect(n, callback)`, in visiting order. */
  function Inspect(n: Node, info: Option<Info>, root: string, sep: char): seq<string>
    decreases n
  {
    var v := Visit(n.kind, info, root, sep);
    if v.descend then InspectAll(n.children, info, root, sep) else [v.report.value]
  }

  /** The positions reported by inspecting each node of `ns` in turn. */
  function InspectAll(ns: seq<Node>, info: Option<Info>, root: string, sep: char): seq<string>
    decreases ns
  {
    if ns == [] then [] else InspectAll(ns[..|ns| - 1], info, root, sep) + Inspect(ns[|ns| - 1], info, root, sep)
  }

  /** `m` is `n` or a node below it. */
  predicate Occurs(m: Node, n: Node)
    decreases n
  {
    m == n || exists i | 0 <= i < |n.children| :: Occurs(m, n.children[i])
  }

  /** `m` occurs in one of the trees `ns`. */
  predicate OccursIn(m: Node, ns: seq<Node>) {
    exists i | 0 <= i < |ns| :: Occurs(m, ns[i])
  }

  /** Every reported position is that of a future-discarding assignment in the tree, and the
      walk reports nothing exactly when the tree holds no such assignment: pruning below a hit
      never hides the only hit of a tree. */
  lemma {:induction false} InspectSoundComplete(n: Node, info: Option<Info>, root: string, sep: char)
    ensures forall p :: p in Inspect(n, info, root, sep) ==>
              exists m :: Occurs(m, n) && DiscardsFuture(m.kind, info) && p == RelativePosition(m.kind.pos, root, sep)
    ensures Inspect(n, info, root, sep) == [] <==> forall m :: Occurs(m, n) ==> !DiscardsFuture(m.kind, info)
    decreases n, 1
  {
    if DiscardsFuture(n.kind, info) {
      assert Occurs(n, n);
    } else {
      InspectAllSoundComplete(n.children, info, root, sep);
      forall m | OccursIn(m, n.children) ensures Occurs(m, n) {
        var i :| 0 <= i < |n.children| && Occurs(m, n.children[i]);
      }
      forall m | Occurs(m, n) && m != n ensures OccursIn(m, n.children) {
        var i :| 0 <= i < |n.children| && Occurs(m, n.children[i]);
      }
    }
  }

  /** InspectSoundComplete, for a sequence of trees. */
  lemma {:induction false} InspectAllSoundComplete(ns: seq<Node>, info: Option<Info>, root: string, sep: char)
    ensures forall p :: p in InspectAll(ns, info, root, sep) ==>
              exists m :: OccursIn(m, ns) && DiscardsFuture(m.kind, info) && p == RelativePosition(m.kind.pos, root, sep)
    ensures InspectAll(ns, info, root, sep) == [] <==> forall m :: OccursIn(m, ns) ==> !DiscardsFuture(m.kind, info)
    decreases ns, 0
  {
    if ns != [] {
      var init, last := ns[..|ns| - 1], ns[|ns| - 1];
      InspectAllSoundComplete(init, info, root, sep);
      InspectSoundComplete(last, info, root, sep);
      forall m | OccursIn(m, init) ensures OccursIn(m, ns) {
        var i :| 0 <= i < |init| && Occurs(m, init[i]);
        assert init[i] == ns[i];
      }
      assert forall m :: Occurs(m, last) ==> OccursIn(m, ns);
      forall m | OccursIn(m, ns) ensures OccursIn(m, init) || Occurs(m, last) {
        var i :| 0 <= i < |ns| && Occurs(m, ns[i]);
        if i < |ns| - 1 {
          assert ns[i] == init[i];
        }
      }
    }
  }

  /** `m` is `n`, or lies below it with no future-discarding assignment on the way down: the
      walk reaches `m`. */
  predicate Reached(m: Node, n: Node, info: Option<Info>)
    decreases n
  {
    m == n || (!DiscardsFuture(n.kind, info) && exists i | 0 <= i < |n.children| :: Reached(m, n.children[i], info))
  }

  /** `m` is reached from one of the trees `ns`. */
  predicate ReachedIn(m: Node, ns: seq<Node>, info: Option<Info>) {
    exists i | 0 <= i < |ns| :: Reached(m, ns[i], info)
  }

  /** Every future-discarding assignment the walk reaches is reported: not only the first, but
      every hit that has no hit above it. */
  lemma {:induction false} InspectReportsEveryHit(m: Node, n: Node, info: Option<Info>, root: string, sep: char)
    requires Reached(m, n, info) && DiscardsFuture(m.kind, info)
    ensures RelativePosition(m.kind.pos, root, sep) in Inspect(n, info, root, sep)
    decreases n, 1
  {
    if m != n {
      InspectAllReportsEveryHit(m, n.children, info, root, sep);
    }
  }

  /** InspectReportsEveryHit, for a sequence of trees. */
  lemma {:induction false} InspectAllReportsEveryHit(m: Node, ns: seq<Node>, info: Option<Info>, root: string, sep: char)
    requires ReachedIn(m, ns, info) && DiscardsFuture(m.kind, info)
    ensures RelativePosition(m.kind.pos, root, sep) in InspectAll(ns, info, root, sep)
    decreases ns, 0
  {
    var i :| 0 <= i < |ns| && Reached(m, ns[i], info);
    var init := ns[..|ns| - 1];
    if i < |ns| - 1 {
      assert init[i] == ns[i];
      InspectAllReportsEveryHit(m, init, info, root, sep);
    } else {
      InspectReportsEveryHit(m, ns[|ns| - 1], info, root, sep);
    }
  }

  /** trackOneSDKScan: inspect every file of the package in order. The reports are those of
      `ast.Inspect` on each file, each one a future-discarding assignment of the package, and
      there are none exactly when the package has no such assignment. */
  method TrackOneSDKScan(pkg: Package, root: string, sep: char) returns (reports: seq<string>)
    ensures reports == InspectAll(pkg.syntax, pkg.typesInfo, root, sep)
    ensures forall p :: p in reports ==>
              exists m :: OccursIn(m, pkg.syntax) && DiscardsFuture(m.kind, pkg.typesInfo)
                          && p == RelativePosition(m.kind.pos, root, sep)
    ensures reports == [] <==> forall m :: OccursIn(m, pkg.syntax) ==> !DiscardsFuture(m.kind, pkg.typesInfo)
    ensures forall m :: ReachedIn(m, pkg.syntax, pkg.typesInfo) && DiscardsFuture(m.kind, pkg.typesInfo) ==>
              RelativePosition(m.kind.pos, root, sep) in reports
  {
    reports := [];
    for k := 0 to |pkg.syntax|
      invariant reports == InspectAll(pkg.syntax[..k], pkg.typesInfo, root, sep)
    {
      var f := pkg.syntax[k];
      reports := reports + Inspect(f, pkg.typesInfo, root, sep);
      assert pkg.syntax[..k + 1][..k] == pkg.syntax[..k];
    }
    assert pkg.syntax[..|pkg.syntax|] == pkg.syntax;
    InspectAllSoundComplete(pkg.syntax, pkg.typesInfo, root, sep);
    forall m | ReachedIn(m, pkg.syntax, pkg.typesInfo) && DiscardsFuture(m.kind, pkg.typesInfo)
      ensures RelativePosition(m.kind.pos, root, sep) in reports
    {
      InspectAllReportsEveryHit(m, pkg.syntax, pkg.typesInfo, root, sep);
    }
  }

  // ---------------------------------------------------------------------------------------
  // Worked cases

  /** The legacy SDK shape: `type CreateOrUpdateFuture struct { azure.FutureAPI; Result ... }`. */
  const FutureWrapper: Type :=
    Named(TypeName("CreateOrUpdateFuture", Some("example.com/sdk")),
          Struct([Named(TypeName(FutureAPIName, Some(FutureAPIPath)), Struct([])), OtherType]))

  /** A plain response: `type GetResult struct { autorest.Response; Future azure.FutureAPI }`. */
  const ResponseWrapper: Type :=
    Named(TypeName("GetResult", Some("example.com/sdk")),
          Struct([Named(TypeName("Response", Some("github.com/Azure/go-autorest/autorest")), Struct([])),
                  Named(TypeName(FutureAPIName, Some(FutureAPIPath)), Struct([]))]))

  /** An empty response: `type DeleteResult struct{}`. */
  const EmptyWrapper: Type := Named(TypeName("DeleteResult", Some("example.com/sdk")), Struct([]))

  const ErrorType: Type := Named(TypeName("error", None), OtherType)

  /** `first, err := client.Op(...)` at /src/app/main.go:9:2, where `Op` returns `(result, error)`. */
  function ExampleAssign(first: string): NodeKind {
    AssignStmt([IdentExpr(Ident(2, first, "/src/app/main.go:9:2")), IdentExpr(Ident(3, "err", "/src/app/main.go:9:5"))],
               [CallExpr(SelectorExpr(Ident(1, "Op", "/src/app/main.go:9:19")))],
               "/src/app/main.go:9:2")
  }

  function ExampleInfo(result: Type): Option<Info> {
    Some(Info(map[Ident(1, "Op", "/src/app/main.go:9:19") := Object(7, "Op", Signature(None, [result, ErrorType]))], map[]))
  }

  /** `_, err := client.CreateOrUpdate(...)` on a future wrapper is a hit, reported relative to
      the root, and the walk does not descend into it. */
  lemma BlankFutureDiscardReported()
    ensures Visit(ExampleAssign("_"), ExampleInfo(FutureWrapper), "/src/app", '/') == Verdict(false, Some("main.go:9:2"))
  {
  }

  /** `future, err := client.CreateOrUpdate(...)` keeps the handle: no hit. */
  lemma NamedTargetNotReported()
    ensures Visit(ExampleAssign("future"), ExampleInfo(FutureWrapper), "/src/app", '/') == Continue
  {
  }

  /** A plain response whose second field happens to be a future is not a hit. */
  lemma ResponseFirstFieldNotReported()
    ensures Visit(ExampleAssign("_"), ExampleInfo(ResponseWrapper), "/src/app", '/') == Continue
  {
  }

  /** Without type information nothing is reported. */
  lemma UnresolvedNotReported()
    ensures Visit(ExampleAssign("_"), None, "/src/app", '/') == Continue
  {
  }

  /** `_, err := client.Delete(...)` where the first result is an empty named struct: the callback
      as written indexes field 0 of a struct with no fields and panics; the corrected callback
      reports nothing and continues. */
  lemma EmptyStructPanicsAsWritten()
    ensures VisitAsWritten(ExampleAssign("_"), ExampleInfo(EmptyWrapper), "/src/app", '/') == Panicked
    ensures Visit(ExampleAssign("_"), ExampleInfo(EmptyWrapper), "/src/app", '/') == Continue
  {
  }
}
