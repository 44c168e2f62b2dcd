/** The inputs the scanner reads from the Go loader, written as plain values: the parts of
    go/ast and go/types that the two rules look at, and nothing else. Resolution itself
    (`Uses`, `Defs`, `Underlying()`) is done by the type checker; here its answers are data. */
module GoTypes {

  datatype Option<+T> = None | Some(value: T)

  /** An identifier occurrence (*ast.Ident). Two occurrences of the same name are different
      identifiers; `id` tells them apart. `pos` is the occurrence's position as the file set
      formats it ("dir/file.go:12:3"). */
  datatype Ident = Ident(id: nat, name: string, pos: string)

  /** The expression shapes the Track 1 rule distinguishes. */
  datatype Expr =
    | IdentExpr(ident: Ident)         // a bare identifier, such as `_` or `err`
    | CallExpr(fun: Expr)             // a call; only the called expression matters
    | SelectorExpr(sel: Ident)        // `x.Sel`; only the selected identifier is resolved
    | OtherExpr                       // any other expression

  /** A declared type name (*types.TypeName): its name and the path of its package. Only the
      predeclared types (`error`, ...) have no package. */
  datatype TypeName = TypeName(name: string, pkg: Option<string>)

  /** The receiver of a method: a named type, possibly behind a pointer (`T` or `*T`). */
  datatype Receiver = Receiver(pointer: bool, base: TypeName)

  /** The type shapes the two rules distinguish. */
  datatype Type =
    | Signature(recv: Option<Receiver>, results: seq<Type>)   // *types.Signature
    | Named(obj: TypeName, underlying: Type)                   // *types.Named
    | Struct(fields: seq<Type>)                                // *types.Struct: field types in order
    | OtherType                                                // basic, pointer, slice, ... types

  /** A resolved object (types.Object). Identity is the `id`; `name` is the declared name. */
  datatype Object = Object(id: nat, name: string, typ: Type)

  /** types.Info: `Uses` maps identifiers to the objects they denote; `Defs` maps identifiers to
      the objects they define, and to nil (None) for the identifiers that define nothing, such
      as the package name in the package clause. */
  datatype Info = Info(uses: map<Ident, Object>, defs: map<Ident, Option<Object>>)

  /** A syntax node: its kind and the nodes `ast.Inspect` visits below it, in order. */
  datatype Node = Node(kind: NodeKind, children: seq<Node>)

  datatype NodeKind =
    | AssignStmt(lhs: seq<Expr>, rhs: seq<Expr>, pos: string)  // *ast.AssignStmt at position `pos`
    | OtherNode

  /** A loaded package (*packages.Package): its files, its type information (nil when it was not
      type-checked) and its imports by path (an entry may be nil). */
  datatype Package = Package(syntax: seq<Node>, typesInfo: Option<Info>, imports: map<string, Option<Package>>)

  /** The printed form of a type name with no qualifier: "path.Name", or "Name" alone when it
      has no package (or the package path is empty). */
  function QualifiedName(t: TypeName): string
  {
    match t.pkg
    case Some(path) => if path == "" then t.name else path + "." + t.name
    case None => t.name
  }

  /** `recv.Type().String()`: the receiver type as the scanner keys it, "*path.Name" for a
      pointer receiver and "path.Name" for a value receiver. */
  function ReceiverString(r: Receiver): string
  {
    (if r.pointer then "*" else "") + QualifiedName(r.base)
  }
}
