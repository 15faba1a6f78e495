/** The older, level-free Rust emitter (rust-go/rust.go). Its AST is its
    own: fields, parameters and return types carry their Rust type as
    ready-made text, a program lists its structs and functions separately,
    and every node prints without an indentation level. Nested statements
    get a fixed four-space prefix on their first line only. */
module RustGo {
  import opened Strings
  import Ast

  datatype Type =
    | TypeCons(name: string, params: seq<Type>)
    | UInt64Type
    | StringType
    | BoolType
    | TupleType(types: seq<Type>)
    | StrType
    | TypeRef(ofType: Type, mutable: bool)

  datatype Import = Import(path: string)

  datatype Field = Field(name: string, typ: string)

  datatype Param = Param(name: string, typ: string, mutable: bool)

  datatype StructDecl = StructDecl(name: string, fields: seq<Field>)

  datatype FunctionDecl = FunctionDecl(name: string, params: seq<Param>, returnType: string, body: seq<Stmt>)

  datatype Program = Program(imports: seq<Import>, structs: seq<StructDecl>, functions: seq<FunctionDecl>)

  datatype Stmt =
    | Let(variableName: string, value: Expr)
    | Assign(dest: Expr, value: Expr)
    | Return(value: Expr)

  datatype Expr =
    | Block(statements: seq<Stmt>)
    | StructCons(structName: string, fieldValues: seq<FieldValue>)
    | EnumCons(enumName: string, variant: string, args: seq<Expr>)
    | Borrow(value: Expr)
    | Tuple(values: seq<Expr>)
    | FunctionCall(functionName: string, args: seq<Expr>)
    | StaticMethodCall(onType: Type, methodName: string, args: seq<Expr>)
    | MethodCall(receiver: Expr, methodName: string, args: seq<Expr>)
    | Variable(variableName: string)
    | FieldAccess(value: Expr, field: string)
    | IfElse(condition: Expr, thenBranch: Expr, elseBranch: Expr)
    | Not(value: Expr)
    | Add(left: Expr, right: Expr)
    | UInt64Literal(n: Ast.U64)
    | StringLiteral(s: string)
    | BoolLiteral(b: bool)

  datatype FieldValue = FieldValue(name: string, value: Expr)

  /** The `mut ` marker of a mutable borrowed type or parameter. */
  function MutMarker(mutable: bool): string
  {
    if mutable then "mut " else ""
  }

  function PrintType(t: Type): string
  {
    match t
    case TypeCons(name, params) =>
      name + "<" + Join(seq(|params|, i requires 0 <= i < |params| => PrintType(params[i])), ", ") + ">"
    case UInt64Type => "u64"
    case StringType => "String"
    case BoolType => "bool"
    case TupleType(types) =>
      "(" + Join(seq(|types|, i requires 0 <= i < |types| => PrintType(types[i])), ", ") + ")"
    case StrType => "str"
    case TypeRef(ofType, mutable) => "&" + MutMarker(mutable) + " " + PrintType(ofType)
  }

  function PrintImport(i: Import): string
  {
    "use " + i.path + ";"
  }

  function PrintField(f: Field): string
  {
    f.name + ": " + f.typ
  }

  function PrintParam(p: Param): string
  {
    MutMarker(p.mutable) + p.name + ": " + p.typ
  }

  function PrintStructDecl(s: StructDecl): string
  {
    "struct " + s.name + " {\n"
    + Lines(seq(|s.fields|, i requires 0 <= i < |s.fields| => "    " + PrintField(s.fields[i]) + ","))
    + "}"
  }

  function PrintFunctionDecl(f: FunctionDecl): string
  {
    "fn " + f.name + "("
    + Join(seq(|f.params|, i requires 0 <= i < |f.params| => PrintParam(f.params[i])), ", ")
    + ") -> " + f.returnType + " {\n"
    + Lines(seq(|f.body|, i requires 0 <= i < |f.body| => "    " + PrintStmt(f.body[i])))
    + "}"
  }

  /** Imports, then structs, then functions, each followed by a newline. */
  function PrintProgram(p: Program): string
  {
    Lines(seq(|p.imports|, i requires 0 <= i < |p.imports| => PrintImport(p.imports[i])))
    + Lines(StructTexts(p.structs))
    + Lines(seq(|p.functions|, i requires 0 <= i < |p.functions| => PrintFunctionDecl(p.functions[i])))
  }

  /** Each struct's text, in order. */
  function StructTexts(structs: seq<StructDecl>): (r: seq<string>)
    ensures |r| == |structs|
    ensures forall i | 0 <= i < |structs| :: r[i] == PrintStructDecl(structs[i])
  {
    seq(|structs|, i requires 0 <= i < |structs| => PrintStructDecl(structs[i]))
  }

  function PrintStmt(s: Stmt): string
  {
    match s
    case Let(x, v) => "let " + x + " = " + PrintExpr(v) + ";"
    case Assign(d, v) => PrintExpr(d) + " = " + PrintExpr(v) + ";"
    case Return(v) => "return " + PrintExpr(v) + ";"
  }

  function PrintFieldValue(f: FieldValue): string
  {
    f.name + ": " + PrintExpr(f.value)
  }

  function PrintExpr(e: Expr): string
  {
    match e
    case Block(stmts) =>
      "{\n" + Lines(seq(|stmts|, i requires 0 <= i < |stmts| => "    " + PrintStmt(stmts[i]))) + "}"
    case StructCons(name, fvs) =>
      name + " {\n" + Lines(seq(|fvs|, i requires 0 <= i < |fvs| => "    " + PrintFieldValue(fvs[i]) + ",")) + "}"
    case EnumCons(enum, variant, args) =>
      enum + "::" + variant + "(" + Join(seq(|args|, i requires 0 <= i < |args| => PrintExpr(args[i])), ", ") + ")"
    case Borrow(v) => "&" + PrintExpr(v)
    case Tuple(values) =>
      "(" + Join(seq(|values|, i requires 0 <= i < |values| => PrintExpr(values[i])), ", ") + ")"
    case FunctionCall(name, args) =>
      name + "(" + Join(seq(|args|, i requires 0 <= i < |args| => PrintExpr(args[i])), ", ") + ")"
    case StaticMethodCall(t, m, args) =>
      PrintType(t) + "::" + m + "(" + Join(seq(|args|, i requires 0 <= i < |args| => PrintExpr(args[i])), ", ") + ")"
    case MethodCall(v, m, args) =>
      PrintExpr(v) + "." + m + "(" + Join(seq(|args|, i requires 0 <= i < |args| => PrintExpr(args[i])), ", ") + ")"
    case Variable(name) => name
    case FieldAccess(v, field) => PrintExpr(v) + "." + field
    case IfElse(c, t, f) =>
      "if " + PrintExpr(c) + " {\n" + "    " + PrintExpr(t) + "\n} else {\n" + "    " + PrintExpr(f) + "\n}"
    case Not(v) => "!" + PrintExpr(v)
    case Add(l, r) => PrintExpr(l) + " + " + PrintExpr(r)
    case UInt64Literal(n) => NatToString(n) + "_u64"
    case StringLiteral(s) => "\"" + Escape(s) + "\""
    case BoolLiteral(b) => if b then "true" else "false"
  }

  /** A struct is its header line, one line per field in order, each
      indented by four spaces and ending in a comma, and a closing brace. */
  lemma {:induction false} StructDeclLines(s: StructDecl)
    ensures PrintStructDecl(s) ==
              Join(["struct " + s.name + " {"]
                   + seq(|s.fields|, i requires 0 <= i < |s.fields| => "    " + s.fields[i].name + ": " + s.fields[i].typ + ",")
                   + ["}"], "\n")
  {
    var lines := seq(|s.fields|, i requires 0 <= i < |s.fields| => "    " + PrintField(s.fields[i]) + ",");
    var spelled := seq(|s.fields|, i requires 0 <= i < |s.fields| => "    " + s.fields[i].name + ": " + s.fields[i].typ + ",");
    forall i | 0 <= i < |s.fields|
      ensures lines[i] == spelled[i]
    {
      var f := s.fields[i];
      assert "    " + (f.name + ": " + f.typ) + "," == "    " + f.name + ": " + f.typ + ",";
    }
    assert lines == spelled;
    LinesJoin(lines, "}");
    var header := "struct " + s.name + " {";
    assert ([header] + lines + ["}"])[1..] == lines + ["}"];
    assert PrintStructDecl(s) == header + "\n" + (Lines(lines) + "}");
  }

  /** A function is its signature line, one line per statement in order,
      each indented by four spaces, and a closing brace. */
  lemma {:induction false} FunctionDeclLines(f: FunctionDecl)
    ensures PrintFunctionDecl(f) ==
              Join(["fn " + f.name + "(" + Join(seq(|f.params|, i requires 0 <= i < |f.params| => PrintParam(f.params[i])), ", ")
                    + ") -> " + f.returnType + " {"]
                   + seq(|f.body|, i requires 0 <= i < |f.body| => "    " + PrintStmt(f.body[i]))
                   + ["}"], "\n")
  {
    var header := "fn " + f.name + "(" + Join(seq(|f.params|, i requires 0 <= i < |f.params| => PrintParam(f.params[i])), ", ")
                  + ") -> " + f.returnType + " {";
    var lines := seq(|f.body|, i requires 0 <= i < |f.body| => "    " + PrintStmt(f.body[i]));
    LinesJoin(lines, "}");
    assert ([header] + lines + ["}"])[1..] == lines + ["}"];
    assert PrintFunctionDecl(f) == header + "\n" + (Lines(lines) + "}");
  }

  /** A struct added to a program is printed after every struct already
      there and before every function. */
  lemma {:induction false} ProgramStructsBeforeFunctions(p: Program, s: StructDecl)
    ensures PrintProgram(Program(p.imports, p.structs + [s], p.functions)) ==
              Lines(seq(|p.imports|, i requires 0 <= i < |p.imports| => PrintImport(p.imports[i])))
              + Lines(StructTexts(p.structs))
              + PrintStructDecl(s) + "\n"
              + Lines(seq(|p.functions|, i requires 0 <= i < |p.functions| => PrintFunctionDecl(p.functions[i])))
  {
    var texts := StructTexts(p.structs);
    var all := p.structs + [s];
    forall i | 0 <= i < |all| ensures StructTexts(all)[i] == (texts + [PrintStructDecl(s)])[i] {
      if i < |p.structs| { assert all[i] == p.structs[i]; }
    }
    assert StructTexts(all) == texts + [PrintStructDecl(s)];
    LinesSnoc(Lines(seq(|p.imports|, i requires 0 <= i < |p.imports| => PrintImport(p.imports[i]))),
              texts, PrintStructDecl(s),
              Lines(seq(|p.functions|, i requires 0 <= i < |p.functions| => PrintFunctionDecl(p.functions[i]))));
  }

  /** A mutable parameter is the immutable one behind a `mut ` marker. */
  lemma {:induction false} ParamMutable(p: Param)
    ensures PrintParam(p.(mutable := true)) == "mut " + PrintParam(p.(mutable := false))
  {
  }

  /** An integer literal is its decimal digits followed by `_u64`; the
      digits read back as the value. */
  lemma {:induction false} UInt64LiteralDigits(n: Ast.U64)
    ensures var r := PrintExpr(UInt64Literal(n));
            && HasSuffix(r, "_u64")
            && AllDigits(r[..|r| - 4])
            && ParseDecimal(r[..|r| - 4]) == n
  {
    var digits := NatToString(n);
    assert PrintExpr(UInt64Literal(n))[..|digits|] == digits;
    ParseNatToString(n);
  }

  /** A string literal is quoted, and undoing the quote escaping of its
      body recovers the value. */
  lemma {:induction false} StringLiteralRoundTrip(s: string)
    ensures var r := PrintExpr(StringLiteral(s));
            && |r| >= 2 && r[0] == '"' && r[|r| - 1] == '"'
            && Unescape(r[1..|r| - 1]) == s
  {
    var r := PrintExpr(StringLiteral(s));
    assert r[1..|r| - 1] == Escape(s);
    UnescapeEscape(s);
  }
}
