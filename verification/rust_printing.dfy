/** The current Rust emitter (parser/rust_printing.go): `PrettyPrint(level)`
    over the typed AST. Statements and some expressions start with
    `level` units of four-space indentation; types ignore the level. The
    emitter has no rule for the resolver's `StringType`, `FunType` and named
    `TypeRef`, nor for a constant without a type (Go would call a method on
    a nil interface), so every printer requires its input to avoid them. */
module RustPrinting {
  import opened Strings
  import opened Ast

  /** The types the emitter has a rule for. */
  predicate PrintableType(t: Type)
  {
    match t
    case TypeCons(_, params) => forall i | 0 <= i < |params| :: PrintableType(params[i])
    case StructType(fields) => forall i | 0 <= i < |fields| :: PrintableType(fields[i].typ)
    case UInt64Type => true
    case BoolType => true
    case SetType(e) => PrintableType(e)
    case MapType(k, v) => PrintableType(k) && PrintableType(v)
    case TupleType(types) => forall i | 0 <= i < |types| :: PrintableType(types[i])
    case StrType => true
    case ListType(e) => PrintableType(e)
    case ConstType(_) => true
    case RefType(ofType, _) => PrintableType(ofType)
    case StringType => false
    case FunType(_, _) => false
    case TypeRef(_, _) => false
  }

  /** Expressions and statements whose every type is printable: the only
      type inside an expression is the receiver type of a static call. */
  predicate PrintableExpr(e: Expr)
  {
    match e
    case Block(stmts) => forall i | 0 <= i < |stmts| :: PrintableStmt(stmts[i])
    case StructCons(_, fvs) => forall i | 0 <= i < |fvs| :: PrintableExpr(fvs[i].value)
    case EnumCons(_, _, args) => forall i | 0 <= i < |args| :: PrintableExpr(args[i])
    case Borrow(v) => PrintableExpr(v)
    case Tuple(values) => forall i | 0 <= i < |values| :: PrintableExpr(values[i])
    case FunctionCall(_, args) => forall i | 0 <= i < |args| :: PrintableExpr(args[i])
    case StaticMethodCall(t, _, args) => PrintableType(t) && forall i | 0 <= i < |args| :: PrintableExpr(args[i])
    case MethodCall(v, _, args) => PrintableExpr(v) && forall i | 0 <= i < |args| :: PrintableExpr(args[i])
    case Variable(_) => true
    case FieldAccess(v, _) => PrintableExpr(v)
    case IfElse(c, t, f) => PrintableExpr(c) && PrintableExpr(t) && PrintableExpr(f)
    case Not(v) => PrintableExpr(v)
    case Add(l, r) => PrintableExpr(l) && PrintableExpr(r)
    case UInt64Literal(_) => true
    case StringLiteral(_) => true
    case BoolLiteral(_) => true
    case Todo => true
  }

  predicate PrintableStmt(s: Stmt)
  {
    match s
    case Let(_, v) => PrintableExpr(v)
    case Assign(d, v) => PrintableExpr(d) && PrintableExpr(v)
    case Return(v) => PrintableExpr(v)
  }

  predicate PrintableDecl(d: Decl)
  {
    match d
    case StructDecl(_, fields) => forall i | 0 <= i < |fields| :: PrintableType(fields[i].typ)
    case FunctionDecl(_, params, returnType, body) =>
      && (forall i | 0 <= i < |params| :: PrintableType(params[i].typ))
      && PrintableType(returnType)
      && (forall i | 0 <= i < |body| :: PrintableStmt(body[i]))
    case ConstDecl(_, constType, value) => constType.Some? && PrintableType(constType.value) && PrintableExpr(value)
    case TypeDecl(_, typ) => PrintableType(typ)
  }

  predicate PrintableProgram(p: Program)
  {
    forall i | 0 <= i < |p.decls| :: PrintableDecl(p.decls[i])
  }

  /** The `mut ` marker of a mutable borrow or parameter. */
  function MutMarker(mutable: bool): string
  {
    if mutable then "mut " else ""
  }

  function PrintType(t: Type, level: nat): string
    requires PrintableType(t)
  {
    match t
    case TypeCons(name, params) =>
      name + "<" + Join(seq(|params|, i requires 0 <= i < |params| => PrintType(params[i], level)), ", ") + ">"
    case StructType(fields) =>
      "struct {\n" + Lines(seq(|fields|, i requires 0 <= i < |fields| => "    " + PrintField(fields[i], level))) + "}"
    case UInt64Type => "u64"
    case BoolType => "bool"
    case SetType(e) => "HashSet::<" + PrintType(e, level) + ">"
    case MapType(k, v) => "HashMap::<" + PrintType(k, level) + ", " + PrintType(v, level) + ">"
    case TupleType(types) =>
      "(" + Join(seq(|types|, i requires 0 <= i < |types| => PrintType(types[i], level)), ", ") + ")"
    case StrType => "String"
    case ListType(e) => "[" + PrintType(e, level) + "]"
    case ConstType(name) => name
    case RefType(ofType, mutable) => "&" + MutMarker(mutable) + " " + PrintType(ofType, level)
  }

  function PrintField(f: Field, level: nat): string
    requires PrintableType(f.typ)
  {
    "pub " + f.name + ": " + PrintType(f.typ, level)
  }

  function PrintImport(i: Import): string
  {
    "use " + i.path + ";"
  }

  function PrintParam(p: Param, level: nat): string
    requires PrintableType(p.typ)
  {
    MutMarker(p.mutable) + p.name + ": " + PrintType(p.typ, level)
  }

  function PrintDecl(d: Decl, level: nat): string
    requires PrintableDecl(d)
  {
    match d
    case StructDecl(name, fields) =>
      "pub struct " + name + " {\n"
      + Lines(seq(|fields|, i requires 0 <= i < |fields| => "    " + PrintField(fields[i], level) + ","))
      + "}"
    case TypeDecl(name, typ) => "type " + name + " = " + PrintType(typ, level) + ";"
    case FunctionDecl(name, params, returnType, body) =>
      "pub fn " + name + "("
      + Join(seq(|params|, i requires 0 <= i < |params| => PrintParam(params[i], level)), ", ")
      + ") -> " + PrintType(returnType, level) + " {\n"
      + Lines(seq(|body|, i requires 0 <= i < |body| => PrintStmt(body[i], level + 1)))
      + "}"
    case ConstDecl(name, constType, value) =>
      "pub const " + name + ": " + PrintType(constType.value, level) + " = " + PrintExpr(value, level) + ";"
  }

  /** Imports one per line, an empty line, then each declaration followed
      by an empty line. */
  function PrintProgram(p: Program, level: nat): string
    requires PrintableProgram(p)
  {
    Lines(seq(|p.imports|, i requires 0 <= i < |p.imports| => PrintImport(p.imports[i])))
    + "\n"
    + Concat(DeclTexts(p.decls, level))
  }

  /** Each declaration's text followed by an empty line, in order. */
  function DeclTexts(decls: seq<Decl>, level: nat): (r: seq<string>)
    requires forall i | 0 <= i < |decls| :: PrintableDecl(decls[i])
    ensures |r| == |decls|
    ensures forall i | 0 <= i < |decls| :: r[i] == PrintDecl(decls[i], level) + "\n\n"
  {
    seq(|decls|, i requires 0 <= i < |decls| => PrintDecl(decls[i], level) + "\n\n")
  }

  function PrintStmt(s: Stmt, level: nat): string
    requires PrintableStmt(s)
  {
    match s
    case Let(x, v) => Indent(level) + "let " + x + " = " + PrintExpr(v, 0) + ";"
    case Assign(d, v) => Indent(level) + PrintExpr(d, 0) + " = " + PrintExpr(v, 0) + ";"
    case Return(v) => Indent(level) + " " + PrintExpr(v, level)
  }

  function PrintFieldValue(f: FieldValue, level: nat): string
    requires PrintableExpr(f.value)
  {
    Indent(level) + f.name + ": " + PrintExpr(f.value, level)
  }

  function PrintExpr(e: Expr, level: nat): string
    requires PrintableExpr(e)
  {
    match e
    case Block(stmts) =>
      Indent(level) + "{\n"
      + Lines(seq(|stmts|, i requires 0 <= i < |stmts| => PrintStmt(stmts[i], level + 1)))
      + Indent(level) + "}\n"
    case StructCons(name, fvs) =>
      name + " {\n"
      + Lines(seq(|fvs|, i requires 0 <= i < |fvs| => PrintFieldValue(fvs[i], level + 1) + ","))
      + Indent(level) + "}"
    case EnumCons(enum, variant, args) =>
      enum + "::" + variant + "(" + PrintArgs(args) + ")"
    case Borrow(v) => "&" + PrintExpr(v, 0)
    case Tuple(values) =>
      "(" + PrintArgs(values) + ")"
    case FunctionCall(name, args) =>
      name + "(" + PrintArgs(args) + ")"
    case StaticMethodCall(t, m, args) =>
      PrintType(t, level) + "::" + m + "(" + PrintArgs(args) + ")"
    case MethodCall(v, m, args) =>
      PrintExpr(v, level) + "." + m + "(" + PrintArgs(args) + ")"
    case Variable(name) => name
    case FieldAccess(v, field) => PrintExpr(v, 0) + "." + field
    case IfElse(c, t, f) =>
      Indent(level) + "if " + PrintExpr(c, 0) + " {\n"
      + PrintExpr(t, level + 1) + Indent(level) + "\n} else {\n"
      + PrintExpr(f, level + 1) + Indent(level) + "\n}"
    case Not(v) => "!" + PrintExpr(v, 0)
    case Add(l, r) => PrintExpr(l, 0) + " + " + PrintExpr(r, 0)
    case UInt64Literal(n) => NatToString(n) + "_u64"
    case StringLiteral(s) => "\"" + Escape(s) + "\"" + ".to_string()"
    case BoolLiteral(b) => if b then "true" else "false"
    case Todo => Indent(level) + "todo!()"
  }

  /** Arguments, and tuple members, printed at level 0 and separated by
      commas. */
  function PrintArgs(args: seq<Expr>): string
    requires forall i | 0 <= i < |args| :: PrintableExpr(args[i])
  {
    Join(seq(|args|, i requires 0 <= i < |args| => PrintExpr(args[i], 0)), ", ")
  }

  /** Types print the same at every level: the level is passed down but
      never used. */
  lemma {:induction false} TypeLevelFree(t: Type, l1: nat, l2: nat)
    requires PrintableType(t)
    ensures PrintType(t, l1) == PrintType(t, l2)
  {
    match t
    case TypeCons(name, params) =>
      forall i | 0 <= i < |params|
        ensures PrintType(params[i], l1) == PrintType(params[i], l2)
      {
        TypeLevelFree(params[i], l1, l2);
      }
      assert seq(|params|, i requires 0 <= i < |params| => PrintType(params[i], l1))
          == seq(|params|, i requires 0 <= i < |params| => PrintType(params[i], l2));
    case StructType(fields) =>
      forall i | 0 <= i < |fields|
        ensures PrintField(fields[i], l1) == PrintField(fields[i], l2)
      {
        TypeLevelFree(fields[i].typ, l1, l2);
      }
      assert seq(|fields|, i requires 0 <= i < |fields| => "    " + PrintField(fields[i], l1))
          == seq(|fields|, i requires 0 <= i < |fields| => "    " + PrintField(fields[i], l2));
    case TupleType(types) =>
      forall i | 0 <= i < |types|
        ensures PrintType(types[i], l1) == PrintType(types[i], l2)
      {
        TypeLevelFree(types[i], l1, l2);
      }
      assert seq(|types|, i requires 0 <= i < |types| => PrintType(types[i], l1))
          == seq(|types|, i requires 0 <= i < |types| => PrintType(types[i], l2));
    case SetType(e) => TypeLevelFree(e, l1, l2);
    case ListType(e) => TypeLevelFree(e, l1, l2);
    case MapType(k, v) =>
      TypeLevelFree(k, l1, l2);
      TypeLevelFree(v, l1, l2);
    case RefType(ofType, _) => TypeLevelFree(ofType, l1, l2);
    case _ =>
  }

  /** A mutable borrow is the immutable one with `mut ` after the `&`. */
  lemma {:induction false} RefTypeMutable(t: Type, level: nat)
    requires PrintableType(t)
    ensures PrintType(RefType(t, true), level) == "&mut " + PrintType(RefType(t, false), level)[1..]
  {
    var inner := PrintType(t, level);
    assert PrintType(RefType(t, false), level) == "&" + "" + " " + inner;
    assert ("&" + "" + " " + inner)[1..] == " " + inner;
    assert PrintType(RefType(t, true), level) == "&" + "mut " + " " + inner;
  }

  /** A mutable parameter is the immutable one behind a `mut ` marker. */
  lemma {:induction false} ParamMutable(p: Param, level: nat)
    requires PrintableType(p.typ)
    ensures PrintParam(p.(mutable := true), level) == "mut " + PrintParam(p.(mutable := false), level)
  {
  }

  /** A struct declaration is its header line, one line per field in order
      (`    pub name: type,`), and a closing brace. */
  lemma {:induction false} StructDeclLines(name: string, fields: seq<Field>, level: nat)
    requires PrintableDecl(StructDecl(name, fields))
    ensures PrintDecl(StructDecl(name, fields), level) ==
              Join(["pub struct " + name + " {"]
                   + seq(|fields|, i requires 0 <= i < |fields| =>
                           "    pub " + fields[i].name + ": " + PrintType(fields[i].typ, level) + ",")
                   + ["}"], "\n")
  {
    var lines := seq(|fields|, i requires 0 <= i < |fields| => "    " + PrintField(fields[i], level) + ",");
    FieldLinesSpelled(fields, level);
    LinesJoin(lines, "}");
    var header := "pub struct " + name + " {";
    assert ([header] + lines + ["}"])[1..] == lines + ["}"];
    assert PrintDecl(StructDecl(name, fields), level) == header + "\n" + (Lines(lines) + "}");
  }

  lemma {:induction false} FieldLinesSpelled(fields: seq<Field>, level: nat)
    requires forall i | 0 <= i < |fields| :: PrintableType(fields[i].typ)
    ensures seq(|fields|, i requires 0 <= i < |fields| => "    " + PrintField(fields[i], level) + ",")
         == seq(|fields|, i requires 0 <= i < |fields| =>
                  "    pub " + fields[i].name + ": " + PrintType(fields[i].typ, level) + ",")
  {
    var lines := seq(|fields|, i requires 0 <= i < |fields| => "    " + PrintField(fields[i], level) + ",");
    var spelled := seq(|fields|, i requires 0 <= i < |fields| =>
                         "    pub " + fields[i].name + ": " + PrintType(fields[i].typ, level) + ",");
    forall i | 0 <= i < |fields|
      ensures lines[i] == spelled[i]
    {
      var f := fields[i];
      assert "    " + ("pub " + f.name + ": " + PrintType(f.typ, level)) + ","
          == "    pub " + f.name + ": " + PrintType(f.typ, level) + ",";
    }
  }

  /** A function declaration is its signature line, one line per body
      statement printed one level deeper, in order, and a closing brace. */
  lemma {:induction false} FunctionDeclLines(name: string, params: seq<Param>, returnType: Type, body: seq<Stmt>, level: nat)
    requires PrintableDecl(FunctionDecl(name, params, returnType, body))
    ensures PrintDecl(FunctionDecl(name, params, returnType, body), level) ==
              Join(["pub fn " + name + "("
                    + Join(seq(|params|, i requires 0 <= i < |params| => PrintParam(params[i], level)), ", ")
                    + ") -> " + PrintType(returnType, level) + " {"]
                   + seq(|body|, i requires 0 <= i < |body| => PrintStmt(body[i], level + 1))
                   + ["}"], "\n")
  {
    var header := "pub fn " + name + "("
                  + Join(seq(|params|, i requires 0 <= i < |params| => PrintParam(params[i], level)), ", ")
                  + ") -> " + PrintType(returnType, level) + " {";
    var lines := seq(|body|, i requires 0 <= i < |body| => PrintStmt(body[i], level + 1));
    LinesJoin(lines, "}");
    assert ([header] + lines + ["}"])[1..] == lines + ["}"];
    assert PrintDecl(FunctionDecl(name, params, returnType, body), level) == header + "\n" + (Lines(lines) + "}");
  }

  /** A declaration added to a program is printed after all the others,
      followed by an empty line. */
  lemma {:induction false} ProgramDeclsInOrder(p: Program, d: Decl, level: nat)
    requires PrintableProgram(p) && PrintableDecl(d)
    ensures PrintableProgram(Program(p.imports, p.decls + [d]))
    ensures PrintProgram(Program(p.imports, p.decls + [d]), level) == PrintProgram(p, level) + PrintDecl(d, level) + "\n\n"
  {
    DeclTextsSnoc(p.decls, d, level);
    var imports := Lines(seq(|p.imports|, i requires 0 <= i < |p.imports| => PrintImport(p.imports[i]))) + "\n";
    ConcatSnoc(imports, DeclTexts(p.decls, level), PrintDecl(d, level) + "\n\n");
  }

  lemma {:induction false} DeclTextsSnoc(decls: seq<Decl>, d: Decl, level: nat)
    requires forall i | 0 <= i < |decls| :: PrintableDecl(decls[i])
    requires PrintableDecl(d)
    ensures forall i | 0 <= i < |decls + [d]| :: PrintableDecl((decls + [d])[i])
    ensures DeclTexts(decls + [d], level) == DeclTexts(decls, level) + [PrintDecl(d, level) + "\n\n"]
  {
    var all := decls + [d];
    forall i | 0 <= i < |all| ensures PrintableDecl(all[i]) {
      if i < |decls| { assert all[i] == decls[i]; }
    }
    var texts := DeclTexts(decls, level);
    var last := PrintDecl(d, level) + "\n\n";
    forall i | 0 <= i < |all| ensures DeclTexts(all, level)[i] == (texts + [last])[i] {
      if i < |decls| { assert all[i] == decls[i]; }
    }
  }

  /** Every statement at level `L` starts with exactly `4 * L` spaces. */
  lemma {:induction false} StmtIndented(s: Stmt, level: nat)
    requires PrintableStmt(s)
    ensures var r := PrintStmt(s, level);
            && |r| > 4 * level
            && r[..4 * level] == Indent(level)
            && (s.Let? ==> r[4 * level..4 * level + 4] == "let ")
            && (s.Return? ==> r[4 * level] == ' ')
  {
  }

  /** A struct literal at level `L` is its header line, one line per field
      printed at level `L + 1` and ending in a comma, and a closing brace
      indented to level `L`. */
  lemma {:induction false} StructConsLines(name: string, fvs: seq<FieldValue>, level: nat)
    requires PrintableExpr(StructCons(name, fvs))
    ensures PrintExpr(StructCons(name, fvs), level) ==
              Join([name + " {"]
                   + seq(|fvs|, i requires 0 <= i < |fvs| =>
                           Indent(level + 1) + fvs[i].name + ": " + PrintExpr(fvs[i].value, level + 1) + ",")
                   + [Indent(level) + "}"], "\n")
  {
    var lines := seq(|fvs|, i requires 0 <= i < |fvs| => PrintFieldValue(fvs[i], level + 1) + ",");
    var spelled := seq(|fvs|, i requires 0 <= i < |fvs| =>
                         Indent(level + 1) + fvs[i].name + ": " + PrintExpr(fvs[i].value, level + 1) + ",");
    assert lines == spelled;
    LinesJoin(lines, Indent(level) + "}");
    var header := name + " {";
    assert ([header] + lines + [Indent(level) + "}"])[1..] == lines + [Indent(level) + "}"];
    assert PrintExpr(StructCons(name, fvs), level) == header + "\n" + (Lines(lines) + (Indent(level) + "}"));
  }

  /** An integer literal is its decimal digits followed by `_u64`, at any
      level; the digits read back as the value. */
  lemma {:induction false} UInt64LiteralDigits(n: U64, level: nat)
    ensures var r := PrintExpr(UInt64Literal(n), level);
            && HasSuffix(r, "_u64")
            && AllDigits(r[..|r| - 4])
            && ParseDecimal(r[..|r| - 4]) == n
  {
    var digits := NatToString(n);
    assert PrintExpr(UInt64Literal(n), level)[..|digits|] == digits;
    ParseNatToString(n);
  }

  /** A string literal is a quoted, escaped body followed by
      `.to_string()`; undoing the escaping recovers the value. */
  lemma {:induction false} StringLiteralRoundTrip(s: string, level: nat)
    ensures var r := PrintExpr(StringLiteral(s), level);
            && HasSuffix(r, "\".to_string()")
            && r[0] == '"'
            && Unescape(r[1..|r| - 13]) == s
  {
    var r := PrintExpr(StringLiteral(s), level);
    assert r == "\"" + Escape(s) + "\".to_string()";
    assert r[1..|r| - 13] == Escape(s);
    HasSuffixOfAppend("\"" + Escape(s), "\".to_string()");
    UnescapeEscape(s);
  }
}
