/** The typed AST of the transpiler (parser/ast.go), extended with the
    variants the current emitter (parser/rust_printing.go) matches on:
    `MapType`, `ConstType`, the borrowed-reference type, `TypeDecl`, `Todo`,
    a program made of a single declaration list, and function bodies that
    are statement lists. Go's open "marker interface" node families become
    closed datatypes. */
module Ast {
  import opened Wrappers

  /** Go's `uint64`. */
  type U64 = n: nat | n < 0x1_0000_0000_0000_0000

  datatype Type =
    | TypeCons(consName: string, params: seq<Type>)
    | StructType(fields: seq<Field>)
    | UInt64Type
    | StringType
    | BoolType
    | TupleType(types: seq<Type>)
    | StrType
    | ListType(elementType: Type)
    | SetType(elementType: Type)
      /** The resolver's image of the IR function type `{arg, res}`. */
    | FunType(argType: Type, returnType: Type)
      /** The emitter's dictionary type. */
    | MapType(keyType: Type, valueType: Type)
    | ConstType(name: string)
      /** ast.go's `TypeRef{TypeName, Mutable}`: a reference to a named type. */
    | TypeRef(typeName: string, mutable: bool)
      /** The emitter's `TypeRef{OfType, Mutable}`: a borrow of a type. */
    | RefType(ofType: Type, mutable: bool)

  datatype Field = Field(name: string, typ: Type)

  datatype Param = Param(name: string, typ: Type, mutable: bool)

  datatype Import = Import(path: string)

  datatype Decl =
    | StructDecl(name: string, fields: seq<Field>)
    | FunctionDecl(name: string, params: seq<Param>, returnType: Type, body: seq<Stmt>)
      /** The resolver leaves the constant's type unset (Go nil). */
    | ConstDecl(name: string, constType: Option<Type>, value: Expr)
    | TypeDecl(name: string, typ: Type)

  datatype Stmt =
    | Let(variableName: string, value: Expr)
    | Assign(dest: Expr, value: Expr)
    | Return(value: Expr)

  datatype Expr =
    | Block(statements: seq<Stmt>)
    | StructCons(structName: string, fieldValues: seq<FieldValue>)
    | EnumCons(enumName: string, variant: string, args: seq<Expr>)
    | Borrow(value: Expr)
    | Tuple(values: seq<Expr>)
    | FunctionCall(functionName: string, args: seq<Expr>)
    | StaticMethodCall(onType: Type, methodName: string, args: seq<Expr>)
    | MethodCall(receiver: Expr, methodName: string, args: seq<Expr>)
    | Variable(variableName: string)
    | FieldAccess(value: Expr, field: string)
    | IfElse(condition: Expr, thenBranch: Expr, elseBranch: Expr)
    | Not(value: Expr)
    | Add(left: Expr, right: Expr)
    | UInt64Literal(n: U64)
    | StringLiteral(s: string)
    | BoolLiteral(b: bool)
    | Todo

  datatype FieldValue = FieldValue(name: string, value: Expr)

  datatype Program = Program(imports: seq<Import>, decls: seq<Decl>)
}
