/** The resolution half of the transpiler (parser/main.go): decoded IR JSON
    nodes become typed AST nodes. Every Go type assertion that would fail,
    the unknown-kind panic of `resolveType` and the out-of-range index of
    `resolveDef` are modelled as an `Err` result: the run aborts and nothing
    partial is returned. */
module Resolver {
  import opened Wrappers
  import opened Json
  import opened Ast
  import Strings

  /** Why resolution aborts; each is a panic in the Go code. */
  datatype Failure =
      /** `resolveType` met a `kind` outside its dispatch table. */
    | UnsupportedKind(kind: string)
      /** The value under `key` is missing or not of the asserted JSON type. */
    | BadShape(key: string)
      /** `paramTypes[index]` read past the end of a list of `length` types. */
    | IndexOutOfRange(index: nat, length: nat)

  /** The `kind` values `resolveType` accepts. */
  const TypeKinds: set<string> := {"rec", "str", "const", "list", "int", "set", "fun", "bool", "tup"}

  /** `j[key].(string)`. */
  function GetString(j: Json, key: string): (r: Result<string, Failure>)
    ensures r.Ok? <==> Get(j, key).Some? && Get(j, key).value.JString?
    ensures r.Ok? ==> Get(j, key) == Some(JString(r.value))
    ensures r.Err? ==> r.error == BadShape(key)
  {
    match Get(j, key)
    case Some(JString(s)) => Ok(s)
    case _ => Err(BadShape(key))
  }

  /** `j[key].(map[string]interface{})`. */
  function GetObject(j: Json, key: string): (r: Result<Json, Failure>)
    ensures r.Ok? <==> Get(j, key).Some? && Get(j, key).value.JObject?
    ensures r.Ok? ==> Get(j, key) == Some(r.value) && Size(r.value) < Size(j)
    ensures r.Err? ==> r.error == BadShape(key)
  {
    match Get(j, key)
    case Some(JObject(members)) => Ok(JObject(members))
    case _ => Err(BadShape(key))
  }

  /** `j[key].([]interface{})`. */
  function GetArray(j: Json, key: string): (r: Result<seq<Json>, Failure>)
    ensures r.Ok? <==> Get(j, key).Some? && Get(j, key).value.JArray?
    ensures r.Ok? ==> Get(j, key) == Some(JArray(r.value)) && ItemsSize(r.value) < Size(j)
    ensures r.Err? ==> r.error == BadShape(key)
  {
    match Get(j, key)
    case Some(JArray(items)) => Ok(items)
    case _ => Err(BadShape(key))
  }

  /** `j["fields"].(map)["fields"].([]interface{})`: the field list of a
      record or tuple type descriptor. */
  function GetFieldItems(j: Json): (r: Result<seq<Json>, Failure>)
    ensures r.Ok? ==> ItemsSize(r.value) < Size(j)
  {
    var holder :- GetObject(j, "fields");
    GetArray(holder, "fields")
  }

  /** `resolveType`: a closed dispatch on the descriptor's `kind`. */
  function ResolveType(j: Json): (r: Result<Type, Failure>)
    decreases Size(j), 1
  {
    var kind :- GetString(j, "kind");
    if kind == "rec" then
      var items :- GetFieldItems(j);
      var fields :- ResolveRecordFields(items);
      Ok(StructType(fields))
    else if kind == "str" then
      Ok(StrType)
    else if kind == "const" then
      var name :- GetString(j, "name");
      Ok(TypeRef(name, false))
    else if kind == "list" then
      var elem :- GetObject(j, "elem");
      var elementType :- ResolveType(elem);
      Ok(ListType(elementType))
    else if kind == "int" then
      Ok(UInt64Type)
    else if kind == "set" then
      var elem :- GetObject(j, "elem");
      var elementType :- ResolveType(elem);
      Ok(SetType(elementType))
    else if kind == "fun" then
      var arg :- GetObject(j, "arg");
      var argType :- ResolveType(arg);
      var res :- GetObject(j, "res");
      var returnType :- ResolveType(res);
      Ok(FunType(argType, returnType))
    else if kind == "bool" then
      Ok(BoolType)
    else if kind == "tup" then
      var items :- GetFieldItems(j);
      var types :- ResolveTupleFields(items);
      Ok(TupleType(types))
    else
      Err(UnsupportedKind(kind))
  }

  /** The loop over a record's fields: each entry is an object whose
      `fieldType` is resolved before its `fieldName` is read. */
  function ResolveRecordFields(items: seq<Json>): (r: Result<seq<Field>, Failure>)
    decreases ItemsSize(items), 0
    ensures r.Ok? ==> |r.value| == |items|
  {
    if |items| == 0 then Ok([])
    else
      ItemsSizeSplit(items);
      var item := items[0];
      if !item.JObject? then Err(BadShape("fields"))
      else
        var fieldTypeJson :- GetObject(item, "fieldType");
        var fieldType :- ResolveType(fieldTypeJson);
        var name :- GetString(item, "fieldName");
        var rest :- ResolveRecordFields(items[1..]);
        Ok([Field(name, fieldType)] + rest)
  }

  /** The loop over a tuple's fields: only each `fieldType` is used. */
  function ResolveTupleFields(items: seq<Json>): (r: Result<seq<Type>, Failure>)
    decreases ItemsSize(items), 0
    ensures r.Ok? ==> |r.value| == |items|
  {
    if |items| == 0 then Ok([])
    else
      ItemsSizeSplit(items);
      var item := items[0];
      if !item.JObject? then Err(BadShape("fields"))
      else
        var fieldTypeJson :- GetObject(item, "fieldType");
        var fieldType :- ResolveType(fieldTypeJson);
        var rest :- ResolveTupleFields(items[1..]);
        Ok([fieldType] + rest)
  }

  /** The IR `kind` each resolved type comes from. */
  function IrKind(t: Type): string
  {
    match t
    case StructType(_) => "rec"
    case StrType => "str"
    case TypeRef(_, _) => "const"
    case ListType(_) => "list"
    case UInt64Type => "int"
    case SetType(_) => "set"
    case FunType(_, _) => "fun"
    case BoolType => "bool"
    case TupleType(_) => "tup"
    case _ => ""
  }

  /** The types the resolver can produce: the image of the IR type grammar. */
  predicate IrType(t: Type)
  {
    match t
    case StructType(fields) => forall i | 0 <= i < |fields| :: IrType(fields[i].typ)
    case StrType => true
    case TypeRef(_, mutable) => !mutable
    case ListType(e) => IrType(e)
    case UInt64Type => true
    case SetType(e) => IrType(e)
    case FunType(a, r) => IrType(a) && IrType(r)
    case BoolType => true
    case TupleType(types) => forall i | 0 <= i < |types| :: IrType(types[i])
    case _ => false
  }

  /** A record entry of the IR resolves to `f`: its name is copied and its
      `fieldType` descriptor resolves to the field's type. */
  predicate FieldResolvesTo(item: Json, f: Field)
  {
    && Get(item, "fieldName") == Some(JString(f.name))
    && Get(item, "fieldType").Some?
    && Get(item, "fieldType").value.JObject?
    && ResolveType(Get(item, "fieldType").value) == Ok(f.typ)
  }

  /** A tuple entry of the IR resolves to `t`. */
  predicate ElementResolvesTo(item: Json, t: Type)
  {
    && Get(item, "fieldType").Some?
    && Get(item, "fieldType").value.JObject?
    && ResolveType(Get(item, "fieldType").value) == Ok(t)
  }

  /** `str`, `int` and `bool` map to fixed leaf types. */
  lemma {:induction false} ResolveLeafKinds(j: Json)
    ensures Get(j, "kind") == Some(JString("str")) ==> ResolveType(j) == Ok(StrType)
    ensures Get(j, "kind") == Some(JString("int")) ==> ResolveType(j) == Ok(UInt64Type)
    ensures Get(j, "kind") == Some(JString("bool")) ==> ResolveType(j) == Ok(BoolType)
  {
  }

  /** `const` is a reference by name, never mutable, with no recursion. */
  lemma {:induction false} ResolveConst(j: Json)
    requires Get(j, "kind") == Some(JString("const"))
    ensures Get(j, "name").Some? && Get(j, "name").value.JString?
            ==> ResolveType(j) == Ok(TypeRef(Get(j, "name").value.s, false))
    ensures !(Get(j, "name").Some? && Get(j, "name").value.JString?)
            ==> ResolveType(j) == Err(BadShape("name"))
  {
  }

  /** A descriptor without a string `kind` is malformed. */
  lemma {:induction false} ResolveMissingKind(j: Json)
    requires !(Get(j, "kind").Some? && Get(j, "kind").value.JString?)
    ensures ResolveType(j) == Err(BadShape("kind"))
  {
  }

  /** Any other `kind` aborts with that kind, never a partial result. */
  lemma {:induction false} ResolveUnknownKind(j: Json, kind: string)
    requires Get(j, "kind") == Some(JString(kind))
    requires kind !in TypeKinds
    ensures ResolveType(j) == Err(UnsupportedKind(kind))
  {
  }

  /** `list` and `set` wrap the resolved `elem`, and fail exactly when it does. */
  lemma {:induction false} ResolveCollection(j: Json)
    requires Get(j, "kind") == Some(JString("list")) || Get(j, "kind") == Some(JString("set"))
    ensures ResolveType(j).Ok? <==> GetObject(j, "elem").Ok? && ResolveType(GetObject(j, "elem").value).Ok?
    ensures ResolveType(j).Ok? ==>
              var e := ResolveType(GetObject(j, "elem").value).value;
              ResolveType(j).value == (if Get(j, "kind") == Some(JString("list")) then ListType(e) else SetType(e))
  {
  }

  /** `fun` maps `arg` and `res` to the argument and return types. */
  lemma {:induction false} ResolveFun(j: Json)
    requires Get(j, "kind") == Some(JString("fun"))
    ensures ResolveType(j).Ok? <==>
              && GetObject(j, "arg").Ok? && ResolveType(GetObject(j, "arg").value).Ok?
              && GetObject(j, "res").Ok? && ResolveType(GetObject(j, "res").value).Ok?
    ensures ResolveType(j).Ok? ==>
              ResolveType(j).value == FunType(ResolveType(GetObject(j, "arg").value).value,
                                              ResolveType(GetObject(j, "res").value).value)
  {
  }

  /** Each resolved record field comes from the IR entry at the same position. */
  lemma {:induction false} RecordFieldsMatch(items: seq<Json>)
    requires ResolveRecordFields(items).Ok?
    ensures |ResolveRecordFields(items).value| == |items|
    ensures forall i | 0 <= i < |items| :: FieldResolvesTo(items[i], ResolveRecordFields(items).value[i])
    decreases |items|
  {
    if |items| > 0 {
      var fields := ResolveRecordFields(items).value;
      RecordFieldsMatch(items[1..]);
      assert fields[1..] == ResolveRecordFields(items[1..]).value;
      forall i | 1 <= i < |items|
        ensures FieldResolvesTo(items[i], fields[i])
      {
        assert items[i] == items[1..][i - 1];
      }
    }
  }

  /** Each resolved tuple element comes from the IR entry at the same position. */
  lemma {:induction false} TupleFieldsMatch(items: seq<Json>)
    requires ResolveTupleFields(items).Ok?
    ensures |ResolveTupleFields(items).value| == |items|
    ensures forall i | 0 <= i < |items| :: ElementResolvesTo(items[i], ResolveTupleFields(items).value[i])
    decreases |items|
  {
    if |items| > 0 {
      var types := ResolveTupleFields(items).value;
      TupleFieldsMatch(items[1..]);
      assert types[1..] == ResolveTupleFields(items[1..]).value;
      forall i | 1 <= i < |items|
        ensures ElementResolvesTo(items[i], types[i])
      {
        assert items[i] == items[1..][i - 1];
      }
    }
  }

  /** `rec` keeps the IR's fields: same count, same order, names copied and
      types resolved recursively. */
  lemma {:induction false} ResolveRecord(j: Json)
    requires Get(j, "kind") == Some(JString("rec"))
    requires ResolveType(j).Ok?
    ensures GetFieldItems(j).Ok?
    ensures ResolveType(j).value.StructType?
    ensures |ResolveType(j).value.fields| == |GetFieldItems(j).value|
    ensures forall i | 0 <= i < |GetFieldItems(j).value| ::
              FieldResolvesTo(GetFieldItems(j).value[i], ResolveType(j).value.fields[i])
  {
    RecordFieldsMatch(GetFieldItems(j).value);
  }

  /** `tup` keeps the IR's element list: same count, same order. */
  lemma {:induction false} ResolveTuple(j: Json)
    requires Get(j, "kind") == Some(JString("tup"))
    requires ResolveType(j).Ok?
    ensures GetFieldItems(j).Ok?
    ensures ResolveType(j).value.TupleType?
    ensures |ResolveType(j).value.types| == |GetFieldItems(j).value|
    ensures forall i | 0 <= i < |GetFieldItems(j).value| ::
              ElementResolvesTo(GetFieldItems(j).value[i], ResolveType(j).value.types[i])
  {
    TupleFieldsMatch(GetFieldItems(j).value);
  }

  /** Every resolved type lies in the IR image, and its variant is the one
      the descriptor's `kind` names. */
  lemma {:induction false} ResolvedIsIr(j: Json)
    requires ResolveType(j).Ok?
    ensures IrType(ResolveType(j).value)
    ensures Get(j, "kind") == Some(JString(IrKind(ResolveType(j).value)))
    decreases Size(j), 1
  {
    var kind := GetString(j, "kind").value;
    if kind == "rec" {
      RecordFieldsIr(GetFieldItems(j).value);
    } else if kind == "list" || kind == "set" {
      ResolvedIsIr(GetObject(j, "elem").value);
    } else if kind == "fun" {
      ResolvedIsIr(GetObject(j, "arg").value);
      ResolvedIsIr(GetObject(j, "res").value);
    } else if kind == "tup" {
      TupleFieldsIr(GetFieldItems(j).value);
    }
  }

  lemma {:induction false} RecordFieldsIr(items: seq<Json>)
    requires ResolveRecordFields(items).Ok?
    ensures forall i | 0 <= i < |ResolveRecordFields(items).value| :: IrType(ResolveRecordFields(items).value[i].typ)
    decreases ItemsSize(items), 0
  {
    if |items| > 0 {
      ItemsSizeSplit(items);
      var fields := ResolveRecordFields(items).value;
      ResolvedIsIr(GetObject(items[0], "fieldType").value);
      RecordFieldsIr(items[1..]);
      assert fields[1..] == ResolveRecordFields(items[1..]).value;
    }
  }

  lemma {:induction false} TupleFieldsIr(items: seq<Json>)
    requires ResolveTupleFields(items).Ok?
    ensures forall i | 0 <= i < |ResolveTupleFields(items).value| :: IrType(ResolveTupleFields(items).value[i])
    decreases ItemsSize(items), 0
  {
    if |items| > 0 {
      ItemsSizeSplit(items);
      var types := ResolveTupleFields(items).value;
      ResolvedIsIr(GetObject(items[0], "fieldType").value);
      TupleFieldsIr(items[1..]);
      assert types[1..] == ResolveTupleFields(items[1..]).value;
    }
  }

  /** An IR type descriptor for each type of the IR image: the inverse of
      `ResolveType`. */
  function EncodeType(t: Type): (j: Json)
    requires IrType(t)
    ensures j.JObject?
  {
    match t
    case StructType(fields) => Descriptor("rec", [Member("fields", JObject([Member("fields", JArray(EncodeFields(fields)))]))])
    case StrType => Descriptor("str", [])
    case TypeRef(name, _) => Descriptor("const", [Member("name", JString(name))])
    case ListType(e) => Descriptor("list", [Member("elem", EncodeType(e))])
    case UInt64Type => Descriptor("int", [])
    case SetType(e) => Descriptor("set", [Member("elem", EncodeType(e))])
    case FunType(a, r) => Descriptor("fun", [Member("arg", EncodeType(a)), Member("res", EncodeType(r))])
    case BoolType => Descriptor("bool", [])
    case TupleType(types) => Descriptor("tup", [Member("fields", JObject([Member("fields", JArray(EncodeElements(types)))]))])
  }

  function Descriptor(kind: string, rest: seq<Member>): Json
  {
    JObject([Member("kind", JString(kind))] + rest)
  }

  function EncodeFields(fields: seq<Field>): seq<Json>
    requires forall i | 0 <= i < |fields| :: IrType(fields[i].typ)
  {
    if |fields| == 0 then []
    else
      [JObject([Member("fieldName", JString(fields[0].name)), Member("fieldType", EncodeType(fields[0].typ))])]
      + EncodeFields(fields[1..])
  }

  function EncodeElements(types: seq<Type>): seq<Json>
    requires forall i | 0 <= i < |types| :: IrType(types[i])
  {
    if |types| == 0 then []
    else [JObject([Member("fieldType", EncodeType(types[0]))])] + EncodeElements(types[1..])
  }

  lemma {:induction false} DescriptorLookups(kind: string, rest: seq<Member>, key: string)
    ensures Get(Descriptor(kind, rest), "kind") == Some(JString(kind))
    ensures key != "kind" ==> Get(Descriptor(kind, rest), key) == Lookup(rest, key)
  {
    var ms := [Member("kind", JString(kind))] + rest;
    assert ms[1..] == rest;
  }

  /** The field list a record or tuple descriptor built here carries. */
  lemma {:induction false} FieldItemsOf(kind: string, items: seq<Json>)
    ensures GetFieldItems(Descriptor(kind, [Member("fields", JObject([Member("fields", JArray(items))]))])) == Ok(items)
  {
    DescriptorLookups(kind, [Member("fields", JObject([Member("fields", JArray(items))]))], "fields");
  }

  /** Round trip: resolving the descriptor of an IR type gives the type back. */
  lemma {:induction false} ResolveEncode(t: Type)
    requires IrType(t)
    ensures ResolveType(EncodeType(t)) == Ok(t)
  {
    match t
    case StructType(fields) => ResolveEncodeFields(fields); ResolveEncodeRecord(fields);
    case StrType => DescriptorLookups("str", [], "kind");
    case TypeRef(name, _) => ResolveEncodeConst(name);
    case ListType(e) => ResolveEncode(e); ResolveEncodeCollection("list", e);
    case UInt64Type => DescriptorLookups("int", [], "kind");
    case SetType(e) => ResolveEncode(e); ResolveEncodeCollection("set", e);
    case FunType(a, r) => ResolveEncode(a); ResolveEncode(r); ResolveEncodeFun(a, r);
    case BoolType => DescriptorLookups("bool", [], "kind");
    case TupleType(types) => ResolveEncodeElements(types); ResolveEncodeTuple(types);
  }

  lemma {:induction false} ResolveEncodeRecord(fields: seq<Field>)
    requires forall i | 0 <= i < |fields| :: IrType(fields[i].typ)
    requires ResolveRecordFields(EncodeFields(fields)) == Ok(fields)
    ensures ResolveType(EncodeType(StructType(fields))) == Ok(StructType(fields))
  {
    var j := EncodeType(StructType(fields));
    var rest := [Member("fields", JObject([Member("fields", JArray(EncodeFields(fields)))]))];
    assert j == Descriptor("rec", rest);
    DescriptorLookups("rec", rest, "kind");
    assert GetString(j, "kind") == Ok("rec");
    FieldItemsOf("rec", EncodeFields(fields));
    assert GetFieldItems(j) == Ok(EncodeFields(fields));
  }

  lemma {:induction false} ResolveEncodeTuple(types: seq<Type>)
    requires forall i | 0 <= i < |types| :: IrType(types[i])
    requires ResolveTupleFields(EncodeElements(types)) == Ok(types)
    ensures ResolveType(EncodeType(TupleType(types))) == Ok(TupleType(types))
  {
    var j := EncodeType(TupleType(types));
    var rest := [Member("fields", JObject([Member("fields", JArray(EncodeElements(types)))]))];
    assert j == Descriptor("tup", rest);
    DescriptorLookups("tup", rest, "kind");
    assert GetString(j, "kind") == Ok("tup");
    FieldItemsOf("tup", EncodeElements(types));
    assert GetFieldItems(j) == Ok(EncodeElements(types));
  }

  lemma {:induction false} ResolveEncodeConst(name: string)
    ensures ResolveType(EncodeType(TypeRef(name, false))) == Ok(TypeRef(name, false))
  {
    var j := EncodeType(TypeRef(name, false));
    assert j == Descriptor("const", [Member("name", JString(name))]);
    DescriptorLookups("const", [Member("name", JString(name))], "name");
    assert GetString(j, "kind") == Ok("const");
    assert GetString(j, "name") == Ok(name);
  }

  lemma {:induction false} ResolveEncodeCollection(kind: string, e: Type)
    requires kind == "list" || kind == "set"
    requires IrType(e)
    requires ResolveType(EncodeType(e)) == Ok(e)
    ensures kind == "list" ==> ResolveType(EncodeType(ListType(e))) == Ok(ListType(e))
    ensures kind == "set" ==> ResolveType(EncodeType(SetType(e))) == Ok(SetType(e))
  {
    var t := if kind == "list" then ListType(e) else SetType(e);
    var j := EncodeType(t);
    assert j == Descriptor(kind, [Member("elem", EncodeType(e))]);
    DescriptorLookups(kind, [Member("elem", EncodeType(e))], "elem");
    assert GetString(j, "kind") == Ok(kind);
    assert GetObject(j, "elem") == Ok(EncodeType(e));
  }

  lemma {:induction false} ResolveEncodeFun(a: Type, r: Type)
    requires IrType(a) && IrType(r)
    requires ResolveType(EncodeType(a)) == Ok(a)
    requires ResolveType(EncodeType(r)) == Ok(r)
    ensures ResolveType(EncodeType(FunType(a, r))) == Ok(FunType(a, r))
  {
    var j := EncodeType(FunType(a, r));
    var rest := [Member("arg", EncodeType(a)), Member("res", EncodeType(r))];
    assert j == Descriptor("fun", rest);
    DescriptorLookups("fun", rest, "arg");
    DescriptorLookups("fun", rest, "res");
    assert rest[1..] == [Member("res", EncodeType(r))];
    assert GetObject(j, "arg") == Ok(EncodeType(a));
    assert GetObject(j, "res") == Ok(EncodeType(r));
    ResolveFun(j);
  }

  /** The IR entry built for one record field resolves to that field. */
  lemma {:induction false} EncodedFieldResolves(f: Field)
    requires IrType(f.typ)
    ensures var item := JObject([Member("fieldName", JString(f.name)), Member("fieldType", EncodeType(f.typ))]);
            GetObject(item, "fieldType") == Ok(EncodeType(f.typ)) && GetString(item, "fieldName") == Ok(f.name)
  {
    var ms := [Member("fieldName", JString(f.name)), Member("fieldType", EncodeType(f.typ))];
    assert ms[1..] == [Member("fieldType", EncodeType(f.typ))];
    assert Lookup(ms, "fieldType") == Some(EncodeType(f.typ));
  }

  lemma {:induction false} ResolveEncodeFields(fields: seq<Field>)
    requires forall i | 0 <= i < |fields| :: IrType(fields[i].typ)
    ensures ResolveRecordFields(EncodeFields(fields)) == Ok(fields)
  {
    if |fields| > 0 {
      var items := EncodeFields(fields);
      ResolveEncode(fields[0].typ);
      EncodedFieldResolves(fields[0]);
      ResolveEncodeFields(fields[1..]);
      assert items[1..] == EncodeFields(fields[1..]);
      assert [fields[0]] + fields[1..] == fields;
    }
  }

  lemma {:induction false} ResolveEncodeElements(types: seq<Type>)
    requires forall i | 0 <= i < |types| :: IrType(types[i])
    ensures ResolveTupleFields(EncodeElements(types)) == Ok(types)
  {
    if |types| > 0 {
      var items := EncodeElements(types);
      ResolveEncode(types[0]);
      ResolveEncodeElements(types[1..]);
      assert items[1..] == EncodeElements(types[1..]);
      assert [types[0]] + types[1..] == types;
    }
  }

  /** `resolveExpr`: a stub that ignores the IR expression. */
  function ResolveExpr(e: Json): Expr
  {
    Block([])
  }

  /** The stub yields the same empty block for every expression. */
  lemma {:induction false} ResolveExprIsEmptyBlock(e: Json)
    ensures ResolveExpr(e).Block? && ResolveExpr(e).statements == []
  {
  }

  /** The loop over `expr.params`: each entry is an object with a string `name`. */
  function ParamNames(items: seq<Json>): (r: Result<seq<string>, Failure>)
    ensures r.Ok? ==> |r.value| == |items|
    ensures r.Ok? ==> forall i | 0 <= i < |items| :: Get(items[i], "name") == Some(JString(r.value[i]))
    ensures r.Ok? <==> forall i | 0 <= i < |items| :: GetString(items[i], "name").Ok?
  {
    if |items| == 0 then Ok([])
    else
      var name :- GetString(items[0], "name");
      var rest :- ParamNames(items[1..]);
      assert forall i | 1 <= i < |items| :: items[i] == items[1..][i - 1];
      Ok([name] + rest)
  }

  /** The loop over `typeAnnotation.args`: each entry is resolved as a type. */
  function ResolveTypes(items: seq<Json>): (r: Result<seq<Type>, Failure>)
    ensures r.Ok? ==> |r.value| == |items|
    ensures r.Ok? ==> forall i | 0 <= i < |items| :: items[i].JObject? && ResolveType(items[i]) == Ok(r.value[i])
    ensures r.Ok? <==> forall i | 0 <= i < |items| :: items[i].JObject? && ResolveType(items[i]).Ok?
  {
    if |items| == 0 then Ok([])
    else if !items[0].JObject? then Err(BadShape("args"))
    else
      var t :- ResolveType(items[0]);
      var rest :- ResolveTypes(items[1..]);
      assert forall i | 1 <= i < |items| :: items[i] == items[1..][i - 1];
      Ok([t] + rest)
  }

  /** The construction loop `params[i] = Param{names[i], types[i], false}`:
      it reads `types[i]` for every name, so a short type list panics at
      the first missing index. */
  function ZipParams(names: seq<string>, types: seq<Type>): (r: Result<seq<Param>, Failure>)
    ensures r.Ok? <==> |names| <= |types|
    ensures r.Ok? ==> |r.value| == |names|
    ensures r.Ok? ==> forall i | 0 <= i < |names| :: r.value[i] == Param(names[i], types[i], false)
    ensures r.Err? ==> r.error == IndexOutOfRange(|types|, |types|)
  {
    if |types| < |names| then Err(IndexOutOfRange(|types|, |types|))
    else Ok(seq(|names|, i requires 0 <= i < |names| => Param(names[i], types[i], false)))
  }

  /** Parameter names and types and the return type of a `puredef`. */
  datatype Signature = Signature(names: seq<string>, types: seq<Type>, returnType: Type)

  /** The two shapes of a `puredef`: without `expr.params` the whole
      `typeAnnotation` is the return type; with them the names come from
      `expr.params`, the types from `typeAnnotation.args` and the return
      type from `typeAnnotation.res`. */
  function ResolveSignature(d: Json, expr: Json): Result<Signature, Failure>
  {
    if IsNil(expr, "params") then
      var annotation :- GetObject(d, "typeAnnotation");
      var returnType :- ResolveType(annotation);
      Ok(Signature([], [], returnType))
    else
      var paramItems :- GetArray(expr, "params");
      var names :- ParamNames(paramItems);
      var annotation :- GetObject(d, "typeAnnotation");
      var argItems :- GetArray(annotation, "args");
      var types :- ResolveTypes(argItems);
      var res :- GetObject(annotation, "res");
      var returnType :- ResolveType(res);
      Ok(Signature(names, types, returnType))
  }

  /** `resolveDef`: a dispatch on `qualifier`. A `pureval` is a constant,
      a `puredef` a function; any other qualifier resolves to nothing. */
  function ResolveDef(d: Json): Result<Option<Decl>, Failure>
  {
    var qualifier :- GetString(d, "qualifier");
    if qualifier == "pureval" then
      var name :- GetString(d, "name");
      var expr :- GetObject(d, "expr");
      Ok(Some(ConstDecl(name, None, ResolveExpr(expr))))
    else if qualifier == "puredef" then
      var f :- ResolvePuredef(d);
      Ok(Some(f))
    else
      Ok(None)
  }

  /** The `puredef` branch of `resolveDef`: the signature is resolved, the
      parameters are built, and only then is the name read. */
  function ResolvePuredef(d: Json): Result<Decl, Failure>
  {
    var expr :- GetObject(d, "expr");
    var signature :- ResolveSignature(d, expr);
    var params :- ZipParams(signature.names, signature.types);
    var body := ResolveExpr(expr);
    var name :- GetString(d, "name");
    Ok(FunctionDecl(name, params, signature.returnType, body.statements))
  }

  /** Qualifiers other than `pureval` and `puredef` yield no declaration. */
  lemma {:induction false} ResolveDefOtherQualifier(d: Json, qualifier: string)
    requires Get(d, "qualifier") == Some(JString(qualifier))
    requires qualifier != "pureval" && qualifier != "puredef"
    ensures ResolveDef(d) == Ok(None)
  {
  }

  /** A `pureval` becomes a constant named after the definition, with no
      type and the stub's empty value. */
  lemma {:induction false} ResolveDefPureval(d: Json)
    requires Get(d, "qualifier") == Some(JString("pureval"))
    ensures ResolveDef(d).Ok? <==> GetString(d, "name").Ok? && GetObject(d, "expr").Ok?
    ensures ResolveDef(d).Ok? ==> ResolveDef(d).value == Some(ConstDecl(GetString(d, "name").value, None, Block([])))
  {
  }

  /** A `puredef` resolves to the function its branch builds, or aborts
      with that branch's failure. */
  lemma {:induction false} ResolveDefPuredef(d: Json)
    requires Get(d, "qualifier") == Some(JString("puredef"))
    ensures ResolvePuredef(d).Ok? ==> ResolveDef(d) == Ok(Some(ResolvePuredef(d).value))
    ensures ResolvePuredef(d).Err? ==> ResolveDef(d) == Err(ResolvePuredef(d).error)
  {
  }

  /** A `puredef` whose `expr` has no `params` is a function with no
      parameters whose return type is the whole type annotation. */
  lemma {:induction false} PuredefWithoutParams(d: Json, f: Decl)
    requires GetObject(d, "expr").Ok? && IsNil(GetObject(d, "expr").value, "params")
    requires ResolvePuredef(d) == Ok(f)
    ensures GetObject(d, "typeAnnotation").Ok?
    ensures f.FunctionDecl?
    ensures Get(d, "name") == Some(JString(f.name))
    ensures f.params == []
    ensures ResolveType(GetObject(d, "typeAnnotation").value) == Ok(f.returnType)
    ensures f.body == []
  {
  }

  /** The parameter and argument-type lists of a `puredef` with parameters. */
  function ParamItems(d: Json): seq<Json>
  {
    var expr := GetObject(d, "expr");
    if expr.Ok? && GetArray(expr.value, "params").Ok? then GetArray(expr.value, "params").value else []
  }

  function ArgItems(d: Json): seq<Json>
  {
    var annotation := GetObject(d, "typeAnnotation");
    if annotation.Ok? && GetArray(annotation.value, "args").Ok? then GetArray(annotation.value, "args").value else []
  }

  /** The signature of a `puredef` with parameters. */
  lemma {:induction false} SignatureWithParams(d: Json)
    requires GetObject(d, "expr").Ok? && !IsNil(GetObject(d, "expr").value, "params")
    requires ResolveSignature(d, GetObject(d, "expr").value).Ok?
    ensures var signature := ResolveSignature(d, GetObject(d, "expr").value).value;
            && ParamNames(ParamItems(d)) == Ok(signature.names)
            && ResolveTypes(ArgItems(d)) == Ok(signature.types)
            && GetObject(d, "typeAnnotation").Ok?
            && GetObject(GetObject(d, "typeAnnotation").value, "res").Ok?
            && ResolveType(GetObject(GetObject(d, "typeAnnotation").value, "res").value) == Ok(signature.returnType)
  {
    var expr := GetObject(d, "expr").value;
    assert GetArray(expr, "params").Ok?;
    assert ParamItems(d) == GetArray(expr, "params").value;
    var annotation := GetObject(d, "typeAnnotation").value;
    assert GetArray(annotation, "args").Ok?;
    assert ArgItems(d) == GetArray(annotation, "args").value;
  }

  /** A `puredef` with parameters: one parameter per name, in order, each
      with the type resolved from the argument type at the same position,
      none of them mutable; the return type is `typeAnnotation.res`. It
      resolves only if there are at least as many argument types as names. */
  lemma {:induction false} PuredefWithParams(d: Json, f: Decl)
    requires GetObject(d, "expr").Ok? && !IsNil(GetObject(d, "expr").value, "params")
    requires ResolvePuredef(d) == Ok(f)
    ensures |ArgItems(d)| >= |ParamItems(d)|
    ensures f.FunctionDecl?
    ensures Get(d, "name") == Some(JString(f.name))
    ensures |f.params| == |ParamItems(d)|
    ensures ParamsResolveFrom(ParamItems(d), ArgItems(d), f.params)
    ensures ResolveType(GetObject(GetObject(d, "typeAnnotation").value, "res").value) == Ok(f.returnType)
    ensures f.body == []
  {
    var expr := GetObject(d, "expr").value;
    var signature := ResolveSignature(d, expr).value;
    SignatureWithParams(d);
    var names, types := signature.names, signature.types;
    assert |names| == |ParamItems(d)|;
    assert |types| == |ArgItems(d)|;
    var params := ZipParams(names, types).value;
    assert f == FunctionDecl(GetString(d, "name").value, params, signature.returnType, []);
    ZippedParams(ParamItems(d), ArgItems(d), names, types, params);
  }

  /** Each parameter carries the name of the entry at its position and the
      type resolved from the argument type there, and is not mutable. */
  predicate ParamsResolveFrom(items: seq<Json>, argItems: seq<Json>, params: seq<Param>)
  {
    && |params| == |items| <= |argItems|
    && forall i | 0 <= i < |params| ::
         && Get(items[i], "name") == Some(JString(params[i].name))
         && ResolveType(argItems[i]) == Ok(params[i].typ)
         && !params[i].mutable
  }

  /** The construction loop builds parameters that resolve from their entries. */
  lemma {:induction false} ZippedParams(items: seq<Json>, argItems: seq<Json>, names: seq<string>, types: seq<Type>, params: seq<Param>)
    requires ParamNames(items) == Ok(names) && ResolveTypes(argItems) == Ok(types)
    requires ZipParams(names, types) == Ok(params)
    ensures ParamsResolveFrom(items, argItems, params)
  {
  }

  /** With fewer argument types than parameter names the construction loop
      indexes past the end of the types and the run aborts. */
  lemma {:induction false} PuredefTooFewTypes(d: Json)
    requires GetObject(d, "expr").Ok? && !IsNil(GetObject(d, "expr").value, "params")
    requires ResolveSignature(d, GetObject(d, "expr").value).Ok?
    requires |ArgItems(d)| < |ParamItems(d)|
    ensures ResolvePuredef(d) == Err(IndexOutOfRange(|ArgItems(d)|, |ArgItems(d)|))
  {
    SignatureWithParams(d);
    var expr := GetObject(d, "expr").value;
    var signature := ResolveSignature(d, expr).value;
    assert |signature.names| == |ParamItems(d)|;
    assert |signature.types| == |ArgItems(d)|;
    assert ZipParams(signature.names, signature.types) == Err(IndexOutOfRange(|ArgItems(d)|, |ArgItems(d)|));
  }
}
