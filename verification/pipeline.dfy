/** The driver of the transpiler (`main` in parser/main.go): it walks the
    IR document's modules, skips the standard-library and test modules,
    resolves each remaining module's declarations and dumps the type
    definitions it collected. Standard output is modelled as a list of
    events; a panic ends the run after the events already written. */
module Pipeline {
  import opened Wrappers
  import opened Json
  import opened Ast
  import opened Resolver
  import Strings

  /** What the run writes to standard output. */
  datatype Event =
      /** `fmt.Println("kind not supported: " + kind)`. */
    | KindNotSupported(kind: string)
      /** `resolveDef`'s `fmt.Println("qualifier not supported for resolving
          defs: " + qualifier)`, printed although the result is dropped. */
    | QualifierNotSupported(qualifier: string)
      /** `spew.Dump(declarations)` at the end of a module. */
    | Dump(declarations: seq<Decl>)

  /** The lines printed while a module's declarations are resolved. */
  type Message = e: Event | !e.Dump? witness KindNotSupported("")

  /** The output of a run and, if it panicked, why. */
  datatype Outcome = Outcome(events: seq<Event>, failure: Option<Failure>)

  /** What the declaration loop does with one entry: collect a type
      definition, pass over it, or print a line saying it is unsupported. */
  datatype Step = Collect(name: string, typ: Type) | Ignore | Report(message: Message)

  /** The declaration kinds the loop knows. */
  const KnownKinds: set<string> := {"typedef", "import", "def"}

  /** The qualifiers `resolveDef` resolves. */
  const ResolvedQualifiers: set<string> := {"pureval", "puredef"}

  /** The string `kind` of a declaration entry, if it has one. */
  function KindOf(d: Json): Option<string>
  {
    match Get(d, "kind")
    case Some(JString(kind)) => Some(kind)
    case _ => None
  }

  /** The string `qualifier` of a definition entry, if it has one. */
  function QualifierOf(d: Json): Option<string>
  {
    match Get(d, "qualifier")
    case Some(JString(qualifier)) => Some(qualifier)
    case _ => None
  }

  /** Reference definition: the line an entry of a loop that gets past it
      makes the run print. An unknown kind is reported by the loop; a
      definition with a qualifier `resolveDef` does not resolve is reported
      by `resolveDef`. */
  function MessageOf(d: Json): seq<Message>
  {
    match KindOf(d)
    case None => []
    case Some(kind) =>
      if kind !in KnownKinds then [KindNotSupported(kind)]
      else if kind == "def" && QualifierOf(d).Some? && QualifierOf(d).value !in ResolvedQualifiers then
        [QualifierNotSupported(QualifierOf(d).value)]
      else []
  }

  /** The line a turn prints, if any. */
  function Printed(step: Step): seq<Message>
  {
    if step.Report? then [step.message] else []
  }

  /** One turn of the declaration loop. */
  function ResolveDeclaration(d: Json): (r: Result<Step, Failure>)
    ensures !d.JObject? ==> r == Err(BadShape("declarations"))
    ensures d.JObject? && KindOf(d).None? ==> r == Err(BadShape("kind"))
    ensures r.Ok? ==> KindOf(d).Some?
    ensures r.Ok? ==> (r.value.Collect? <==> KindOf(d) == Some("typedef"))
    ensures r.Ok? && KindOf(d).value !in KnownKinds ==> r.value == Report(KindNotSupported(KindOf(d).value))
    ensures r.Ok? ==> Printed(r.value) == MessageOf(d)
  {
    if !d.JObject? then Err(BadShape("declarations"))
    else
      var kind :- GetString(d, "kind");
      if kind == "typedef" then
        var name :- GetString(d, "name");
        var typeJson :- GetObject(d, "type");
        var typ :- ResolveType(typeJson);
        Ok(Collect(name, typ))
      else if kind == "import" then
        Ok(Ignore)
      else if kind == "def" then
        var qualifier :- GetString(d, "qualifier");
        var resolved :- ResolveDef(d);
        if resolved.Some? then Ok(Ignore) else Ok(Report(QualifierNotSupported(qualifier)))
      else
        Ok(Report(KindNotSupported(kind)))
  }

  /** A type definition is collected under its name with its resolved type. */
  lemma {:induction false} DeclarationTypedef(d: Json)
    requires d.JObject? && KindOf(d) == Some("typedef")
    ensures ResolveDeclaration(d).Ok? <==>
              && GetString(d, "name").Ok?
              && GetObject(d, "type").Ok?
              && ResolveType(GetObject(d, "type").value).Ok?
    ensures ResolveDeclaration(d).Ok? ==>
              ResolveDeclaration(d).value ==
                Collect(GetString(d, "name").value, ResolveType(GetObject(d, "type").value).value)
  {
  }

  /** A definition is resolved for its panics and its message only: the
      declaration it resolves to is dropped, and a qualifier `resolveDef`
      does not resolve is printed. */
  lemma {:induction false} DeclarationDef(d: Json)
    requires d.JObject? && KindOf(d) == Some("def")
    ensures ResolveDef(d).Err? ==> ResolveDeclaration(d) == Err(ResolveDef(d).error)
    ensures ResolveDef(d).Ok? ==> QualifierOf(d).Some?
    ensures ResolveDef(d).Ok? && QualifierOf(d).value in ResolvedQualifiers ==> ResolveDeclaration(d) == Ok(Ignore)
    ensures ResolveDef(d).Ok? && QualifierOf(d).value !in ResolvedQualifiers ==>
              ResolveDeclaration(d) == Ok(Report(QualifierNotSupported(QualifierOf(d).value)))
  {
  }

  /** An import, and any kind the loop does not know, never aborts. */
  lemma {:induction false} DeclarationOther(d: Json, kind: string)
    requires d.JObject? && KindOf(d) == Some(kind) && kind != "typedef" && kind != "def"
    ensures kind == "import" ==> ResolveDeclaration(d) == Ok(Ignore)
    ensures kind != "import" ==> ResolveDeclaration(d) == Ok(Report(KindNotSupported(kind)))
  {
  }

  /** The declaration loop of one module: the collected declarations, the
      lines printed on the way and the panic that ended it. */
  datatype DeclRun = DeclRun(declarations: seq<Decl>, reports: seq<Message>, failure: Option<Failure>)

  /** The loop's bookkeeping for one turn: a panic ends the loop with
      nothing more written; otherwise the turn's result goes in front of what
      the rest of the loop does. */
  function Continue(turn: Result<Step, Failure>, rest: DeclRun): DeclRun
  {
    match turn
    case Err(e) => DeclRun([], [], Some(e))
    case Ok(Collect(name, typ)) => DeclRun([TypeDecl(name, typ)] + rest.declarations, rest.reports, rest.failure)
    case Ok(Ignore) => rest
    case Ok(Report(message)) => DeclRun(rest.declarations, [message] + rest.reports, rest.failure)
  }

  /** The declaration loop over the results of its turns, in order. */
  function RunSteps(turns: seq<Result<Step, Failure>>): (r: DeclRun)
    ensures |r.declarations| <= |turns| && |r.reports| <= |turns|
    ensures forall i | 0 <= i < |r.declarations| :: r.declarations[i].TypeDecl?
  {
    if |turns| == 0 then DeclRun([], [], None) else Continue(turns[0], RunSteps(turns[1..]))
  }

  /** The results of the loop's turns, one per entry. */
  function Turns(ds: seq<Json>): (r: seq<Result<Step, Failure>>)
    ensures |r| == |ds|
  {
    seq(|ds|, i requires 0 <= i < |ds| => ResolveDeclaration(ds[i]))
  }

  /** The loop over `moduleMap["declarations"]`. */
  function ResolveDeclarations(ds: seq<Json>): DeclRun
  {
    RunSteps(Turns(ds))
  }

  /** The loop takes its entries one at a time, from the front. */
  lemma {:induction false} DeclarationsUnroll(ds: seq<Json>)
    requires |ds| > 0
    ensures ResolveDeclarations(ds) == Continue(ResolveDeclaration(ds[0]), ResolveDeclarations(ds[1..]))
  {
    assert Turns(ds)[1..] == Turns(ds[1..]);
  }

  /** Once a prefix of turns is done without a panic, the loop continues
      with the rest: collections and reports are concatenated. */
  lemma {:induction false} RunStepsAppend(s: seq<Result<Step, Failure>>, t: seq<Result<Step, Failure>>)
    requires RunSteps(s).failure.None?
    ensures var rs, rt := RunSteps(s), RunSteps(t);
            RunSteps(s + t) == DeclRun(rs.declarations + rt.declarations, rs.reports + rt.reports, rt.failure)
  {
    if |s| == 0 {
      assert s + t == t;
    } else {
      assert (s + t)[0] == s[0];
      assert (s + t)[1..] == s[1..] + t;
      RunStepsAppend(s[1..], t);
    }
  }

  /** Reference definitions: the entries of a successful loop that are type
      definitions, and the lines its entries print, in order. */
  function Typedefs(ds: seq<Json>): seq<Json>
  {
    if |ds| == 0 then []
    else (if KindOf(ds[0]) == Some("typedef") then [ds[0]] else []) + Typedefs(ds[1..])
  }

  function Messages(ds: seq<Json>): seq<Message>
  {
    if |ds| == 0 then [] else MessageOf(ds[0]) + Messages(ds[1..])
  }

  /** The loop runs to its end exactly when every entry resolves. */
  lemma {:induction false} DeclarationsSucceed(ds: seq<Json>)
    ensures ResolveDeclarations(ds).failure.None? <==>
              forall i | 0 <= i < |ds| :: ResolveDeclaration(ds[i]).Ok?
  {
    if |ds| > 0 {
      DeclarationsUnroll(ds);
      DeclarationsSucceed(ds[1..]);
      assert forall i | 1 <= i < |ds| :: ds[i] == ds[1..][i - 1];
    }
  }

  /** A successful loop collects one type declaration per type definition,
      in order, each resolved from its entry, and prints exactly the
      entries' messages, in order. */
  lemma {:induction false} DeclarationsCollectTypedefs(ds: seq<Json>)
    requires ResolveDeclarations(ds).failure.None?
    ensures var run := ResolveDeclarations(ds);
            && |run.declarations| == |Typedefs(ds)|
            && (forall i | 0 <= i < |run.declarations| ::
                  ResolveDeclaration(Typedefs(ds)[i]) == Ok(Collect(run.declarations[i].name, run.declarations[i].typ)))
            && run.reports == Messages(ds)
  {
    if |ds| > 0 {
      DeclarationsUnroll(ds);
      var step := ResolveDeclaration(ds[0]).value;
      DeclarationsCollectTypedefs(ds[1..]);
      var rest := ResolveDeclarations(ds[1..]);
      var run := ResolveDeclarations(ds);
      if step.Collect? {
        assert Typedefs(ds) == [ds[0]] + Typedefs(ds[1..]);
        assert run.declarations == [TypeDecl(step.name, step.typ)] + rest.declarations;
      } else {
        assert Typedefs(ds) == Typedefs(ds[1..]);
        assert run.declarations == rest.declarations;
      }
    }
  }

  /** A panic in the loop is the first failing entry's: the lines printed
      before it are the messages of the entries before it. */
  lemma {:induction false} DeclarationsFailAtFirst(ds: seq<Json>, k: nat)
    requires k < |ds| && ResolveDeclaration(ds[k]).Err?
    requires forall i | 0 <= i < k :: ResolveDeclaration(ds[i]).Ok?
    ensures ResolveDeclarations(ds).failure == Some(ResolveDeclaration(ds[k]).error)
    ensures ResolveDeclarations(ds).reports == Messages(ds[..k])
  {
    var turns := Turns(ds);
    RunStepsFailAtFirst(turns, k);
    assert turns[..k] == Turns(ds[..k]);
    ReportedMessages(ds[..k]);
  }

  /** The lines a run of turns prints, in order. */
  function Reported(turns: seq<Result<Step, Failure>>): seq<Message>
  {
    if |turns| == 0 then []
    else (if turns[0].Ok? then Printed(turns[0].value) else []) + Reported(turns[1..])
  }

  lemma {:induction false} RunStepsFailAtFirst(turns: seq<Result<Step, Failure>>, k: nat)
    requires k < |turns| && turns[k].Err?
    requires forall i | 0 <= i < k :: turns[i].Ok?
    ensures RunSteps(turns).failure == Some(turns[k].error)
    ensures RunSteps(turns).reports == Reported(turns[..k])
  {
    if k == 0 {
      assert turns[..k] == [];
    } else {
      RunStepsFailAtFirst(turns[1..], k - 1);
      assert turns[..k][0] == turns[0];
      assert turns[1..][..k - 1] == turns[..k][1..];
    }
  }

  /** When every entry resolves, the lines printed are the entries' messages. */
  lemma {:induction false} ReportedMessages(ds: seq<Json>)
    requires forall i | 0 <= i < |ds| :: ResolveDeclaration(ds[i]).Ok?
    ensures Reported(Turns(ds)) == Messages(ds)
  {
    if |ds| > 0 {
      assert Turns(ds)[1..] == Turns(ds[1..]);
      assert forall i | 0 <= i < |ds| - 1 :: ds[1..][i] == ds[i + 1];
      ReportedMessages(ds[1..]);
      assert Turns(ds)[0] == ResolveDeclaration(ds[0]);
    }
  }

  /** The loop over `a + b`, once `a` is done without a panic, continues
      with `b`: collections and reports are concatenated. */
  lemma {:induction false} DeclarationsAppend(a: seq<Json>, b: seq<Json>)
    requires ResolveDeclarations(a).failure.None?
    ensures var ra, rb := ResolveDeclarations(a), ResolveDeclarations(b);
            ResolveDeclarations(a + b) == DeclRun(ra.declarations + rb.declarations, ra.reports + rb.reports, rb.failure)
  {
    TurnsAppend(a, b);
    RunStepsAppend(Turns(a), Turns(b));
  }

  lemma {:induction false} TurnsAppend(a: seq<Json>, b: seq<Json>)
    ensures Turns(a + b) == Turns(a) + Turns(b)
  {
    var ab := a + b;
    forall i | 0 <= i < |ab| ensures Turns(ab)[i] == (Turns(a) + Turns(b))[i] {
      if i < |a| { assert ab[i] == a[i]; } else { assert ab[i] == b[i - |a|]; }
    }
  }

  /** The modules the driver ignores: names ending in `_stdlib` or `_test`. */
  predicate ModuleSkipped(name: string)
  {
    Strings.HasSuffix(name, "_stdlib") || Strings.HasSuffix(name, "_test")
  }

  /** One turn of the module loop. */
  function ResolveModule(m: Json): (r: Outcome)
    ensures r.failure.None? ==> |r.events| == 0 || r.events[|r.events| - 1].Dump?
    ensures DumpsOnlyTypes(r.events)
  {
    if !m.JObject? then Outcome([], Some(BadShape("modules")))
    else
      match GetString(m, "name")
      case Err(e) => Outcome([], Some(e))
      case Ok(name) =>
        if ModuleSkipped(name) then Outcome([], None)
        else
          match GetArray(m, "declarations")
          case Err(e) => Outcome([], Some(e))
          case Ok(ds) =>
            var run := ResolveDeclarations(ds);
            if run.failure.None? then Outcome(run.reports + [Dump(run.declarations)], None)
            else Outcome(run.reports, run.failure)
  }

  /** A module named `<anything>_stdlib` or `<anything>_test` is passed over
      without a look at its declarations, however malformed they are. */
  lemma {:induction false} SkippedModuleSilent(m: Json, prefix: string, suffix: string)
    requires m.JObject? && suffix in {"_stdlib", "_test"}
    requires Get(m, "name") == Some(JString(prefix + suffix))
    ensures ResolveModule(m) == Outcome([], None)
  {
    Strings.HasSuffixOfAppend(prefix, suffix);
  }

  /** Any other module is resolved: its entries' messages are printed and,
      if no declaration panics, its type declarations are dumped once, in
      order. */
  lemma {:induction false} ResolvedModuleDump(m: Json, name: string, ds: seq<Json>)
    requires m.JObject? && Get(m, "name") == Some(JString(name)) && !ModuleSkipped(name)
    requires Get(m, "declarations") == Some(JArray(ds))
    ensures var r := ResolveModule(m);
            && r.failure == ResolveDeclarations(ds).failure
            && (r.failure.None? <==> forall i | 0 <= i < |ds| :: ResolveDeclaration(ds[i]).Ok?)
            && (r.failure.None? ==> r.events == Messages(ds) + [Dump(ResolveDeclarations(ds).declarations)])
            && (r.failure.Some? ==> r.events == ResolveDeclarations(ds).reports)
  {
    DeclarationsSucceed(ds);
    if ResolveDeclarations(ds).failure.None? {
      DeclarationsCollectTypedefs(ds);
    }
  }

  /** A module whose only declaration is a definition with a qualifier
      `resolveDef` does not resolve prints that qualifier, then an empty
      dump. */
  lemma UnresolvedQualifierPrinted(m: Json, d: Json)
    requires d == JObject([Member("kind", JString("def")), Member("qualifier", JString("val"))])
    requires m == JObject([Member("name", JString("M")), Member("declarations", JArray([d]))])
    ensures ResolveModule(m) == Outcome([QualifierNotSupported("val"), Dump([])], None)
  {
    assert GetString(m, "name") == Ok("M");
    assert !Strings.HasSuffix("M", "_stdlib") && !Strings.HasSuffix("M", "_test");
    assert m.members[1..] == [Member("declarations", JArray([d]))];
    assert Lookup(m.members[1..], "declarations") == Some(JArray([d]));
    assert m.members[0].key != "declarations";
    assert Get(m, "declarations") == Some(JArray([d]));
    assert ResolveDeclaration(d) == Ok(Report(QualifierNotSupported("val")));
    DeclarationsUnroll([d]);
    assert [d][1..] == [];
    assert ResolveDeclarations([]) == DeclRun([], [], None);
    assert ResolveDeclarations([d]) == DeclRun([], [QualifierNotSupported("val")], None);
  }

  /** Every dump in `events` holds type declarations only. */
  predicate DumpsOnlyTypes(events: seq<Event>)
  {
    forall i, k | 0 <= i < |events| && events[i].Dump? && 0 <= k < |events[i].declarations| ::
      events[i].declarations[k].TypeDecl?
  }

  /** The module loop over the outcomes of its turns: the output of the
      modules in order, up to the first panic. */
  function RunModules(outcomes: seq<Outcome>): (r: Outcome)
    ensures (forall i | 0 <= i < |outcomes| :: DumpsOnlyTypes(outcomes[i].events)) ==> DumpsOnlyTypes(r.events)
  {
    if |outcomes| == 0 then Outcome([], None)
    else if outcomes[0].failure.Some? then outcomes[0]
    else
      var rest := RunModules(outcomes[1..]);
      Outcome(outcomes[0].events + rest.events, rest.failure)
  }

  /** The outcomes of the module loop's turns, one per module. */
  function ModuleOutcomes(ms: seq<Json>): (r: seq<Outcome>)
    ensures |r| == |ms|
  {
    seq(|ms|, i requires 0 <= i < |ms| => ResolveModule(ms[i]))
  }

  /** The loop over `data["modules"]`. */
  function ResolveModules(ms: seq<Json>): Outcome
  {
    RunModules(ModuleOutcomes(ms))
  }

  /** Once a prefix of modules is done without a panic, the loop continues
      with the rest. */
  lemma {:induction false} RunModulesAppend(s: seq<Outcome>, t: seq<Outcome>)
    requires RunModules(s).failure.None?
    ensures RunModules(s + t) == Outcome(RunModules(s).events + RunModules(t).events, RunModules(t).failure)
  {
    if |s| == 0 {
      assert s + t == t;
    } else {
      assert (s + t)[0] == s[0];
      assert (s + t)[1..] == s[1..] + t;
      RunModulesAppend(s[1..], t);
    }
  }

  /** The module loop over `a + b`, once `a` is done without a panic,
      continues with `b`. */
  lemma {:induction false} ModulesAppend(a: seq<Json>, b: seq<Json>)
    requires ResolveModules(a).failure.None?
    ensures ResolveModules(a + b) ==
              Outcome(ResolveModules(a).events + ResolveModules(b).events, ResolveModules(b).failure)
  {
    var whole, left, right := ModuleOutcomes(a + b), ModuleOutcomes(a), ModuleOutcomes(b);
    forall i | 0 <= i < |a + b|
      ensures whole[i] == (left + right)[i]
    {
      if i < |a| {
        assert (a + b)[i] == a[i];
      } else {
        assert (a + b)[i] == b[i - |a|];
      }
    }
    assert whole == left + right;
    RunModulesAppend(ModuleOutcomes(a), ModuleOutcomes(b));
  }

  /** Everything the run dumps is a type declaration: definitions are
      resolved but never collected. */
  lemma {:induction false} ModulesDumpOnlyTypes(ms: seq<Json>)
    ensures DumpsOnlyTypes(ResolveModules(ms).events)
  {
    var outcomes := ModuleOutcomes(ms);
    forall i | 0 <= i < |outcomes|
      ensures DumpsOnlyTypes(outcomes[i].events)
    {
      assert outcomes[i] == ResolveModule(ms[i]);
    }
  }

  /** `main` after the type-table preprocessing: the module loop over
      `data["modules"]`, which must be an array. */
  function ResolveDocument(data: Json): (r: Outcome)
    ensures GetArray(data, "modules").Err? ==> r == Outcome([], Some(BadShape("modules")))
    ensures GetArray(data, "modules").Ok? ==> r == ResolveModules(GetArray(data, "modules").value)
  {
    match GetArray(data, "modules")
    case Err(e) => Outcome([], Some(e))
    case Ok(ms) => ResolveModules(ms)
  }
}
