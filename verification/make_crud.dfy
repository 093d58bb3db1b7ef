/**
 * The `make:crud` command: it reads the model name, the field list and
 * the relationship options, then runs the generators one after another,
 * reporting each one's result.
 */
module MakeCrud {
  import opened Wrappers
  import opened PhpStrings
  import opened Template
  import opened Laravel
  import opened FieldParser
  import opened FileSystem
  import opened BaseGenerator
  import ModelGenerator
  import MigrationGenerator
  import RequestGenerator
  import ControllerGenerator
  import ViewGenerator
  import RouteGenerator
  import TestGenerator

  /** The command line: the name argument and the options the command reads. */
  datatype Invocation = Invocation(
    name: string,
    fieldsOption: Option<string>,
    softDelete: bool,
    auth: bool,
    api: bool,
    belongsTo: seq<string>,
    hasMany: seq<string>,
    tests: bool,
    pest: bool)

  /**
   * `parseModelName`: a name holding `/` is cut at every `/`; the last
   * piece is the model and the others, joined by `\`, the namespace. A
   * name without `/` is the model itself, with the empty namespace.
   */
  function ModelNameParts(name: string): (r: (string, string))
    ensures '/' !in r.0
    ensures '/' !in name ==> r == (name, "")
    ensures '/' in name ==> r.1 == Join(Split(name, '/')[..|Split(name, '/')| - 1], "\\")
  {
    if '/' in name then
      var parts := Split(name, '/');
      (parts[|parts| - 1], Join(parts[..|parts| - 1], "\\"))
    else (name, "")
  }

  /** A name holding `/` splits into at least two pieces. */
  lemma SlashSplits(name: string)
    requires '/' in name
    ensures |Split(name, '/')| >= 2
  {
    JoinSplit(name, '/');
    SplitChars(name, '/');
  }

  /**
   * When no piece holds a `\`, converting the namespace's `\` back to `/`
   * and appending `/` and the model gives the name back.
   */
  lemma ModelNameRoundTrip(name: string)
    requires '/' in name && '\\' !in name
    ensures var (model, namespace) := ModelNameParts(name);
      ReplaceAll(namespace, "\\", "/") + "/" + model == name
  {
    var parts := Split(name, '/');
    SlashSplits(name);
    var n := |parts| - 1;
    SplitChars(name, '/');
    assert forall i :: 0 <= i < n ==> '\\' !in parts[..n][i] by {
      forall i | 0 <= i < n ensures '\\' !in parts[..n][i] {
        assert parts[..n][i] == parts[i];
      }
    }
    ReplaceJoin(parts[..n], '\\', '/');
    JoinSnoc(parts[..n], parts[n], "/");
    assert parts[..n] + [parts[n]] == parts;
    JoinSplit(name, '/');
  }

  /** The `{type, model}` entries of one relationship option, in the order given. */
  function Tagged(kind: RelationKind, models: seq<string>): (r: seq<Relationship>)
    ensures |r| == |models|
    ensures forall i :: 0 <= i < |r| ==> r[i] == Relationship(kind, models[i])
  {
    seq(|models|, i requires 0 <= i < |models| => Relationship(kind, models[i]))
  }

  /** The relationships `parseRelationships` adds: all `belongsTo` entries, then all `hasMany` entries. */
  function RelationshipsOf(inv: Invocation): seq<Relationship>
  {
    Tagged(BelongsTo, inv.belongsTo) + Tagged(HasMany, inv.hasMany)
  }

  /** The targets of a run of entries of one kind. */
  lemma {:induction false} TaggedTargets(kind: RelationKind, models: seq<string>)
    ensures BelongsToTargets(Tagged(kind, models)) == (if kind == BelongsTo then models else [])
    decreases |models|
  {
    if |models| > 0 {
      var n := |models| - 1;
      TaggedTargets(kind, models[..n]);
      assert Tagged(kind, models)[..n] == Tagged(kind, models[..n]);
    } else {
      assert Tagged(kind, models) == [];
    }
  }

  /** The targets of entries laid end to end. */
  lemma {:induction false} TargetsAppend(a: seq<Relationship>, b: seq<Relationship>)
    ensures BelongsToTargets(a + b) == BelongsToTargets(a) + BelongsToTargets(b)
    decreases |b|
  {
    if |b| > 0 {
      var n := |b| - 1;
      TargetsAppend(a, b[..n]);
      assert (a + b)[..|a| + n] == a + b[..n];
      assert (a + b)[|a| + n] == b[n];
    } else {
      assert a + b == a;
    }
  }

  /**
   * The `belongsTo` targets the generators see (foreign keys, relation
   * methods, select inputs) are exactly the `--belongsTo` values, in the
   * order given, whatever `--hasMany` holds.
   */
  lemma BelongsToFromOptions(inv: Invocation)
    ensures BelongsToTargets(RelationshipsOf(inv)) == inv.belongsTo
  {
    TargetsAppend(Tagged(BelongsTo, inv.belongsTo), Tagged(HasMany, inv.hasMany));
    TaggedTargets(BelongsTo, inv.belongsTo);
    TaggedTargets(HasMany, inv.hasMany);
  }

  /** The steps of `generateFiles`. */
  datatype Step = ModelStep | MigrationStep | RequestsStep | ControllerStep | ViewsStep | RoutesStep | TestsStep

  /** Whether tests are generated: `--tests` or `--pest`. */
  predicate WithTests(inv: Invocation)
  {
    inv.tests || inv.pest
  }

  /** The first four steps, which every complete run has. */
  const BackendPlan: seq<Step> := [ModelStep, MigrationStep, RequestsStep, ControllerStep]

  /** The remaining steps: the views unless in API mode, the routes, the tests when asked for. */
  function FrontendPlan(inv: Invocation): seq<Step>
  {
    (if !inv.api then [ViewsStep] else []) + [RoutesStep] + (if WithTests(inv) then [TestsStep] else [])
  }

  /** The steps run, in order. */
  function Plan(inv: Invocation): (r: seq<Step>)
    ensures |r| == 5 + (if inv.api then 0 else 1) + (if WithTests(inv) then 1 else 0)
    ensures r[..4] == BackendPlan && r[4..] == FrontendPlan(inv)
    ensures ViewsStep in r <==> !inv.api
    ensures TestsStep in r <==> WithTests(inv)
    ensures r[|r| - 1] == (if WithTests(inv) then TestsStep else RoutesStep)
  {
    BackendPlan + FrontendPlan(inv)
  }

  /** A step's reported result: success, or a reported failure (a warning for the routes). */
  datatype Report = Report(step: Step, ok: bool)

  /** The steps of a run of reports. */
  function Steps(reports: seq<Report>): (r: seq<Step>)
    ensures |r| == |reports|
    ensures forall i :: 0 <= i < |r| ==> r[i] == reports[i].step
  {
    seq(|reports|, i requires 0 <= i < |reports| => reports[i].step)
  }

  lemma StepsAppend(a: seq<Report>, b: seq<Report>)
    ensures Steps(a + b) == Steps(a) + Steps(b)
  {
    assert forall i :: 0 <= i < |a| ==> (a + b)[i] == a[i];
    assert forall i :: |a| <= i < |a| + |b| ==> (a + b)[i] == b[i - |a|];
  }

  /** The test dialect: `pest` whenever `--pest` is given. */
  function TestType(inv: Invocation): (r: string)
    ensures r == "pest" <==> inv.pest
  {
    if inv.pest then "pest" else "phpunit"
  }

  /** The generator the tests step builds: the shared options plus the dialect. */
  function TestGeneratorOf(g: Generator, inv: Invocation): Generator
  {
    g.(options := g.options.(testType := Some(TestType(inv))))
  }

  /** The model's file. */
  function ModelKeys(g: Generator): set<string>
  {
    {Normalize(ModelGenerator.ModelPath(g))}
  }

  /** The migration's file. */
  function MigrationKeys(g: Generator, timestamp: string): set<string>
  {
    {Normalize(MigrationGenerator.MigrationPath(g, timestamp))}
  }

  /** The files of the store and the update request. */
  function RequestKeys(g: Generator): set<string>
  {
    {Normalize(RequestGenerator.RequestPath(g, RequestGenerator.Store))}
      + {Normalize(RequestGenerator.RequestPath(g, RequestGenerator.Update))}
  }

  /** The controller's file. */
  function ControllerKeys(g: Generator): set<string>
  {
    {Normalize(ControllerGenerator.ControllerPath(g))}
  }

  /** The files the first four steps write. */
  function BackendKeys(g: Generator, timestamp: string): set<string>
  {
    ModelKeys(g) + MigrationKeys(g, timestamp) + RequestKeys(g) + ControllerKeys(g)
  }

  /** The files of the four views. */
  function ViewKeys(g: Generator): set<string>
  {
    {Normalize(ViewGenerator.ViewFile(g, "index"))} + {Normalize(ViewGenerator.ViewFile(g, "create"))}
      + {Normalize(ViewGenerator.ViewFile(g, "edit"))} + {Normalize(ViewGenerator.ViewFile(g, "show"))}
  }

  /** The view files, unless in API mode. */
  function ViewKeysIf(g: Generator, inv: Invocation): set<string>
  {
    if !inv.api then ViewKeys(g) else {}
  }

  /** The file of the test. */
  function TestKeys(g: Generator, inv: Invocation): set<string>
  {
    {Normalize(TestGenerator.TestPath(TestGeneratorOf(g, inv)))}
  }

  /** The test file, when tests are asked for. */
  function TestKeysIf(g: Generator, inv: Invocation): set<string>
  {
    if WithTests(inv) then TestKeys(g, inv) else {}
  }

  /** The routes file. */
  function RouteKeys(g: Generator): set<string>
  {
    {Normalize(RouteGenerator.RouteFilePath(g))}
  }

  /** The files a complete run creates (or overwrites). */
  function Artifacts(g: Generator, inv: Invocation, timestamp: string): set<string>
  {
    BackendKeys(g, timestamp) + (ViewKeysIf(g, inv) + TestKeysIf(g, inv))
  }

  /** Every key a run may touch: the artifacts and the routes file. */
  function Written(g: Generator, inv: Invocation, timestamp: string): set<string>
  {
    BackendKeys(g, timestamp) + (ViewKeysIf(g, inv) + RouteKeys(g) + TestKeysIf(g, inv))
  }

  /** Whether `after` keeps every file of `before` and differs from it only at the given keys. */
  predicate ChangedOnly(before: map<string, string>, after: map<string, string>, keys: set<string>)
  {
    && before.Keys <= after.Keys
    && (forall k :: k in after && (k !in before || after[k] != before[k]) ==> k in keys)
  }

  /** Whether `after` differs from `before` only at the given keys, and holds a file at each of them. */
  predicate Wrote(before: map<string, string>, after: map<string, string>, keys: set<string>)
  {
    ChangedOnly(before, after, keys) && keys <= after.Keys
  }

  /** Changes at `k1` followed by changes at `k2` are changes at their union. */
  lemma ChangedOnlyTrans(a: map<string, string>, b: map<string, string>, c: map<string, string>,
                         k1: set<string>, k2: set<string>)
    requires ChangedOnly(a, b, k1) && ChangedOnly(b, c, k2)
    ensures ChangedOnly(a, c, k1 + k2)
  {
    forall k | k in c && (k !in a || c[k] != a[k])
      ensures k in k1 + k2
    {
      if k !in k2 {
        assert k in b && c[k] == b[k];
      }
    }
  }

  /** Writes at `k1` followed by writes at `k2` are writes at their union. */
  lemma WroteTrans(a: map<string, string>, b: map<string, string>, c: map<string, string>,
                   k1: set<string>, k2: set<string>)
    requires Wrote(a, b, k1) && Wrote(b, c, k2)
    ensures Wrote(a, c, k1 + k2)
  {
    ChangedOnlyTrans(a, b, c, k1, k2);
  }

  /** One write changes one key and keeps every file. */
  lemma PutOnly(m: map<string, string>, k: string, v: string)
    ensures Wrote(m, m[k := v], {k})
  {
  }

  /** `generateModel`: None when reading the model stub throws (nothing is written). */
  method GenerateModel(g: Generator, disk: Disk) returns (report: Option<Report>)
    modifies disk
    ensures report.Some? <==> ModelStub(old(disk.files), "model").Some?
    ensures report.None? ==> disk.files == old(disk.files)
    ensures report.Some? ==> report.value == Report(ModelStep, true) && Wrote(old(disk.files), disk.files, ModelKeys(g))
  {
    var result := ModelGenerator.Generate(g, disk);
    if result.None? {
      return None;
    }
    PutOnly(old(disk.files), Normalize(ModelGenerator.ModelPath(g)),
            ModelGenerator.ModelText(g, ModelStub(old(disk.files), "model").value));
    report := Some(Report(ModelStep, result.value.Success?));
  }

  /** `generateMigration`. */
  method GenerateMigration(g: Generator, disk: Disk, timestamp: string) returns (report: Report)
    modifies disk
    ensures report == Report(MigrationStep, true)
    ensures Wrote(old(disk.files), disk.files, MigrationKeys(g, timestamp))
  {
    var result := MigrationGenerator.Generate(g, disk, timestamp);
    PutOnly(old(disk.files), Normalize(MigrationGenerator.MigrationPath(g, timestamp)),
            MigrationGenerator.MigrationText(g, old(disk.files)));
    report := Report(MigrationStep, result.Success?);
  }

  /** `generateRequests`: the store and the update request. */
  method GenerateRequests(g: Generator, disk: Disk) returns (report: Report)
    modifies disk
    ensures report == Report(RequestsStep, true)
    ensures Wrote(old(disk.files), disk.files, RequestKeys(g))
  {
    ghost var before := disk.files;
    var result := RequestGenerator.Generate(g, disk);
    var store := Normalize(RequestGenerator.RequestPath(g, RequestGenerator.Store));
    var update := Normalize(RequestGenerator.RequestPath(g, RequestGenerator.Update));
    ghost var m := before[store := RequestGenerator.RequestText(g, before, RequestGenerator.Store)];
    PutOnly(before, store, RequestGenerator.RequestText(g, before, RequestGenerator.Store));
    PutOnly(m, update, RequestGenerator.RequestText(g, before, RequestGenerator.Update));
    WroteTrans(before, m, disk.files, {store}, {update});
    report := Report(RequestsStep, result.Success?);
  }

  /** `generateController`. */
  method GenerateController(g: Generator, disk: Disk) returns (report: Report)
    modifies disk
    ensures report == Report(ControllerStep, true)
    ensures Wrote(old(disk.files), disk.files, ControllerKeys(g))
  {
    var result := ControllerGenerator.Generate(g, disk);
    PutOnly(old(disk.files), Normalize(ControllerGenerator.ControllerPath(g)),
            ControllerGenerator.ControllerText(g, old(disk.files)));
    report := Report(ControllerStep, result.Success?);
  }

  /** `generateViews`: the four views. */
  method GenerateViews(g: Generator, disk: Disk, template: string) returns (report: Report)
    modifies disk
    ensures report == Report(ViewsStep, true)
    ensures Wrote(old(disk.files), disk.files, ViewKeys(g))
  {
    ghost var before := disk.files;
    var result := ViewGenerator.Generate(g, disk, template);
    var index := Normalize(ViewGenerator.ViewFile(g, "index"));
    var create := Normalize(ViewGenerator.ViewFile(g, "create"));
    var edit := Normalize(ViewGenerator.ViewFile(g, "edit"));
    var show := Normalize(ViewGenerator.ViewFile(g, "show"));
    ghost var m1 := before[index := ViewGenerator.IndexView(g, before, template)];
    ghost var m2 := m1[create := ViewGenerator.CreateView(g, before, template)];
    ghost var m3 := m2[edit := ViewGenerator.EditView(g, before, template)];
    PutOnly(before, index, ViewGenerator.IndexView(g, before, template));
    PutOnly(m1, create, ViewGenerator.CreateView(g, before, template));
    PutOnly(m2, edit, ViewGenerator.EditView(g, before, template));
    PutOnly(m3, show, ViewGenerator.ShowView(g, before, template));
    WroteTrans(before, m1, m2, {index}, {create});
    WroteTrans(before, m2, m3, {index} + {create}, {edit});
    WroteTrans(before, m3, disk.files, {index} + {create} + {edit}, {show});
    report := Report(ViewsStep, result.Success?);
  }

  /** `registerRoutes`: a failure (missing file, route already there) is only a warning. */
  method RegisterRoutes(g: Generator, disk: Disk) returns (report: Report)
    modifies disk
    ensures report.step == RoutesStep
    ensures report.ok <==> old(disk.IsFile(RouteGenerator.RouteFilePath(g)))
                           && !Contains(old(disk.Get(RouteGenerator.RouteFilePath(g))), RouteGenerator.RouteLine(g))
    ensures ChangedOnly(old(disk.files), disk.files, RouteKeys(g))
  {
    var path := RouteGenerator.RouteFilePath(g);
    ghost var before := disk.files;
    ghost var registered := disk.IsFile(path) && !Contains(disk.Get(path), RouteGenerator.RouteLine(g));
    var result := RouteGenerator.Generate(g, disk);
    if registered {
      PutOnly(before, Normalize(path), RouteGenerator.Registered(before[Normalize(path)], RouteGenerator.RouteLine(g)).value);
    }
    report := Report(RoutesStep, result.success);
  }

  /** `generateTests`: the dialect is added to the options first. */
  method GenerateTests(g: Generator, inv: Invocation, disk: Disk) returns (report: Report)
    modifies disk
    ensures report == Report(TestsStep, true)
    ensures Wrote(old(disk.files), disk.files, TestKeys(g, inv))
  {
    var tg := TestGeneratorOf(g, inv);
    var result := TestGenerator.Generate(tg, disk);
    PutOnly(old(disk.files), Normalize(TestGenerator.TestPath(tg)), TestGenerator.TestText(tg, old(disk.files)));
    report := Report(TestsStep, result.Success?);
  }

  /** Whether every report is a success, except possibly the routes step's warning. */
  predicate OnlyRoutesWarn(reports: seq<Report>)
  {
    forall i :: 0 <= i < |reports| ==> reports[i].ok || reports[i].step == RoutesStep
  }

  /** The reports of the first four steps of a complete run. */
  const BackendReports: seq<Report> :=
    [Report(ModelStep, true), Report(MigrationStep, true), Report(RequestsStep, true), Report(ControllerStep, true)]

  /** The reports of the remaining steps, given whether the route was registered. */
  function FrontendReports(inv: Invocation, routed: bool): seq<Report>
  {
    (if !inv.api then [Report(ViewsStep, true)] else []) + [Report(RoutesStep, routed)]
      + (if WithTests(inv) then [Report(TestsStep, true)] else [])
  }

  /** Two runs of reports, each warning at most at the routes step, laid end to end. */
  lemma OnlyRoutesWarnAppend(a: seq<Report>, b: seq<Report>)
    requires OnlyRoutesWarn(a) && OnlyRoutesWarn(b)
    ensures OnlyRoutesWarn(a + b)
  {
    forall i | 0 <= i < |a + b|
      ensures (a + b)[i].ok || (a + b)[i].step == RoutesStep
    {
      if i >= |a| {
        assert (a + b)[i] == b[i - |a|];
      }
    }
  }

  /**
   * A complete run reports the planned steps in order, and only the
   * routes step can report a failure.
   */
  lemma CompleteReports(inv: Invocation, routed: bool)
    ensures Steps(BackendReports + FrontendReports(inv, routed)) == Plan(inv)
    ensures OnlyRoutesWarn(BackendReports + FrontendReports(inv, routed))
  {
    StepsAppend(BackendReports, FrontendReports(inv, routed));
    assert Steps(BackendReports) == BackendPlan;
    var views: seq<Report> := if !inv.api then [Report(ViewsStep, true)] else [];
    var tests: seq<Report> := if WithTests(inv) then [Report(TestsStep, true)] else [];
    StepsAppend(views, [Report(RoutesStep, routed)]);
    StepsAppend(views + [Report(RoutesStep, routed)], tests);
    OnlyRoutesWarnAppend(views, [Report(RoutesStep, routed)]);
    OnlyRoutesWarnAppend(views + [Report(RoutesStep, routed)], tests);
    OnlyRoutesWarnAppend(BackendReports, FrontendReports(inv, routed));
  }

  /**
   * The first four steps: model, migration, requests and controller.
   * False when reading the model stub throws, which ends the command
   * before anything is written.
   */
  method RunBackend(g: Generator, disk: Disk, timestamp: string) returns (completed: bool, reports: seq<Report>)
    modifies disk
    ensures completed <==> ModelStub(old(disk.files), "model").Some?
    ensures !completed ==> reports == [] && disk.files == old(disk.files)
    ensures completed ==> reports == BackendReports
    ensures completed ==> Wrote(old(disk.files), disk.files, BackendKeys(g, timestamp))
  {
    ghost var m0 := disk.files;
    var model := GenerateModel(g, disk);
    if model.None? {
      return false, [];
    }
    ghost var m1 := disk.files;
    var migration := GenerateMigration(g, disk, timestamp);
    ghost var m2 := disk.files;
    var requests := GenerateRequests(g, disk);
    ghost var m3 := disk.files;
    var controller := GenerateController(g, disk);
    WroteTrans(m0, m1, m2, ModelKeys(g), MigrationKeys(g, timestamp));
    WroteTrans(m0, m2, m3, ModelKeys(g) + MigrationKeys(g, timestamp), RequestKeys(g));
    WroteTrans(m0, m3, disk.files, ModelKeys(g) + MigrationKeys(g, timestamp) + RequestKeys(g), ControllerKeys(g));
    reports := [model.value, migration, requests, controller];
    completed := true;
  }

  /** The remaining steps: the views unless in API mode, the routes, and the tests when asked for. */
  method RunFrontend(g: Generator, inv: Invocation, disk: Disk, template: string) returns (routed: bool, reports: seq<Report>)
    modifies disk
    ensures reports == FrontendReports(inv, routed)
    ensures ChangedOnly(old(disk.files), disk.files, ViewKeysIf(g, inv) + RouteKeys(g) + TestKeysIf(g, inv))
    ensures ViewKeysIf(g, inv) + TestKeysIf(g, inv) <= disk.files.Keys
  {
    ghost var m0 := disk.files;
    var views: seq<Report> := [];
    if !inv.api {
      var report := GenerateViews(g, disk, template);
      views := [report];
    }
    ghost var m1 := disk.files;
    assert Wrote(m0, m1, ViewKeysIf(g, inv));
    var routes := RegisterRoutes(g, disk);
    routed := routes.ok;
    ghost var m2 := disk.files;
    ChangedOnlyTrans(m0, m1, m2, ViewKeysIf(g, inv), RouteKeys(g));
    var tests: seq<Report> := [];
    if WithTests(inv) {
      var report := GenerateTests(g, inv, disk);
      tests := [report];
    }
    assert Wrote(m2, disk.files, TestKeysIf(g, inv));
    ChangedOnlyTrans(m0, m2, disk.files, ViewKeysIf(g, inv) + RouteKeys(g), TestKeysIf(g, inv));
    reports := views + [routes] + tests;
  }

  /** How `handle` ends. */
  datatype Status =
    | Succeeded     // `Command::SUCCESS`
    | ExitedOne     // `exit(1)` for a missing or empty `--fields`
    | Threw         // the model stub could not be read: the exception ends the command

  class MakeCrudCommand {
    const inv: Invocation
    const str: Inflector
    var modelName: string
    var namespace: string
    var fields: seq<Field>
    var relationships: seq<Relationship>

    constructor (inv: Invocation, str: Inflector)
      ensures this.inv == inv && this.str == str
      ensures fields == [] && relationships == []
    {
      this.inv := inv;
      this.str := str;
      modelName := "";
      namespace := "";
      fields := [];
      relationships := [];
    }

    /** The generator every step builds from the command's state. */
    function GeneratorOf(): Generator
      reads this`modelName, this`namespace, this`fields, this`relationships
    {
      Generator(str, Options(modelName, namespace, fields, relationships, inv.softDelete, inv.auth, inv.api, None))
    }

    /** `parseModelName`. */
    method ParseModelName()
      modifies this
      ensures (modelName, namespace) == ModelNameParts(inv.name)
      ensures fields == old(fields) && relationships == old(relationships)
    {
      var name := inv.name;
      if '/' in name {
        var parts := Split(name, '/');
        modelName := parts[|parts| - 1];
        namespace := Join(parts[..|parts| - 1], "\\");
      } else {
        modelName := name;
        namespace := "";
      }
    }

    /**
     * `parseFields`: false (the command exits with code 1) when
     * `--fields` is missing or empty in PHP's sense; otherwise the fields
     * are what a fresh parser returns for the option.
     */
    method ParseFields() returns (proceed: bool)
      modifies this
      ensures proceed <==> inv.fieldsOption.Some? && Truthy(inv.fieldsOption.value)
      ensures proceed ==> fields == ParseAll(inv.fieldsOption.value)
      ensures !proceed ==> fields == old(fields)
      ensures modelName == old(modelName) && namespace == old(namespace)
      ensures relationships == old(relationships)
    {
      var option := inv.fieldsOption;
      if option.None? || !Truthy(option.value) {
        return false;
      }
      var parser := new Parser(option.value);
      fields := parser.Parse();
      proceed := true;
    }

    /** `parseRelationships`: the two loops, `belongsTo` first. */
    method ParseRelationships()
      modifies this
      ensures relationships == old(relationships) + RelationshipsOf(inv)
      ensures modelName == old(modelName) && namespace == old(namespace)
      ensures fields == old(fields)
    {
      var belongsTo := inv.belongsTo;
      var hasMany := inv.hasMany;
      for i := 0 to |belongsTo|
        invariant relationships == old(relationships) + Tagged(BelongsTo, belongsTo[..i])
        invariant modelName == old(modelName) && namespace == old(namespace)
        invariant fields == old(fields)
      {
        relationships := relationships + [Relationship(BelongsTo, belongsTo[i])];
      }
      assert belongsTo[..|belongsTo|] == belongsTo;
      for i := 0 to |hasMany|
        invariant relationships == old(relationships) + Tagged(BelongsTo, belongsTo) + Tagged(HasMany, hasMany[..i])
        invariant modelName == old(modelName) && namespace == old(namespace)
        invariant fields == old(fields)
      {
        relationships := relationships + [Relationship(HasMany, hasMany[i])];
      }
      assert hasMany[..|hasMany|] == hasMany;
    }

    /**
     * `generateFiles`: the steps in their fixed order; a failed step is
     * reported and the next one runs. The reports stand for the console
     * messages, one per step.
     */
    method GenerateFiles(disk: Disk, timestamp: string, template: string) returns (completed: bool, reports: seq<Report>)
      modifies disk
      ensures completed <==> ModelStub(old(disk.files), "model").Some?
      ensures !completed ==> reports == [] && disk.files == old(disk.files)
      ensures completed ==> Steps(reports) == Plan(inv) && OnlyRoutesWarn(reports)
      ensures completed ==> Artifacts(GeneratorOf(), inv, timestamp) <= disk.files.Keys
      ensures ChangedOnly(old(disk.files), disk.files, Written(GeneratorOf(), inv, timestamp))
    {
      var g := GeneratorOf();
      ghost var before := disk.files;
      var backend;
      completed, backend := RunBackend(g, disk, timestamp);
      if !completed {
        return completed, [];
      }
      ghost var middle := disk.files;
      var routed, frontend := RunFrontend(g, inv, disk, template);
      ChangedOnlyTrans(before, middle, disk.files, BackendKeys(g, timestamp),
                       ViewKeysIf(g, inv) + RouteKeys(g) + TestKeysIf(g, inv));
      CompleteReports(inv, routed);
      reports := backend + frontend;
    }

    /**
     * `handle`: the model name, the fields (exit 1 on a missing or empty
     * `--fields`, before any generator runs), the relationships, then the
     * steps; the result is SUCCESS once they have run.
     */
    method Handle(disk: Disk, timestamp: string, template: string) returns (status: Status, reports: seq<Report>)
      modifies this, disk
      ensures (modelName, namespace) == ModelNameParts(inv.name)
      ensures !Truthy(inv.fieldsOption.GetOr("")) ==>
        status == ExitedOne && reports == [] && disk.files == old(disk.files)
      ensures Truthy(inv.fieldsOption.GetOr("")) ==>
        && fields == ParseAll(inv.fieldsOption.value)
        && relationships == old(relationships) + RelationshipsOf(inv)
        && (status == Succeeded <==> ModelStub(old(disk.files), "model").Some?)
        && (status == Threw <==> ModelStub(old(disk.files), "model").None?)
        && (status == Succeeded ==> Steps(reports) == Plan(inv) && OnlyRoutesWarn(reports))
      ensures ChangedOnly(old(disk.files), disk.files, Written(GeneratorOf(), inv, timestamp))
    {
      ParseModelName();
      var proceed := ParseFields();
      if !proceed {
        return ExitedOne, [];
      }
      ParseRelationships();
      var completed;
      completed, reports := GenerateFiles(disk, timestamp, template);
      status := if completed then Succeeded else Threw;
    }
  }
}
