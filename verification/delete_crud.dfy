/**
 * `crud:delete {name} {--force}`: removes what `crud:make` wrote for a
 * model (the model, controller, requests, the views directory, the
 * migrations matching the table, the test) and strips the resource route
 * from `routes/web.php`, counting every path it removes. Without
 * `--force` it asks for confirmation first, and again before the
 * migrations; the answers are parameters.
 */
module DeleteCrud {
  import opened Wrappers
  import opened PhpStrings
  import opened Template
  import opened Laravel
  import opened FileSystem
  import opened BaseGenerator
  import MakeCrud
  import ModelGenerator
  import MigrationGenerator
  import RequestGenerator
  import ControllerGenerator
  import ViewGenerator
  import RouteGenerator
  import TestGenerator

  // ---------------------------------------------------------------------
  // The paths the command looks at
  // ---------------------------------------------------------------------

  /** `str_replace('\\', '/', namespace)`. */
  function NamespaceDir(namespace: string): string
  {
    ReplaceAll(namespace, "\\", "/")
  }

  /** The table name: plural of the snake-cased model name. */
  function Table(str: Inflector, modelName: string): string
  {
    str.plural(str.snake(modelName))
  }

  /** `deleteModel`'s path: `app/Models/<namespace path>/<Model>.php`, with `//` for an empty namespace. */
  function ModelFile(modelName: string, namespace: string): string
  {
    AppPath("Models/" + NamespaceDir(namespace) + "/" + modelName + ".php")
  }

  /** `deleteController`'s path. */
  function ControllerFile(modelName: string, namespace: string): string
  {
    AppPath("Http/Controllers/" + NamespaceDir(namespace) + "/" + modelName + "Controller.php")
  }

  /** `deleteRequests`' directory. */
  function RequestDir(namespace: string): string
  {
    AppPath("Http/Requests/" + NamespaceDir(namespace))
  }

  /** `deleteRequests`' store request. */
  function StoreRequestFile(modelName: string, namespace: string): string
  {
    RequestDir(namespace) + "/Store" + modelName + "Request.php"
  }

  /** `deleteRequests`' update request. */
  function UpdateRequestFile(modelName: string, namespace: string): string
  {
    RequestDir(namespace) + "/Update" + modelName + "Request.php"
  }

  /**
   * `deleteViews`' directory: the namespace lower-cased and then given
   * slashes, always followed by `/`, whatever PHP thinks of its truth.
   */
  function ViewsDir(str: Inflector, modelName: string, namespace: string): string
  {
    ResourcePath("views/" + ReplaceAll(Lower(namespace), "\\", "/") + "/" + Table(str, modelName))
  }

  /** `deleteTests`' path: the test does not follow the namespace. */
  function TestFile(modelName: string): string
  {
    BasePath("tests/Feature/" + modelName + "Test.php")
  }

  /** The routes file `removeRoutes` edits: always the web routes. */
  const RoutesFile: string := BasePath("routes/web.php")

  /** `removeRoutes`' route path: the lower-cased namespace path and the table, or the table alone. */
  function RouteRemovalPath(str: Inflector, modelName: string, namespace: string): string
  {
    var namespacePath := Lower(ReplaceAll(namespace, "\\", "/"));
    if Truthy(namespacePath) then namespacePath + "/" + Table(str, modelName) else Table(str, modelName)
  }

  /**
   * The command removes the files the generators write for the same
   * model name and namespace: the model, controller, request and test
   * paths are the generators' paths, the route path is the one
   * registered, and only a web registration is looked for.
   */
  lemma DeletionPathsMatch(g: Generator)
    ensures var m := g.options.modelName; var ns := g.options.namespace;
      && Table(g.str, m) == g.TableName()
      && ModelFile(m, ns) == ModelGenerator.ModelPath(g)
      && ControllerFile(m, ns) == ControllerGenerator.ControllerPath(g)
      && StoreRequestFile(m, ns) == RequestGenerator.RequestPath(g, RequestGenerator.Store)
      && UpdateRequestFile(m, ns) == RequestGenerator.RequestPath(g, RequestGenerator.Update)
      && TestFile(m) == TestGenerator.TestPath(g)
      && RouteRemovalPath(g.str, m, ns) == g.RoutePath()
      && (RouteGenerator.RouteFilePath(g) == RoutesFile <==> !g.options.api)
  {
    ClassPathsMatch(g);
    RequestPathsMatch(g);
    assert "tests/Feature/" + g.options.modelName + "Test.php"
        == "tests/Feature/" + (TestGenerator.ClassName(g) + ".php");
  }

  /** The model and the controller are looked for where their generators put them. */
  lemma ClassPathsMatch(g: Generator)
    ensures var m := g.options.modelName; var ns := g.options.namespace;
      && ModelFile(m, ns) == ModelGenerator.ModelPath(g)
      && ControllerFile(m, ns) == ControllerGenerator.ControllerPath(g)
  {
    var m := g.options.modelName;
    var np := NamespaceDir(g.options.namespace);
    assert "Models/" + np + "/" + m + ".php" == "Models/" + np + ("/" + m + ".php");
    assert "Http/Controllers/" + np + "/" + m + "Controller.php"
        == "Http/Controllers/" + np + ("/" + ControllerGenerator.ClassName(g) + ".php");
  }

  /** The two requests are looked for where their generator puts them. */
  lemma RequestPathsMatch(g: Generator)
    ensures var m := g.options.modelName; var ns := g.options.namespace;
      && StoreRequestFile(m, ns) == RequestGenerator.RequestPath(g, RequestGenerator.Store)
      && UpdateRequestFile(m, ns) == RequestGenerator.RequestPath(g, RequestGenerator.Update)
  {
    var m := g.options.modelName;
    var dir := RequestDir(g.options.namespace);
    RequestPathMatches(g, RequestGenerator.Store);
    RequestPathMatches(g, RequestGenerator.Update);
    assert "/Store" == "/" + "Store";
    assert "/Update" == "/" + "Update";
    assert dir + "/Store" + m == dir + "/" + "Store" + m;
    assert dir + "/Update" + m == dir + "/" + "Update" + m;
  }

  /** One request's path, with the flavour's prefix spelled out. */
  lemma RequestPathMatches(g: Generator, context: RequestGenerator.Context)
    ensures RequestDir(g.options.namespace) + "/" + RequestGenerator.Prefix(context) + g.options.modelName + "Request.php"
      == RequestGenerator.RequestPath(g, context)
  {
    var np := NamespaceDir(g.options.namespace);
    assert AppPath("Http/Requests/" + np) + "/" + RequestGenerator.Prefix(context) + g.options.modelName + "Request.php"
        == AppPath("Http/Requests/" + np + ("/" + RequestGenerator.ClassName(g, context) + ".php"));
  }

  /**
   * The views directory is where the views were written, up to the `//`
   * an empty namespace leaves, except for the namespace `0`: the
   * generator treats it as empty and the command does not.
   */
  lemma ViewsDirMatches(g: Generator)
    ensures var dir := ViewsDir(g.str, g.options.modelName, g.options.namespace);
      && (Truthy(g.options.namespace) ==> dir == ViewGenerator.ViewDirectory(g))
      && (g.options.namespace == "" ==> Normalize(dir) == Normalize(ViewGenerator.ViewDirectory(g)))
      && (g.options.namespace == "0" ==>
            dir == "resources/views/0/" + g.TableName()
            && ViewGenerator.ViewDirectory(g) == "resources/views/" + g.TableName())
  {
    var ns := g.options.namespace;
    var table := g.TableName();
    LowerReplaceCommute(ns, '\\', '/');
    assert "\\" == ['\\'] && "/" == ['/'];
    PrefixTruthy(g);
    if ns == "" {
      assert ReplaceAll(Lower(ns), "\\", "/") == "";
      DoubleSlash("resources/views", table);
      assert ViewsDir(g.str, g.options.modelName, ns) == "resources/views" + "//" + table;
      assert ViewGenerator.ViewDirectory(g) == "resources/views" + "/" + table;
    } else if ns == "0" {
      assert Lower(ns) == "0";
      assert ReplaceAll("0", "\\", "/") == "0";
    }
  }

  /**
   * Every view file lies inside the views directory, once separators are
   * collapsed, as long as the table name is a plain directory name.
   */
  lemma ViewFileInside(g: Generator, view: string)
    requires |g.TableName()| > 0 && g.TableName()[|g.TableName()| - 1] != '/'
    requires |view| > 0 && view[0] != '/'
    ensures StartsWith(Normalize(ViewGenerator.ViewFile(g, view)), Normalize(ViewGenerator.ViewDirectory(g)) + "/")
  {
    var dir := ViewGenerator.ViewDirectory(g);
    var table := g.TableName();
    var rest := view + ".blade.php";
    assert EndsWith(dir, table);
    assert dir[|dir| - 1] == table[|table| - 1];
    assert ViewGenerator.ViewFile(g, view) == dir + ("/" + rest);
    NormalizeAppend(dir, "/" + rest);
    SlashBefore(rest);
    assert Normalize(dir + ("/" + rest)) == Normalize(dir) + "/" + Normalize(rest);
  }

  // ---------------------------------------------------------------------
  // The migration glob
  // ---------------------------------------------------------------------

  /** The directory the migration glob looks in. */
  const MigrationsDir: string := DatabasePath("migrations/")

  /** The fixed end of the migration glob: `_create_<table>_table.php`. */
  function MigrationSuffix(table: string): string
  {
    "_create_" + table + "_table.php"
  }

  /**
   * The migration glob as `glob` reads it, a star under `database/migrations` followed by `_create_<table>_table.php`:
   * the `*` stands for any name part without a `/` that does not begin
   * with a `.` (hidden files are not listed), possibly empty; the table is
   * taken literally.
   */
  predicate MatchesMigrationGlob(path: string, table: string)
  {
    var suffix := MigrationSuffix(table);
    && |MigrationsDir| + |suffix| <= |path|
    && StartsWith(path, MigrationsDir)
    && EndsWith(path, suffix)
    && StarMatches(path[|MigrationsDir|..|path| - |suffix|])
  }

  /** What the glob's `*` stands for: a name part without a `/`, not beginning with a `.`. */
  predicate StarMatches(stem: string)
  {
    '/' !in stem && (|stem| == 0 || stem[0] != '.')
  }

  /** `File::glob`: the stored files whose paths match; stored paths are the normal forms. */
  function MigrationFiles(files: map<string, string>, table: string): (r: set<string>)
    ensures forall k :: k in r ==> k in files && Normalize(k) == k
  {
    set k | k in files && Normalize(k) == k && MatchesMigrationGlob(k, table)
  }

  /**
   * The glob lists exactly the stored files named `database/migrations/`,
   * then a stem the star matches, then `_create_<table>_table.php`.
   */
  lemma MigrationFilesShape(files: map<string, string>, table: string)
    ensures forall k :: k in MigrationFiles(files, table) ==>
      && |MigrationsDir| + |MigrationSuffix(table)| <= |k|
      && var stem := k[|MigrationsDir|..|k| - |MigrationSuffix(table)|];
         StarMatches(stem) && k == MigrationsDir + stem + MigrationSuffix(table)
    ensures forall stem ::
      (StarMatches(stem) && MigrationsDir + stem + MigrationSuffix(table) in files
       && Normalize(MigrationsDir + stem + MigrationSuffix(table)) == MigrationsDir + stem + MigrationSuffix(table))
      ==> MigrationsDir + stem + MigrationSuffix(table) in MigrationFiles(files, table)
  {
    var suffix := MigrationSuffix(table);
    forall k | k in MigrationFiles(files, table)
      ensures k == MigrationsDir + k[|MigrationsDir|..|k| - |suffix|] + suffix
    {
      assert k == k[..|MigrationsDir|] + k[|MigrationsDir|..|k| - |suffix|] + k[|k| - |suffix|..];
    }
    forall stem | StarMatches(stem) && MigrationsDir + stem + suffix in files
      && Normalize(MigrationsDir + stem + suffix) == MigrationsDir + stem + suffix
      ensures MatchesMigrationGlob(MigrationsDir + stem + suffix, table)
    {
      var k := MigrationsDir + stem + suffix;
      assert k[..|MigrationsDir|] == MigrationsDir;
      assert k[|k| - |suffix|..] == suffix;
      assert k[|MigrationsDir|..|k| - |suffix|] == stem;
    }
  }

  /**
   * The migration `crud:make` writes is found by the glob, whatever its
   * timestamp, when neither the timestamp nor the table holds a `/` and
   * the timestamp does not begin with a `.`.
   */
  lemma GeneratedMigrationMatches(g: Generator, timestamp: string)
    requires '/' !in timestamp && (|timestamp| == 0 || timestamp[0] != '.')
    requires '/' !in g.TableName()
    ensures MatchesMigrationGlob(MigrationGenerator.MigrationPath(g, timestamp), g.TableName())
  {
    var suffix := MigrationSuffix(g.TableName());
    var path := MigrationGenerator.MigrationPath(g, timestamp);
    assert path == MigrationsDir + timestamp + suffix;
    assert path[..|MigrationsDir|] == MigrationsDir;
    assert path[|path| - |suffix|..] == suffix;
    assert path[|MigrationsDir|..|path| - |suffix|] == timestamp;
  }

  /** That migration's path is stored as written: it has no doubled separator. */
  lemma GeneratedMigrationNormal(g: Generator, timestamp: string)
    requires '/' !in timestamp && '/' !in g.TableName()
    ensures Normalize(MigrationGenerator.MigrationPath(g, timestamp)) == MigrationGenerator.MigrationPath(g, timestamp)
  {
    var name := MigrationGenerator.MigrationFileName(timestamp, g.TableName());
    assert '/' !in "_create_" && '/' !in "_table.php";
    assert '/' !in name && |name| > 0;
    NormalizeNoSlash(name);
    NormalDir("migrations", name);
    NormalDir("database", "migrations" + "/" + name);
    assert "database/" == "database" + "/";
    assert "migrations/" == "migrations" + "/";
    assert MigrationGenerator.MigrationPath(g, timestamp) == "database/" + ("migrations/" + name);
    assert "database/" + ("migrations/" + name) == "database" + "/" + ("migrations" + "/" + name);
  }

  // ---------------------------------------------------------------------
  // Route removal
  // ---------------------------------------------------------------------

  /** The quotes the patterns accept around the route path. */
  predicate IsQuote(c: char)
  {
    c == '\'' || c == '"'
  }

  /**
   * The lazy tail `.*?\);?\n` from position `p`: the end of the shortest
   * run without a line break followed by `)`, an optional `;` and a line
   * break; None when a line break or the end of the text comes first.
   */
  function TailEnd(s: string, p: nat): (r: Option<nat>)
    requires p <= |s|
    ensures r.Some? ==> p < r.value <= |s| && s[r.value - 1] == '\n'
    decreases |s| - p
  {
    if p == |s| || s[p] == '\n' then None
    else if s[p] == ')' && p + 2 < |s| && s[p + 1] == ';' && s[p + 2] == '\n' then Some(p + 3)
    else if s[p] == ')' && p + 1 < |s| && s[p + 1] == '\n' then Some(p + 2)
    else TailEnd(s, p + 1)
  }

  /**
   * The end of the match starting at `i` of `<head>` + quote + path +
   * quote + the lazy tail, if there is one.
   */
  function MatchAt(s: string, i: nat, head: string, path: string): (r: Option<nat>)
    requires i <= |s|
    ensures r.Some? ==> i < r.value <= |s|
  {
    var n := |head| + |path| + 2;
    if i + n <= |s| && s[i..i + |head|] == head && IsQuote(s[i + |head|])
       && s[i + |head| + 1..i + |head| + 1 + |path|] == path && IsQuote(s[i + n - 1])
    then TailEnd(s, i + n)
    else None
  }

  /** `preg_match` from position `i`: whether a match starts at `i` or later. */
  predicate MatchFrom(s: string, i: nat, head: string, path: string)
    requires i <= |s|
    decreases |s| - i
  {
    i < |s| && (MatchAt(s, i, head, path).Some? || MatchFrom(s, i + 1, head, path))
  }

  /** `preg_replace(..., '')` from position `i`: matches are cut, scanning on after each. */
  function StripFrom(s: string, i: nat, head: string, path: string): (r: string)
    requires i <= |s|
    ensures |r| <= |s| - i
    decreases |s| - i
  {
    if i == |s| then ""
    else match MatchAt(s, i, head, path)
      case Some(e) => StripFrom(s, e, head, path)
      case None => [s[i]] + StripFrom(s, i + 1, head, path)
  }

  /**
   * Cutting changes the text exactly when there is a match: it is then
   * strictly shorter, and otherwise the text itself.
   */
  lemma {:induction false} StripChanges(s: string, i: nat, head: string, path: string)
    requires i <= |s|
    ensures MatchFrom(s, i, head, path) ==> |StripFrom(s, i, head, path)| < |s| - i
    ensures !MatchFrom(s, i, head, path) ==> StripFrom(s, i, head, path) == s[i..]
    decreases |s| - i
  {
    if i < |s| {
      StripChanges(s, i + 1, head, path);
      if MatchAt(s, i, head, path).None? {
        assert s[i..] == [s[i]] + s[i + 1..];
      }
    }
  }

  /** The beginning of the resource registration pattern. */
  const ResourceHead: string := "Route::resource("

  /** The beginning of the API resource registration pattern. */
  const ApiResourceHead: string := "Route::apiResource("

  /** The two patterns, in the order they are tried. */
  const RouteHeads: seq<string> := [ResourceHead, ApiResourceHead]

  /** One pattern: the cut text and true if it matches, the text and false otherwise. */
  function Pass(content: string, head: string, path: string): (string, bool)
  {
    if MatchFrom(content, 0, head, path) then (StripFrom(content, 0, head, path), true) else (content, false)
  }

  /** The patterns in turn, each on the text the previous left; true if any matched. */
  function Passes(content: string, heads: seq<string>, path: string): (string, bool)
    decreases |heads|
  {
    if |heads| == 0 then (content, false)
    else
      var previous := Passes(content, heads[..|heads| - 1], path);
      var next := Pass(previous.0, heads[|heads| - 1], path);
      (next.0, previous.1 || next.1)
  }

  /**
   * The routes file is rewritten exactly when its text changes: a
   * reported update always shortens the text, and no update leaves it
   * as it was.
   */
  lemma {:induction false} PassesChange(content: string, heads: seq<string>, path: string)
    ensures Passes(content, heads, path).1 ==> |Passes(content, heads, path).0| < |content|
    ensures !Passes(content, heads, path).1 ==> Passes(content, heads, path).0 == content
    decreases |heads|
  {
    if |heads| > 0 {
      var previous := Passes(content, heads[..|heads| - 1], path);
      PassesChange(content, heads[..|heads| - 1], path);
      StripChanges(previous.0, 0, heads[|heads| - 1], path);
    }
  }

  /** A tail with neither `)` nor a line break is skipped by the lazy tail. */
  lemma {:induction false} TailSkip(s: string, p: nat, q: nat)
    requires p <= q <= |s|
    requires forall k :: p <= k < q ==> s[k] != ')' && s[k] != '\n'
    ensures TailEnd(s, p) == TailEnd(s, q)
    decreases q - p
  {
    if p < q {
      TailSkip(s, p + 1, q);
    }
  }

  /** Neither `)` nor a line break in the text. */
  predicate Plain(s: string)
  {
    ')' !in s && '\n' !in s
  }

  /**
   * A line registering the route path with `Route::resource`, whose
   * arguments after the path hold neither `)` nor a line break, is one
   * match: the patterns remove it whole and report an update.
   */
  lemma RemovesResourceLine(path: string, rest: string)
    requires Plain(rest)
    ensures Passes(ResourceHead + "'" + path + "'" + rest + ");\n", RouteHeads, path) == ("", true)
  {
    var s := ResourceHead + "'" + path + "'" + rest + ");\n";
    var n := |ResourceHead| + |path| + 2;
    var q := n + |rest|;
    assert s[..|ResourceHead|] == ResourceHead;
    assert s[|ResourceHead|] == '\'';
    assert s[|ResourceHead| + 1..|ResourceHead| + 1 + |path|] == path;
    assert s[n - 1] == '\'';
    forall k | n <= k < q
      ensures s[k] != ')' && s[k] != '\n'
    {
      assert s[k] == rest[k - n];
    }
    TailSkip(s, n, q);
    assert s[q] == ')' && s[q + 1] == ';' && s[q + 2] == '\n';
    assert MatchAt(s, 0, ResourceHead, path) == Some(|s|);
    assert StripFrom(s, 0, ResourceHead, path) == "";
    assert Pass(s, ResourceHead, path) == ("", true);
    assert RouteHeads[..1] == [ResourceHead];
    assert Passes(s, RouteHeads[..1][..0], path) == (s, false);
    assert Passes(s, RouteHeads[..1], path) == ("", true);
    assert !MatchFrom("", 0, ApiResourceHead, path);
    assert Pass("", ApiResourceHead, path) == ("", false);
  }

  /** Regrouping the pieces of a registration line. */
  lemma Regroup(head: string, path: string, quote: string, comma: string, controller: string, close: string, nl: string)
    ensures head + path + (quote + comma) + controller + close + nl
         == head + path + quote + (comma + controller) + (close + nl)
  {
  }

  /** The controller reference of a plain namespace and model name holds no closing parenthesis and no line break. */
  lemma PlainController(g: Generator)
    requires Plain(g.options.namespace) && Plain(g.options.modelName)
    ensures Plain(", " + RouteGenerator.ControllerRef(g))
  {
    assert Plain(ConfiguredNamespace(ControllerKind).GetOr(""));
    assert Plain(g.FullNamespace(ControllerKind).value);
    assert Plain(RouteGenerator.ControllerRef(g));
  }

  /** A resource registration of a path and a controller, laid out as the removal pattern reads it. */
  lemma ResourceLineLayout(path: string, controller: string)
    ensures "Route::" + "resource" + "('" + path + "', " + controller + ");" + "\n"
      == ResourceHead + "'" + path + "'" + (", " + controller) + ");\n"
  {
    assert "Route::" + "resource" + "('" == ResourceHead + "'";
    assert "', " == "'" + ", ";
    assert ");" + "\n" == ");\n";
    Regroup(ResourceHead + "'", path, "'", ", ", controller, ");", "\n");
  }

  /** The registered resource line, laid out as the removal pattern reads it. */
  lemma RegisteredLineShape(g: Generator)
    requires !g.options.api && !g.options.softDelete && !g.options.auth
    ensures RouteGenerator.RouteLine(g) + "\n"
      == ResourceHead + "'" + g.RoutePath() + "'" + (", " + RouteGenerator.ControllerRef(g)) + ");\n"
  {
    assert RouteGenerator.Verb(g) == "resource";
    assert RouteGenerator.RouteLine(g) == RouteGenerator.ResourceRoute(g);
    ResourceLineLayout(g.RoutePath(), RouteGenerator.ControllerRef(g));
  }

  /**
   * The resource registration `crud:make` writes in web mode without soft
   * deletes or auth, on its own line, is removed whole: the patterns
   * leave nothing of it and report an update.
   */
  lemma RemovesRegisteredRoute(g: Generator)
    requires !g.options.api && !g.options.softDelete && !g.options.auth
    requires Plain(g.options.namespace) && Plain(g.options.modelName)
    ensures Passes(RouteGenerator.RouteLine(g) + "\n", RouteHeads, g.RoutePath()) == ("", true)
  {
    PlainController(g);
    RegisteredLineShape(g);
    RemovesResourceLine(g.RoutePath(), ", " + RouteGenerator.ControllerRef(g));
  }

  /**
   * The pattern loop of `removeRoutes`: each pattern in turn, replacing
   * its matches only when it has one; `removed` says whether any did.
   */
  method StripRoutes(content: string, path: string) returns (result: string, removed: bool)
    ensures (result, removed) == Passes(content, RouteHeads, path)
  {
    result := content;
    removed := false;
    var patterns := RouteHeads;
    for i := 0 to |patterns|
      invariant (result, removed) == Passes(content, patterns[..i], path)
    {
      assert patterns[..i + 1][..i] == patterns[..i];
      if MatchFrom(result, 0, patterns[i], path) {
        result := StripFrom(result, 0, patterns[i], path);
        removed := true;
      }
    }
    assert patterns[..|patterns|] == patterns;
  }

  // ---------------------------------------------------------------------
  // What the command leaves
  // ---------------------------------------------------------------------

  /** Whether `after` holds no file that `before` lacks, and no file changed contents. */
  predicate Shrunk(before: map<string, string>, after: map<string, string>)
  {
    after.Keys <= before.Keys && forall k :: k in after ==> after[k] == before[k]
  }

  /** Whether `after` holds no new file and differs from `before` at most at `key`. */
  predicate OnlyRewritten(before: map<string, string>, after: map<string, string>, key: string)
  {
    after.Keys <= before.Keys && forall k :: k in after && after[k] != before[k] ==> k == key
  }

  /** Whether `after` holds no new file and differs from `before` at most in the routes file. */
  predicate OnlyRoutesRewritten(before: map<string, string>, after: map<string, string>)
  {
    OnlyRewritten(before, after, Normalize(RoutesFile))
  }

  /** Overwriting a stored file rewrites only that file. */
  lemma RewriteStored(files: map<string, string>, key: string, contents: string)
    requires key in files
    ensures OnlyRewritten(files, files[key := contents], key)
    ensures files[key := contents].Keys == files.Keys
  {
  }

  /** Rewrites of one file, one after the other. */
  lemma RewrittenTrans(a: map<string, string>, b: map<string, string>, c: map<string, string>, key: string)
    requires OnlyRewritten(a, b, key) && OnlyRewritten(b, c, key)
    ensures OnlyRewritten(a, c, key)
  {
    forall k | k in c && c[k] != a[k]
      ensures k == key
    {
      if c[k] == b[k] {
        assert b[k] != a[k];
      }
    }
  }

  /** Deleting files only, one step after the other. */
  lemma ShrunkTrans(a: map<string, string>, b: map<string, string>, c: map<string, string>)
    requires Shrunk(a, b) && Shrunk(b, c)
    ensures Shrunk(a, c)
  {
  }

  /** Deleting files only rewrites nothing. */
  lemma ShrunkRewrites(a: map<string, string>, b: map<string, string>, key: string)
    requires Shrunk(a, b)
    ensures OnlyRewritten(a, b, key)
  {
  }

  /** No file stored below the directory. */
  predicate NoneBelow(files: map<string, string>, dir: string)
  {
    forall k :: k in files ==> !StartsWith(k, Normalize(dir) + "/")
  }

  /** The model, controller and both requests are gone. */
  predicate ClassesGone(files: map<string, string>, modelName: string, namespace: string)
  {
    && Normalize(ModelFile(modelName, namespace)) !in files
    && Normalize(ControllerFile(modelName, namespace)) !in files
    && Normalize(StoreRequestFile(modelName, namespace)) !in files
    && Normalize(UpdateRequestFile(modelName, namespace)) !in files
  }

  /** The model, controller, requests, views and test are gone. */
  predicate ArtifactsGone(files: map<string, string>, str: Inflector, modelName: string, namespace: string)
  {
    && ClassesGone(files, modelName, namespace)
    && NoneBelow(files, ViewsDir(str, modelName, namespace))
    && Normalize(TestFile(modelName)) !in files
  }

  /** No stored file matches the migration glob. */
  predicate MigrationsGone(files: map<string, string>, table: string)
  {
    forall k :: k in files && Normalize(k) == k ==> !MatchesMigrationGlob(k, table)
  }

  /** What is gone stays gone while no file is added. */
  lemma StaysGone(a: map<string, string>, b: map<string, string>, str: Inflector, modelName: string, namespace: string)
    requires b.Keys <= a.Keys
    ensures ClassesGone(a, modelName, namespace) ==> ClassesGone(b, modelName, namespace)
    ensures NoneBelow(a, ViewsDir(str, modelName, namespace)) ==> NoneBelow(b, ViewsDir(str, modelName, namespace))
    ensures MigrationsGone(a, Table(str, modelName)) ==> MigrationsGone(b, Table(str, modelName))
  {
  }

  /**
   * Deleting after generating: once the command has run for the same
   * model name, none of the files `crud:make` wrote is left (a
   * migration only if its deletion was confirmed), provided the
   * namespace is not `0`, the table is a plain directory name and the
   * timestamp a plain file name part.
   */
  lemma GeneratedFilesGone(g: Generator, inv: MakeCrud.Invocation, timestamp: string, files: map<string, string>)
    requires g.options.namespace != "0"
    requires |g.TableName()| > 0 && '/' !in g.TableName()
    requires '/' !in timestamp && (|timestamp| == 0 || timestamp[0] != '.')
    requires ArtifactsGone(files, g.str, g.options.modelName, g.options.namespace)
    requires MigrationsGone(files, g.TableName())
    ensures forall k :: k in MakeCrud.Artifacts(g, inv, timestamp) ==> k !in files
  {
    BackendGone(g, timestamp, files);
    ViewsGone(g, files);
    TestGone(g, inv, files);
  }

  /** The model, migration, requests and controller are gone. */
  lemma BackendGone(g: Generator, timestamp: string, files: map<string, string>)
    requires '/' !in g.TableName()
    requires '/' !in timestamp && (|timestamp| == 0 || timestamp[0] != '.')
    requires ArtifactsGone(files, g.str, g.options.modelName, g.options.namespace)
    requires MigrationsGone(files, g.TableName())
    ensures forall k :: k in MakeCrud.BackendKeys(g, timestamp) ==> k !in files
  {
    DeletionPathsMatch(g);
    GeneratedMigrationMatches(g, timestamp);
    GeneratedMigrationNormal(g, timestamp);
  }

  /** The four views are gone with their directory. */
  lemma ViewsGone(g: Generator, files: map<string, string>)
    requires g.options.namespace != "0"
    requires |g.TableName()| > 0 && '/' !in g.TableName()
    requires NoneBelow(files, ViewsDir(g.str, g.options.modelName, g.options.namespace))
    ensures forall k :: k in MakeCrud.ViewKeys(g) ==> k !in files
  {
    ViewsDirMatches(g);
    var table := g.TableName();
    assert table[|table| - 1] in table;
    ViewFileInside(g, "index");
    ViewFileInside(g, "create");
    ViewFileInside(g, "edit");
    ViewFileInside(g, "show");
    var dir := Normalize(ViewGenerator.ViewDirectory(g));
    assert dir == Normalize(ViewsDir(g.str, g.options.modelName, g.options.namespace));
    forall k | k in MakeCrud.ViewKeys(g)
      ensures k !in files
    {
      assert StartsWith(k, dir + "/");
    }
  }

  /** The test is gone: its file does not depend on the options that pick its dialect. */
  lemma TestGone(g: Generator, inv: MakeCrud.Invocation, files: map<string, string>)
    requires Normalize(TestFile(g.options.modelName)) !in files
    ensures forall k :: k in MakeCrud.TestKeys(g, inv) ==> k !in files
  {
    DeletionPathsMatch(g);
    var tg := MakeCrud.TestGeneratorOf(g, inv);
    assert TestGenerator.TestPath(tg) == TestGenerator.TestPath(g);
  }

  // ---------------------------------------------------------------------
  // The command
  // ---------------------------------------------------------------------

  /** How `handle` ends: cancelled at the first question, or the summary's count of deleted paths. */
  datatype Summary = Cancelled | Finished(deleted: nat)

  /** Whether the summary ends with the success line rather than the nothing-found warning. */
  predicate DeletedAny(s: Summary)
  {
    s.Finished? && s.deleted > 0
  }

  /** Whether the model, the controller or either request exists. */
  predicate ClassesFound(files: map<string, string>, modelName: string, namespace: string)
  {
    || ExistsIn(files, ModelFile(modelName, namespace))
    || ExistsIn(files, ControllerFile(modelName, namespace))
    || ExistsIn(files, StoreRequestFile(modelName, namespace))
    || ExistsIn(files, UpdateRequestFile(modelName, namespace))
  }

  /** Which paths exist depends on the stored paths alone, not on the contents. */
  lemma KeysDecideExistence(a: map<string, string>, b: map<string, string>, p: string)
    requires a.Keys == b.Keys
    ensures ExistsIn(a, p) == ExistsIn(b, p)
  {
    if DirIn(a, p) {
      var k :| k in a && StartsWith(k, Normalize(p) + "/");
      assert k in b;
    }
    if DirIn(b, p) {
      var k :| k in b && StartsWith(k, Normalize(p) + "/");
      assert k in a;
    }
  }

  /**
   * Whether a deletion step would find something in these files: the
   * model, the controller, either request, the views directory, a
   * migration the glob lists (when its deletion is agreed to) or the test.
   */
  predicate AnyToDelete(files: map<string, string>, str: Inflector, modelName: string, namespace: string, migrations: bool)
  {
    BackendFound(files, str, modelName, namespace, migrations) || ExistsIn(files, TestFile(modelName))
  }

  /** The same, before the routes and the test: the classes, the views directory or a listed migration. */
  predicate BackendFound(files: map<string, string>, str: Inflector, modelName: string, namespace: string, migrations: bool)
  {
    || ClassesFound(files, modelName, namespace)
    || ExistsIn(files, ViewsDir(str, modelName, namespace))
    || (migrations && |MigrationFiles(files, Table(str, modelName))| > 0)
  }

  class DeleteCrudCommand {
    const name: string
    const force: bool
    const str: Inflector
    var modelName: string
    var namespace: string
    var deletedFiles: seq<string>

    constructor (name: string, force: bool, str: Inflector)
      ensures this.name == name && this.force == force && this.str == str
      ensures deletedFiles == []
    {
      this.name := name;
      this.force := force;
      this.str := str;
      modelName := "";
      namespace := "";
      deletedFiles := [];
    }

    /** `parseModelName`: the same split as `crud:make`'s. */
    method ParseModelName()
      modifies this`modelName, this`namespace
      ensures (modelName, namespace) == MakeCrud.ModelNameParts(name)
    {
      if '/' in name {
        var parts := Split(name, '/');
        modelName := parts[|parts| - 1];
        namespace := Join(parts[..|parts| - 1], "\\");
      } else {
        modelName := name;
        namespace := "";
      }
    }

    /** `File::exists`, then `File::delete` and one more deleted path. */
    method Remove(disk: Disk, path: string)
      modifies this`deletedFiles, disk
      ensures old(disk.Exists(path)) ==>
        disk.files == old(disk.files) - {Normalize(path)} && deletedFiles == old(deletedFiles) + [path]
      ensures !old(disk.Exists(path)) ==> disk.files == old(disk.files) && deletedFiles == old(deletedFiles)
      ensures Normalize(path) !in disk.files && Shrunk(old(disk.files), disk.files)
    {
      if disk.Exists(path) {
        disk.Delete(path);
        deletedFiles := deletedFiles + [path];
      }
    }

    /** `deleteModel`. */
    method DeleteModel(disk: Disk)
      modifies this`deletedFiles, disk
      ensures var path := ModelFile(modelName, namespace);
        && (old(disk.Exists(path)) ==>
              disk.files == old(disk.files) - {Normalize(path)} && deletedFiles == old(deletedFiles) + [path])
        && (!old(disk.Exists(path)) ==> disk.files == old(disk.files) && deletedFiles == old(deletedFiles))
        && Normalize(path) !in disk.files && Shrunk(old(disk.files), disk.files)
    {
      Remove(disk, ModelFile(modelName, namespace));
    }

    /** `deleteController`. */
    method DeleteController(disk: Disk)
      modifies this`deletedFiles, disk
      ensures var path := ControllerFile(modelName, namespace);
        && (old(disk.Exists(path)) ==>
              disk.files == old(disk.files) - {Normalize(path)} && deletedFiles == old(deletedFiles) + [path])
        && (!old(disk.Exists(path)) ==> disk.files == old(disk.files) && deletedFiles == old(deletedFiles))
        && Normalize(path) !in disk.files && Shrunk(old(disk.files), disk.files)
    {
      Remove(disk, ControllerFile(modelName, namespace));
    }

    /** `deleteRequests`: the store request, then the update request, each if it exists. */
    method DeleteRequests(disk: Disk)
      modifies this`deletedFiles, disk
      ensures var store := StoreRequestFile(modelName, namespace);
        var update := UpdateRequestFile(modelName, namespace);
        && |old(deletedFiles)| <= |deletedFiles| <= |old(deletedFiles)| + 2
        && deletedFiles[..|old(deletedFiles)|] == old(deletedFiles)
        && (forall i :: |old(deletedFiles)| <= i < |deletedFiles| ==> deletedFiles[i] == store || deletedFiles[i] == update)
        && (store in deletedFiles[|old(deletedFiles)|..] <==> old(disk.Exists(store)))
        && (old(disk.Exists(store)) || old(disk.Exists(update)) <==> |old(deletedFiles)| < |deletedFiles|)
        && (!old(disk.Exists(store)) && !old(disk.Exists(update)) ==> disk.files == old(disk.files))
        && Normalize(store) !in disk.files && Normalize(update) !in disk.files
        && Shrunk(old(disk.files), disk.files)
    {
      var store := StoreRequestFile(modelName, namespace);
      var update := UpdateRequestFile(modelName, namespace);
      assert store[|RequestDir(namespace)| + 1] != update[|RequestDir(namespace)| + 1];
      ghost var before := deletedFiles;
      Remove(disk, store);
      ghost var middle := deletedFiles;
      ghost var storeKeys := disk.files.Keys;
      Remove(disk, update);
      assert middle[..|before|] == before;
      assert deletedFiles[..|middle|] == middle;
      assert deletedFiles[|before|..] == middle[|before|..] + deletedFiles[|middle|..];
      assert update !in middle[|before|..];
      assert store !in deletedFiles[|middle|..];
      assert disk.files.Keys <= storeKeys;
    }

    /**
     * The first three steps of `handle`: model, controller and requests.
     * Paths are recorded exactly when one of the four existed; otherwise
     * nothing changes.
     */
    method DeleteClasses(disk: Disk)
      modifies this`deletedFiles, disk
      ensures |old(deletedFiles)| <= |deletedFiles|
      ensures |old(deletedFiles)| < |deletedFiles| <==> ClassesFound(old(disk.files), modelName, namespace)
      ensures !ClassesFound(old(disk.files), modelName, namespace) ==> disk.files == old(disk.files)
      ensures ClassesGone(disk.files, modelName, namespace) && Shrunk(old(disk.files), disk.files)
    {
      ghost var m0 := disk.files;
      DeleteModel(disk);
      ghost var m1 := disk.files;
      DeleteController(disk);
      ghost var m2 := disk.files;
      DeleteRequests(disk);
      assert Normalize(ModelFile(modelName, namespace)) !in disk.files;
      assert Normalize(ControllerFile(modelName, namespace)) !in disk.files;
    }

    /**
     * The steps of `handle` that only delete: model, controller, requests,
     * views and migrations. Paths are recorded exactly when one of them
     * found something; otherwise nothing changes.
     */
    method DeleteBackend(disk: Disk, migrationConfirmed: bool)
      modifies this`deletedFiles, disk
      ensures |old(deletedFiles)| <= |deletedFiles|
      ensures |old(deletedFiles)| < |deletedFiles|
              <==> BackendFound(old(disk.files), str, modelName, namespace, force || migrationConfirmed)
      ensures !BackendFound(old(disk.files), str, modelName, namespace, force || migrationConfirmed)
              ==> disk.files == old(disk.files)
      ensures ClassesGone(disk.files, modelName, namespace) && NoneBelow(disk.files, ViewsDir(str, modelName, namespace))
      ensures (force || migrationConfirmed) ==> MigrationsGone(disk.files, Table(str, modelName))
      ensures Shrunk(old(disk.files), disk.files)
    {
      ghost var m0 := disk.files;
      DeleteClasses(disk);
      ghost var m3 := disk.files;
      DeleteViews(disk);
      ghost var m4 := disk.files;
      StaysGone(m3, m4, str, modelName, namespace);
      DeleteMigration(disk, migrationConfirmed);
      StaysGone(m4, disk.files, str, modelName, namespace);
      ShrunkTrans(m0, m3, m4);
      ShrunkTrans(m0, m4, disk.files);
    }

    /** `deleteViews`: the whole directory, if it exists. */
    method DeleteViews(disk: Disk)
      modifies this`deletedFiles, disk
      ensures var dir := ViewsDir(str, modelName, namespace);
        && (old(disk.Exists(dir)) ==>
              disk.files == Prune(old(disk.files), Normalize(dir) + "/") && deletedFiles == old(deletedFiles) + [dir])
        && (!old(disk.Exists(dir)) ==> disk.files == old(disk.files) && deletedFiles == old(deletedFiles))
        && NoneBelow(disk.files, dir) && Shrunk(old(disk.files), disk.files)
    {
      var dir := ViewsDir(str, modelName, namespace);
      if disk.Exists(dir) {
        disk.DeleteDirectory(dir);
        deletedFiles := deletedFiles + [dir];
      }
    }

    /**
     * `deleteMigration`: every stored file matching the glob goes, one
     * path each, if there is one and `--force` is given or the second
     * question is answered yes; otherwise nothing changes.
     */
    method DeleteMigration(disk: Disk, confirmed: bool)
      modifies this`deletedFiles, disk
      ensures var matches := MigrationFiles(old(disk.files), Table(str, modelName));
        && (|matches| > 0 && (force || confirmed) ==>
              && disk.files == old(disk.files) - matches
              && |deletedFiles| == |old(deletedFiles)| + |matches|
              && deletedFiles[..|old(deletedFiles)|] == old(deletedFiles)
              && (forall f :: f in deletedFiles[|old(deletedFiles)|..] <==> f in matches))
        && (!(|matches| > 0 && (force || confirmed)) ==>
              disk.files == old(disk.files) && deletedFiles == old(deletedFiles))
        && ((force || confirmed) ==> MigrationsGone(disk.files, Table(str, modelName)))
        && Shrunk(old(disk.files), disk.files)
    {
      var table := Table(str, modelName);
      var matches := MigrationFiles(disk.files, table);
      assert forall k :: k in disk.files && Normalize(k) == k && MatchesMigrationGlob(k, table) ==> k in matches;
      if |matches| > 0 {
        if force || confirmed {
          RemoveEach(disk, matches);
        }
      }
    }

    /** The `foreach` of `deleteMigration`: every given stored file is deleted and recorded, in some order. */
    method RemoveEach(disk: Disk, files: set<string>)
      requires forall f :: f in files ==> f in disk.files && Normalize(f) == f
      modifies this`deletedFiles, disk
      ensures disk.files == old(disk.files) - files
      ensures |deletedFiles| == |old(deletedFiles)| + |files|
      ensures deletedFiles[..|old(deletedFiles)|] == old(deletedFiles)
      ensures forall f :: f in deletedFiles[|old(deletedFiles)|..] <==> f in files
    {
      var remaining := files;
      var added: seq<string> := [];
      ghost var done: set<string> := {};
      while remaining != {}
        invariant remaining !! done && remaining + done == files
        invariant disk.files == old(disk.files) - done
        invariant |added| == |done|
        invariant forall f :: f in added <==> f in done
        modifies disk
        decreases remaining
      {
        var file :| file in remaining;
        disk.Delete(file);
        assert old(disk.files) - done - {file} == old(disk.files) - (done + {file});
        added := added + [file];
        done := done + {file};
        remaining := remaining - {file};
      }
      deletedFiles := deletedFiles + added;
      assert deletedFiles[..|old(deletedFiles)|] == old(deletedFiles);
      assert deletedFiles[|old(deletedFiles)|..] == added;
    }

    /**
     * `removeRoutes`: if the web routes file exists, both patterns in
     * turn, and the file rewritten only when one of them matched; the
     * result says whether it was.
     */
    method RemoveRoutes(disk: Disk) returns (removed: bool)
      modifies disk
      ensures var path := RouteRemovalPath(str, modelName, namespace);
        && (!old(disk.IsFile(RoutesFile)) ==> !removed && disk.files == old(disk.files))
        && (old(disk.IsFile(RoutesFile)) ==>
              var result := Passes(old(disk.Get(RoutesFile)), RouteHeads, path);
              && removed == result.1
              && (removed ==> disk.files == old(disk.files)[Normalize(RoutesFile) := result.0])
              && (!removed ==> disk.files == old(disk.files)))
        && OnlyRoutesRewritten(old(disk.files), disk.files) && disk.files.Keys == old(disk.files).Keys
    {
      var path := RouteRemovalPath(str, modelName, namespace);
      removed := false;
      if disk.IsFile(RoutesFile) {
        var content := disk.Get(RoutesFile);
        content, removed := StripRoutes(content, path);
        if removed {
          ghost var before := disk.files;
          disk.Put(RoutesFile, content);
          RewriteStored(before, Normalize(RoutesFile), content);
        }
      }
    }

    /**
     * The last two steps of `handle`: the route registrations, then the
     * test. A path is recorded exactly when the test existed.
     */
    method RemoveRoutesAndTests(disk: Disk)
      modifies this`deletedFiles, disk
      ensures |old(deletedFiles)| <= |deletedFiles|
      ensures |old(deletedFiles)| < |deletedFiles| <==> ExistsIn(old(disk.files), TestFile(modelName))
      ensures Normalize(TestFile(modelName)) !in disk.files && disk.files.Keys <= old(disk.files.Keys)
      ensures OnlyRoutesRewritten(old(disk.files), disk.files)
    {
      ghost var m0 := disk.files;
      var removed := RemoveRoutes(disk);
      ghost var m1 := disk.files;
      KeysDecideExistence(m1, m0, TestFile(modelName));
      DeleteTests(disk);
      ShrunkRewrites(m1, disk.files, Normalize(RoutesFile));
      RewrittenTrans(m0, m1, disk.files, Normalize(RoutesFile));
    }

    /** `deleteTests`. */
    method DeleteTests(disk: Disk)
      modifies this`deletedFiles, disk
      ensures var path := TestFile(modelName);
        && (old(disk.Exists(path)) ==>
              disk.files == old(disk.files) - {Normalize(path)} && deletedFiles == old(deletedFiles) + [path])
        && (!old(disk.Exists(path)) ==> disk.files == old(disk.files) && deletedFiles == old(deletedFiles))
        && Normalize(path) !in disk.files && Shrunk(old(disk.files), disk.files)
    {
      Remove(disk, TestFile(modelName));
    }

    /**
     * `handle`: without `--force`, a no to the first question ends the
     * command with nothing deleted; otherwise every step runs, and the
     * summary counts the deleted paths: it reports success exactly when a
     * step found something to delete (or paths were already recorded).
     */
    method Handle(disk: Disk, confirmed: bool, migrationConfirmed: bool) returns (summary: Summary)
      modifies this`modelName, this`namespace, this`deletedFiles, disk
      ensures (modelName, namespace) == MakeCrud.ModelNameParts(name)
      ensures !force && !confirmed ==>
        summary == Cancelled && disk.files == old(disk.files) && deletedFiles == old(deletedFiles)
      ensures force || confirmed ==>
        && summary == Finished(|deletedFiles|)
        && |old(deletedFiles)| <= |deletedFiles|
        && (|old(deletedFiles)| < |deletedFiles|
            <==> AnyToDelete(old(disk.files), str, modelName, namespace, force || migrationConfirmed))
        && (DeletedAny(summary)
            <==> |old(deletedFiles)| > 0 || AnyToDelete(old(disk.files), str, modelName, namespace, force || migrationConfirmed))
        && ArtifactsGone(disk.files, str, modelName, namespace)
        && ((force || migrationConfirmed) ==> MigrationsGone(disk.files, Table(str, modelName)))
      ensures OnlyRoutesRewritten(old(disk.files), disk.files)
    {
      ParseModelName();
      if !force && !confirmed {
        return Cancelled;
      }
      ghost var m0 := disk.files;
      ghost var d0 := deletedFiles;
      DeleteBackend(disk, migrationConfirmed);
      ghost var m5 := disk.files;
      ghost var found5 := BackendFound(m0, str, modelName, namespace, force || migrationConfirmed);
      RemoveRoutesAndTests(disk);
      if !found5 {
        KeysDecideExistence(m5, m0, TestFile(modelName));
      }
      StaysGone(m5, disk.files, str, modelName, namespace);
      ShrunkRewrites(m0, m5, Normalize(RoutesFile));
      RewrittenTrans(m0, m5, disk.files, Normalize(RoutesFile));
      summary := Finished(|deletedFiles|);
    }
  }
}
