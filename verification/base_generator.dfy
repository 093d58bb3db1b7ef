/**
 * What every generator shares: the options record it is built with, the
 * names derived from it (table, variables, namespaces, route and view
 * paths) and the stub lookup.
 */
module BaseGenerator {
  import opened Wrappers
  import opened PhpStrings
  import opened Template
  import opened Laravel
  import opened FieldParser
  import opened FileSystem

  datatype RelationKind = BelongsTo | HasMany

  /** One `{type, model}` relationship entry. */
  datatype Relationship = Relationship(kind: RelationKind, model: string)

  /** The options array handed to every generator's constructor. */
  datatype Options = Options(
    modelName: string,
    namespace: string,
    fields: seq<Field>,
    relationships: seq<Relationship>,
    softDelete: bool,
    auth: bool,
    api: bool,
    testType: Option<string>)

  /**
   * The target models of the `belongsTo` entries, in the order given;
   * `hasMany` entries are skipped.
   */
  function BelongsToTargets(rs: seq<Relationship>): (r: seq<string>)
    ensures |r| <= |rs|
    decreases |rs|
  {
    if |rs| == 0 then []
    else BelongsToTargets(rs[..|rs| - 1]) + (if rs[|rs| - 1].kind == BelongsTo then [rs[|rs| - 1].model] else [])
  }

  /** A model is a `belongsTo` target exactly when some `belongsTo` entry names it. */
  lemma {:induction false} BelongsToMembers(rs: seq<Relationship>)
    ensures forall m :: m in BelongsToTargets(rs) <==> Relationship(BelongsTo, m) in rs
    decreases |rs|
  {
    if |rs| > 0 {
      BelongsToMembers(rs[..|rs| - 1]);
      assert rs == rs[..|rs| - 1] + [rs[|rs| - 1]];
    }
  }

  /** Without `belongsTo` entries there are no targets. */
  lemma {:induction false} NoBelongsTo(rs: seq<Relationship>)
    requires forall i :: 0 <= i < |rs| ==> rs[i].kind == HasMany
    ensures BelongsToTargets(rs) == []
    decreases |rs|
  {
    if |rs| > 0 {
      NoBelongsTo(rs[..|rs| - 1]);
    }
  }

  /** Filtering a longer prefix adds the next entry's target when it is a `belongsTo`. */
  lemma BelongsToStep(rs: seq<Relationship>, j: nat)
    requires j < |rs|
    ensures BelongsToTargets(rs[..j + 1])
         == BelongsToTargets(rs[..j]) + (if rs[j].kind == BelongsTo then [rs[j].model] else [])
  {
    assert rs[..j + 1][..j] == rs[..j];
  }

  /** One piece per `belongsTo` target, in the order of the targets. */
  function TargetPieces(f: string -> string, targets: seq<string>): (r: seq<string>)
    ensures |r| == |targets|
  {
    seq(|targets|, k requires 0 <= k < |targets| => f(targets[k]))
  }

  /** One pass of a loop over the relationships collects the next target's piece, if it is a `belongsTo`. */
  lemma TargetListAppend(f: string -> string, rs: seq<Relationship>, j: nat, acc: seq<string>)
    requires j < |rs| && acc == TargetPieces(f, BelongsToTargets(rs[..j]))
    ensures acc + (if rs[j].kind == BelongsTo then [f(rs[j].model)] else [])
         == TargetPieces(f, BelongsToTargets(rs[..j + 1]))
  {
    BelongsToStep(rs, j);
  }

  /** One pass of a `.=` loop over the relationships appends the next target's piece, if it is a `belongsTo`. */
  lemma TargetAppend(f: string -> string, base: string, rs: seq<Relationship>, j: nat, acc: string)
    requires j < |rs|
    requires acc == base + Concat(TargetPieces(f, BelongsToTargets(rs[..j])))
    ensures acc + (if rs[j].kind == BelongsTo then f(rs[j].model) else "")
         == base + Concat(TargetPieces(f, BelongsToTargets(rs[..j + 1])))
  {
    BelongsToStep(rs, j);
    var before := BelongsToTargets(rs[..j]);
    var piece := if rs[j].kind == BelongsTo then f(rs[j].model) else "";
    if rs[j].kind == BelongsTo {
      assert TargetPieces(f, before + [rs[j].model]) == TargetPieces(f, before) + [piece];
      ConcatAppend(TargetPieces(f, before), [piece]);
      assert [piece][..0] == [];
    } else {
      assert before + [] == before;
    }
    assert acc + piece == base + (Concat(TargetPieces(f, before)) + piece);
  }

  /** The result array of `generate()`: success with the written paths, or a failure message. */
  datatype Outcome = Success(paths: seq<string>) | Failure(message: string)

  /** Where a published (user-customised) stub lives. */
  function CustomStubPath(stubType: string): string
  {
    BasePath("stubs/crud-generator/" + stubType + ".stub")
  }

  /** Where the package's built-in stub lives. */
  function DefaultStubPath(stubType: string): string
  {
    PackageDir + "stubs/" + stubType + ".stub"
  }

  /**
   * `getStub` over the file map: the published stub if there is one, else
   * the built-in one, else the empty text.
   */
  function Stub(files: map<string, string>, stubType: string): (r: string)
    ensures Normalize(CustomStubPath(stubType)) in files ==> r == files[Normalize(CustomStubPath(stubType))]
    ensures Normalize(CustomStubPath(stubType)) !in files && Normalize(DefaultStubPath(stubType)) in files
            ==> r == files[Normalize(DefaultStubPath(stubType))]
    ensures Normalize(CustomStubPath(stubType)) !in files && Normalize(DefaultStubPath(stubType)) !in files
            ==> r == ""
  {
    if Normalize(CustomStubPath(stubType)) in files then files[Normalize(CustomStubPath(stubType))]
    else if Normalize(DefaultStubPath(stubType)) in files then files[Normalize(DefaultStubPath(stubType))]
    else ""
  }

  /**
   * The model generator's own `getStub`: the same lookup without the
   * empty-text fallback; reading the missing built-in stub throws (None).
   */
  function ModelStub(files: map<string, string>, stubType: string): (r: Option<string>)
    ensures r.None? <==> Normalize(CustomStubPath(stubType)) !in files && Normalize(DefaultStubPath(stubType)) !in files
    ensures r.Some? ==> r.value == Stub(files, stubType)
  {
    if Normalize(CustomStubPath(stubType)) in files then Some(files[Normalize(CustomStubPath(stubType))])
    else if Normalize(DefaultStubPath(stubType)) in files then Some(files[Normalize(DefaultStubPath(stubType))])
    else None
  }

  /**
   * Writing a file outside `stubs/` and `vendor/` (every generated path
   * starts with `app/`, `database/`, `resources/`, `routes/` or `tests/`)
   * leaves every stub lookup as it was.
   */
  lemma StubFrame(files: map<string, string>, p: string, content: string, stubType: string)
    requires |p| > 0 && p[0] != 's' && p[0] != 'v'
    ensures Stub(files[Normalize(p) := content], stubType) == Stub(files, stubType)
    ensures ModelStub(files[Normalize(p) := content], stubType) == ModelStub(files, stubType)
  {
    NormalizeHead(p);
    NormalizeHead(CustomStubPath(stubType));
    NormalizeHead(DefaultStubPath(stubType));
  }

  /**
   * A generator: the inflection helpers it calls and its options, fixed
   * at construction. Every derived name is a function of these two, so
   * asking twice gives the same answer.
   */
  datatype Generator = Generator(str: Inflector, options: Options)
  {
    /**
     * `getFullNamespace`: the configured base, extended by `\` and the
     * namespace when the namespace is non-empty in PHP's sense. A kind the
     * configuration lacks has a null base: the extension then starts with
     * the lone `\`, and without it the declared `string` return type
     * refuses the null (a `TypeError`, None here).
     */
    function FullNamespace(kind: NamespaceKind): (r: Option<string>)
      ensures r.None? <==> ConfiguredNamespace(kind).None? && !Truthy(options.namespace)
      ensures r.Some? ==> StartsWith(r.value, ConfiguredNamespace(kind).GetOr(""))
      ensures r.Some? ==> |r.value| == |ConfiguredNamespace(kind).GetOr("")|
                                       + (if Truthy(options.namespace) then 1 + |options.namespace| else 0)
      ensures r.Some? && Truthy(options.namespace) ==> EndsWith(r.value, "\\" + options.namespace)
    {
      var base := ConfiguredNamespace(kind);
      if Truthy(options.namespace) then
        StartsWithAppend(base.GetOr(""), "\\" + options.namespace);
        assert base.GetOr("") + "\\" + options.namespace == base.GetOr("") + ("\\" + options.namespace);
        EndsWithAppend(base.GetOr(""), "\\" + options.namespace);
        Some(base.GetOr("") + "\\" + options.namespace)
      else base
    }

    /** `getTableName`: plural of the snake-cased model name. */
    function TableName(): string
    {
      str.plural(str.snake(options.modelName))
    }

    /** `getModelVariable`. */
    function ModelVariable(): string
    {
      str.camel(options.modelName)
    }

    /** `getModelVariablePlural`. */
    function ModelVariablePlural(): string
    {
      str.camel(str.plural(options.modelName))
    }

    /** `str_replace('\\', '/', namespace)`: each backslash becomes a slash and nothing else moves. */
    function NamespacePath(): (r: string)
      ensures |r| == |options.namespace|
      ensures forall i :: 0 <= i < |r| ==> r[i] == (if options.namespace[i] == '\\' then '/' else options.namespace[i])
    {
      ReplaceCharLength(options.namespace, '\\', '/');
      ReplaceAll(options.namespace, "\\", "/")
    }

    /** The lower-cased, slash-separated namespace prefix of route and view paths. */
    function NamespacePrefix(): string
    {
      Lower(NamespacePath())
    }

    /** `getViewPath`: the prefix joined to the table name with `.`, if the prefix is non-empty. */
    function ViewPath(): (r: string)
      ensures EndsWith(r, TableName())
    {
      if Truthy(NamespacePrefix()) then NamespacePrefix() + "." + TableName() else TableName()
    }

    /** `getRoutePath`: the prefix joined to the table name with `/`, if the prefix is non-empty. */
    function RoutePath(): (r: string)
      ensures EndsWith(r, TableName())
    {
      if Truthy(NamespacePrefix()) then NamespacePrefix() + "/" + TableName() else TableName()
    }
  }

  /** The converted prefix is non-empty in PHP's sense exactly when the namespace is. */
  lemma PrefixTruthy(g: Generator)
    ensures Truthy(g.NamespacePrefix()) <==> Truthy(g.options.namespace)
  {
    var ns := g.options.namespace;
    var p := g.NamespacePrefix();
    assert |p| == |ns|;
    if |ns| == 1 {
      assert p[0] == LowerChar(if ns[0] == '\\' then '/' else ns[0]);
      assert p == "0" <==> ns == "0";
    }
  }

  /**
   * Route path and view path have the same length and agree everywhere
   * except at the one separator before the table name, which is `/` in
   * the route and `.` in the view; with an empty namespace they coincide.
   */
  lemma RouteViewDiffer(g: Generator)
    ensures |g.RoutePath()| == |g.ViewPath()|
    ensures forall i :: 0 <= i < |g.RoutePath()| && i != |g.NamespacePrefix()| ==> g.RoutePath()[i] == g.ViewPath()[i]
    ensures Truthy(g.options.namespace) ==>
      g.RoutePath()[|g.NamespacePrefix()|] == '/' && g.ViewPath()[|g.NamespacePrefix()|] == '.'
    ensures !Truthy(g.options.namespace) ==> g.RoutePath() == g.ViewPath()
  {
    PrefixTruthy(g);
  }

  /**
   * In the view path every namespace separator stays a `/` (letters are
   * lower-cased) and the only `.` added is the one before the table name:
   * `Admin\Billing` and `Invoice` give `admin/billing.invoices`.
   */
  lemma ViewPathKeepsSlashes(g: Generator)
    requires Truthy(g.options.namespace)
    ensures var ns := g.options.namespace;
      && |g.ViewPath()| == |ns| + 1 + |g.TableName()|
      && (forall i :: 0 <= i < |ns| ==> g.ViewPath()[i] == (if ns[i] == '\\' then '/' else LowerChar(ns[i])))
      && g.ViewPath()[|ns|] == '.'
      && g.ViewPath()[|ns| + 1..] == g.TableName()
  {
    PrefixTruthy(g);
  }

  /**
   * The full namespace is the configured base's segments followed by the
   * namespace's own segments; a kind without a configured base starts
   * with one empty segment, from the lone `\`.
   */
  lemma FullNamespaceSegments(g: Generator, kind: NamespaceKind)
    requires Truthy(g.options.namespace)
    ensures g.FullNamespace(kind).Some?
    ensures Split(g.FullNamespace(kind).value, '\\')
         == Split(ConfiguredNamespace(kind).GetOr(""), '\\') + Split(g.options.namespace, '\\')
  {
    SplitAtDelimiter(ConfiguredNamespace(kind).GetOr(""), g.options.namespace, '\\');
  }

}
