/**
 * The Eloquent model generator: the class with its `$fillable` list, the
 * soft-delete trait, one relationship method per relationship and a
 * `$casts` block for the typed fields.
 */
module ModelGenerator {
  import opened Wrappers
  import opened PhpStrings
  import opened Template
  import opened Laravel
  import opened FieldParser
  import opened FileSystem
  import opened BaseGenerator
  import MigrationGenerator

  /** One `$fillable` entry: the field name in single quotes. */
  function FillableEntry(f: Field): string
  {
    "'" + f.name + "'"
  }

  function FillableEntries(fields: seq<Field>): (r: seq<string>)
    ensures |r| == |fields|
  {
    seq(|fields|, i requires 0 <= i < |fields| => FillableEntry(fields[i]))
  }

  /** `replaceFillable`'s list: the quoted names imploded with `,\n        `. */
  function Fillable(fields: seq<Field>): string
  {
    Join(FillableEntries(fields), ",\n        ")
  }

  /**
   * Read line by line, the fillable list holds one quoted name per field in
   * field order, every line but the first indented and every line but the
   * last ending with a comma (for names without line breaks).
   */
  lemma FillableLines(fields: seq<Field>)
    requires |fields| >= 1
    requires forall i :: 0 <= i < |fields| ==> '\n' !in fields[i].name
    ensures |Split(Fillable(fields), '\n')| == |fields|
    ensures forall i :: 0 <= i < |fields| ==>
      Split(Fillable(fields), '\n')[i]
        == (if i == 0 then "" else "        ") + "'" + fields[i].name + "'" + (if i == |fields| - 1 then "" else ",")
  {
    var entries := FillableEntries(fields);
    var lines := Split(Fillable(fields), '\n');
    FillableFramed(fields);
    forall i | 0 <= i < |fields|
      ensures lines[i] == (if i == 0 then "" else "        ") + "'" + fields[i].name + "'" + (if i == |fields| - 1 then "" else ",")
    {
      var head := if i == 0 then "" else "        ";
      var tail := if i == |fields| - 1 then "" else ",";
      assert lines[i] == head + entries[i] + tail;
      assert head + ("'" + fields[i].name + "'") + tail == head + "'" + fields[i].name + "'" + tail;
    }
  }

  lemma FillableFramed(fields: seq<Field>)
    requires |fields| >= 1
    requires forall i :: 0 <= i < |fields| ==> '\n' !in fields[i].name
    ensures Split(Fillable(fields), '\n') == Framed("", FillableEntries(fields), ",", "        ")
  {
    var entries := FillableEntries(fields);
    forall i | 0 <= i < |entries| ensures '\n' !in entries[i] {
      assert entries[i] == "'" + fields[i].name + "'";
    }
    assert ",\n        " == "," + "\n" + "        ";
    SplitFramed("", entries, ",", "        ");
    assert "" + Fillable(fields) == Fillable(fields);
  }

  /** The `use` statement `replaceSoftDeletes` puts at the top of the file. */
  function SoftDeletesImport(softDelete: bool): string
  {
    if softDelete then "use Illuminate\\Database\\Eloquent\\SoftDeletes;" else ""
  }

  /** The trait line `replaceSoftDeletes` puts into the class body. */
  function SoftDeletesTrait(softDelete: bool): string
  {
    if softDelete then "use SoftDeletes;" else ""
  }

  /** The import and the trait come together: both present with soft deletes, both empty without. */
  lemma SoftDeletesTogether(softDelete: bool)
    ensures Truthy(SoftDeletesImport(softDelete)) <==> softDelete
    ensures Truthy(SoftDeletesTrait(softDelete)) <==> softDelete
    ensures !softDelete ==> SoftDeletesImport(softDelete) == SoftDeletesTrait(softDelete) == ""
  {
  }

  /** The name of the generated relationship method: the camel-cased target, pluralised for `hasMany`. */
  function MethodName(g: Generator, r: Relationship): string
  {
    match r.kind
    case BelongsTo => g.str.camel(r.model)
    case HasMany => g.str.camel(g.str.plural(r.model))
  }

  /** The body line of a relationship method: the Eloquent relation of its kind to the target model. */
  function ReturnLine(r: Relationship): string
  {
    match r.kind
    case BelongsTo => "        return $this->belongsTo(\\App\\Models\\" + r.model + "::class);"
    case HasMany => "        return $this->hasMany(\\App\\Models\\" + r.model + "::class);"
  }

  /**
   * The text of one relationship method: a leading line break, the
   * signature, and the return line between braces, each on its own line.
   */
  function MethodText(signature: string, body: string): string
  {
    "\n" + signature + "\n" + "    {" + "\n" + body + "\n" + "    }" + "\n"
  }

  /** The signature line of a relationship method. */
  function Signature(name: string): string
  {
    "    public function " + name + "()"
  }

  /** `generateBelongsTo`. */
  function BelongsToMethod(g: Generator, model: string): string
  {
    MethodText(Signature(g.str.camel(model)), "        return $this->belongsTo(\\App\\Models\\" + model + "::class);")
  }

  /** `generateHasMany`. */
  function HasManyMethod(g: Generator, model: string): string
  {
    MethodText(Signature(g.str.camel(g.str.plural(model))), "        return $this->hasMany(\\App\\Models\\" + model + "::class);")
  }

  /** The method `replaceRelationships` appends for one relationship. */
  function RelationshipMethod(g: Generator, r: Relationship): string
  {
    match r.kind
    case BelongsTo => BelongsToMethod(g, r.model)
    case HasMany => HasManyMethod(g, r.model)
  }

  /** The five lines of one relationship method: a blank line, the signature, the braces around the return. */
  function MethodLines(g: Generator, r: Relationship): (lines: seq<string>)
    ensures |lines| == 5
  {
    ["", Signature(MethodName(g, r)), "    {", ReturnLine(r), "    }"]
  }

  /**
   * A relationship method splits into its five lines and an empty rest:
   * the method is named after the target (pluralised for `hasMany`) and
   * returns the matching Eloquent relation to `App\Models\<target>`.
   */
  lemma RelationshipMethodLines(g: Generator, r: Relationship)
    requires '\n' !in r.model && '\n' !in MethodName(g, r)
    ensures Split(RelationshipMethod(g, r), '\n') == MethodLines(g, r) + [""]
  {
    assert RelationshipMethod(g, r) == MethodText(Signature(MethodName(g, r)), ReturnLine(r));
    NoBreakInLines(g, r);
    MethodShape(Signature(MethodName(g, r)), "    {", ReturnLine(r), "    }");
  }

  /** The signature and return lines inherit the absence of line breaks from the names. */
  lemma NoBreakInLines(g: Generator, r: Relationship)
    requires '\n' !in r.model && '\n' !in MethodName(g, r)
    ensures '\n' !in Signature(MethodName(g, r)) && '\n' !in ReturnLine(r)
  {
    SignatureClean();
    BelongsToClean();
    HasManyClean();
  }

  lemma SignatureClean()
    ensures '\n' !in "    public function " && '\n' !in "()"
  {
  }

  lemma BelongsToClean()
    ensures '\n' !in "        return $this->belongsTo(\\App\\Models\\" && '\n' !in "::class);"
  {
  }

  lemma HasManyClean()
    ensures '\n' !in "        return $this->hasMany(\\App\\Models\\"
  {
  }

  /** The line structure of a method text, for any four lines without line breaks. */
  lemma MethodShape(a: string, b: string, c: string, d: string)
    requires '\n' !in a && '\n' !in b && '\n' !in c && '\n' !in d
    ensures Split("\n" + a + "\n" + b + "\n" + c + "\n" + d + "\n", '\n') == ["", a, b, c, d, ""]
  {
    var t0 := "\n";
    SplitAddBreak("", '\n');
    assert "" + ['\n'] == t0;
    assert Split(t0, '\n') == ["", ""];
    var t1 := t0 + a;
    SplitAddText(t0, a, '\n');
    assert "" + a == a;
    var t2 := t1 + "\n";
    SplitAddBreak(t1, '\n');
    var t3 := t2 + b;
    SplitAddText(t2, b, '\n');
    assert "" + b == b;
    var t4 := t3 + "\n";
    SplitAddBreak(t3, '\n');
    var t5 := t4 + c;
    SplitAddText(t4, c, '\n');
    assert "" + c == c;
    var t6 := t5 + "\n";
    SplitAddBreak(t5, '\n');
    var t7 := t6 + d;
    SplitAddText(t6, d, '\n');
    assert "" + d == d;
    SplitAddBreak(t7, '\n');
  }

  function RelationshipMethods(g: Generator, rs: seq<Relationship>): (r: seq<string>)
    ensures |r| == |rs|
  {
    seq(|rs|, i requires 0 <= i < |rs| => RelationshipMethod(g, rs[i]))
  }

  /** The `{{relationships}}` text: the methods in declared order. */
  function RelationshipsBlock(g: Generator): string
  {
    Concat(RelationshipMethods(g, g.options.relationships))
  }

  /** The lines of the relationship methods, method after method. */
  function RelationshipLines(g: Generator, rs: seq<Relationship>): (r: seq<string>)
    ensures |r| == 5 * |rs|
    decreases |rs|
  {
    if |rs| == 0 then [] else RelationshipLines(g, rs[..|rs| - 1]) + MethodLines(g, rs[|rs| - 1])
  }

  /** Lines `5k` to `5k + 4` are the method of the `k`-th relationship. */
  lemma {:induction false} RelationshipLinesAt(g: Generator, rs: seq<Relationship>, k: nat)
    requires k < |rs|
    ensures RelationshipLines(g, rs)[5 * k..5 * k + 5] == MethodLines(g, rs[k])
    decreases |rs|
  {
    var n := |rs| - 1;
    var before := RelationshipLines(g, rs[..n]);
    assert RelationshipLines(g, rs) == before + MethodLines(g, rs[n]);
    if k < n {
      RelationshipLinesAt(g, rs[..n], k);
      SliceOfAppend(before, MethodLines(g, rs[n]), 5 * k, 5 * k + 5);
    } else {
      SliceOfAppend(before, MethodLines(g, rs[n]), 5 * k, 5 * k + 5);
    }
  }

  /** A slice of two sequences laid end to end, taken wholly inside one of them. */
  lemma SliceOfAppend(xs: seq<string>, ys: seq<string>, lo: nat, hi: nat)
    requires lo <= hi <= |xs| + |ys|
    ensures hi <= |xs| ==> (xs + ys)[lo..hi] == xs[lo..hi]
    ensures lo == |xs| && hi == |xs| + |ys| ==> (xs + ys)[lo..hi] == ys
  {
  }

  /**
   * Read line by line, the relationship block is one five-line method per
   * relationship in declared order, followed by an empty rest.
   */
  lemma {:induction false} RelationshipsBlockLines(g: Generator, rs: seq<Relationship>)
    requires forall i :: 0 <= i < |rs| ==> '\n' !in rs[i].model && '\n' !in MethodName(g, rs[i])
    ensures Split(Concat(RelationshipMethods(g, rs)), '\n') == RelationshipLines(g, rs) + [""]
    decreases |rs|
  {
    if |rs| > 0 {
      var n := |rs| - 1;
      var methods := RelationshipMethods(g, rs);
      assert methods[..n] == RelationshipMethods(g, rs[..n]);
      RelationshipsBlockLines(g, rs[..n]);
      RelationshipMethodLines(g, rs[n]);
      var x, y := Concat(methods[..n]), methods[n];
      assert Concat(methods) == x + y;
      SplitAppend(x, y, '\n');
      GlueBlank(RelationshipLines(g, rs[..n]), MethodLines(g, rs[n]));
    }
  }

  /** Gluing a text that ends in a line break to one that starts with a blank line, piece by piece. */
  lemma GlueBlank(before: seq<string>, lines: seq<string>)
    requires |lines| >= 1 && lines[0] == ""
    ensures var X, Y := before + [""], lines + [""];
      X[..|X| - 1] + [X[|X| - 1] + Y[0]] + Y[1..] == before + lines + [""]
  {
    var X, Y := before + [""], lines + [""];
    assert X[..|X| - 1] == before;
    assert X[|X| - 1] + Y[0] == "";
    assert Y[1..] == lines[1..] + [""];
    assert [""] + lines[1..] == lines;
  }

  /** `replaceRelationships`: appends each relationship's method with `.=`. */
  method ReplaceRelationships(g: Generator, stub: string) returns (r: string)
    ensures r == ReplaceAll(stub, "{{relationships}}", RelationshipsBlock(g))
  {
    var rs := g.options.relationships;
    var relationships := "";
    for i := 0 to |rs|
      invariant relationships == Concat(RelationshipMethods(g, rs)[..i])
    {
      ConcatStep(RelationshipMethods(g, rs), i);
      var relation := rs[i];
      if relation.kind == BelongsTo {
        relationships := relationships + BelongsToMethod(g, relation.model);
      } else if relation.kind == HasMany {
        relationships := relationships + HasManyMethod(g, relation.model);
      }
    }
    assert RelationshipMethods(g, rs)[..|rs|] == RelationshipMethods(g, rs);
    r := ReplaceAll(stub, "{{relationships}}", relationships);
  }

  /** The types `replaceCasts` casts. */
  const CastTypes: set<string> :=
    {"boolean", "date", "datetime", "timestamp", "integer", "bigInteger", "float", "decimal", "double"}

  /** The cast of a field type, if it has one. */
  function CastOf(t: string): (r: Option<string>)
    ensures r.Some? <==> t in CastTypes
    ensures t == "boolean" ==> r == Some("boolean")
    ensures t in {"date", "datetime", "timestamp"} ==> r == Some("datetime")
    ensures t in {"integer", "bigInteger"} ==> r == Some("integer")
    ensures t in {"float", "decimal", "double"} ==> r == Some("decimal:2")
  {
    if t == "boolean" then Some("boolean")
    else if t in ["date", "datetime", "timestamp"] then Some("datetime")
    else if t in ["integer", "bigInteger"] then Some("integer")
    else if t in ["float", "decimal", "double"] then Some("decimal:2")
    else None
  }

  /**
   * Every cast type has a column type of its own in the migration, so a
   * cast never lands on a column the migration stores as a string.
   */
  lemma CastedColumnsAreTyped(t: string)
    requires CastOf(t).Some?
    ensures t in MigrationGenerator.ColumnTypeMap && MigrationGenerator.ColumnType(t) != "string"
  {
  }

  function CastEntry(name: string, cast: string): string
  {
    "'" + name + "' => '" + cast + "'"
  }

  /** The `$casts` entries: one per field with a cast, in field order. */
  function Casts(fields: seq<Field>): (r: seq<string>)
    ensures |r| <= |fields|
    decreases |fields|
  {
    if |fields| == 0 then []
    else
      var f := fields[|fields| - 1];
      Casts(fields[..|fields| - 1])
      + (match CastOf(f.fieldType) case Some(c) => [CastEntry(f.name, c)] case None => [])
  }

  /** There are no casts exactly when no field has a cast type. */
  lemma {:induction false} CastsEmpty(fields: seq<Field>)
    ensures Casts(fields) == [] <==> forall i :: 0 <= i < |fields| ==> fields[i].fieldType !in CastTypes
    decreases |fields|
  {
    if |fields| > 0 {
      var n := |fields| - 1;
      CastsEmpty(fields[..n]);
      assert forall i :: 0 <= i < n ==> fields[..n][i] == fields[i];
    }
  }

  /** An entry is a cast exactly when some field with a cast type produces it. */
  lemma {:induction false} CastsMembers(fields: seq<Field>)
    ensures forall e :: e in Casts(fields) <==>
      exists i :: 0 <= i < |fields| && fields[i].fieldType in CastTypes
        && e == CastEntry(fields[i].name, CastOf(fields[i].fieldType).value)
    decreases |fields|
  {
    if |fields| > 0 {
      var n := |fields| - 1;
      CastsMembers(fields[..n]);
      assert forall i :: 0 <= i < n ==> fields[..n][i] == fields[i];
    }
  }

  /** The `{{casts}}` text: empty without casts, otherwise the `$casts` property. */
  function CastsBlock(fields: seq<Field>): string
  {
    var casts := Casts(fields);
    if |casts| == 0 then ""
    else "\n" + "    protected $casts = [" + "\n" + "        " + Join(casts, ",\n        ") + "\n" + "    ];"
  }

  /**
   * Read line by line, the `$casts` block is a blank line, the property's
   * opening, one indented entry per cast (commas between) and the
   * closing bracket.
   */
  lemma CastsBlockLines(fields: seq<Field>)
    requires Casts(fields) != []
    requires forall i :: 0 <= i < |Casts(fields)| ==> '\n' !in Casts(fields)[i]
    ensures Split(CastsBlock(fields), '\n')
         == ["", "    protected $casts = ["] + Framed("        ", Casts(fields), ",", "        ") + ["    ];"]
  {
    assert ",\n        " == "," + "\n" + "        ";
    BlockShape("    protected $casts = [", "        ", Casts(fields), ",", "        ", "    ];");
  }

  /** The line structure of a block holding an imploded list, for any texts without line breaks. */
  lemma BlockShape(opening: string, indent: string, parts: seq<string>, before: string, after: string, closing: string)
    requires |parts| >= 1
    requires '\n' !in opening && '\n' !in indent && '\n' !in before && '\n' !in after && '\n' !in closing
    requires forall i :: 0 <= i < |parts| ==> '\n' !in parts[i]
    ensures Split("\n" + opening + "\n" + indent + Join(parts, before + "\n" + after) + "\n" + closing, '\n')
         == ["", opening] + Framed(indent, parts, before, after) + [closing]
  {
    var t0 := "\n";
    SplitAddBreak("", '\n');
    assert "" + ['\n'] == t0;
    var t1 := t0 + opening;
    SplitAddText(t0, opening, '\n');
    assert "" + opening == opening;
    var t2 := t1 + "\n";
    SplitAddBreak(t1, '\n');
    var t3 := t2 + indent;
    SplitAddText(t2, indent, '\n');
    assert "" + indent == indent;
    assert Split(t3, '\n') == ["", opening, indent];
    var t4 := t3 + Join(parts, before + "\n" + after);
    SplitAddJoin(t3, parts, before, after);
    var lines := ["", opening] + Framed(indent, parts, before, after);
    assert Split(t4, '\n') == lines;
    var t5 := t4 + "\n";
    SplitAddBreak(t4, '\n');
    SplitAddText(t5, closing, '\n');
    assert (lines + [""])[..|lines|] == lines;
    assert "" + closing == closing;
  }

  /** `replaceCasts`: collects the entries with `$casts[]` and fills `{{casts}}`. */
  method ReplaceCasts(g: Generator, stub: string) returns (r: string)
    ensures r == ReplaceAll(stub, "{{casts}}", CastsBlock(g.options.fields))
  {
    var fields := g.options.fields;
    var casts: seq<string> := [];
    for i := 0 to |fields|
      invariant casts == Casts(fields[..i])
    {
      assert fields[..i + 1][..i] == fields[..i];
      var field := fields[i];
      if field.fieldType == "boolean" {
        casts := casts + [CastEntry(field.name, "boolean")];
      } else if field.fieldType in ["date", "datetime", "timestamp"] {
        casts := casts + [CastEntry(field.name, "datetime")];
      } else if field.fieldType in ["integer", "bigInteger"] {
        casts := casts + [CastEntry(field.name, "integer")];
      } else if field.fieldType in ["float", "decimal", "double"] {
        casts := casts + [CastEntry(field.name, "decimal:2")];
      }
    }
    assert fields[..|fields|] == fields;
    var castsString := "";
    if |casts| > 0 {
      castsString := "\n" + "    protected $casts = [" + "\n" + "        " + Join(casts, ",\n        ") + "\n" + "    ];";
    }
    r := ReplaceAll(stub, "{{casts}}", castsString);
  }

  /** `getModelPath`. */
  function ModelPath(g: Generator): (r: string)
    ensures StartsWith(r, AppPath("Models/")) && EndsWith(r, "/" + g.options.modelName + ".php")
  {
    PathShape("app/", "Models/", g.NamespacePath(), "/" + g.options.modelName + ".php");
    AppPath("Models/" + g.NamespacePath() + ("/" + g.options.modelName + ".php"))
  }

  /** The model class: the stub with namespace, class, fillable, soft deletes, relationships and casts filled in that order. */
  function ModelText(g: Generator, stub: string): string
  {
    var s := ReplaceAll(stub, "{{namespace}}", g.FullNamespace(ModelKind).value);
    var s := ReplaceAll(s, "{{class}}", g.options.modelName);
    var s := ReplaceAll(s, "{{fillable}}", Fillable(g.options.fields));
    var s := ReplaceAll(s, "{{useSoftDeletes}}", SoftDeletesImport(g.options.softDelete));
    var s := ReplaceAll(s, "{{softDeleteTrait}}", SoftDeletesTrait(g.options.softDelete));
    var s := ReplaceAll(s, "{{relationships}}", RelationshipsBlock(g));
    ReplaceAll(s, "{{casts}}", CastsBlock(g.options.fields))
  }

  /** A stub naming none of the tokens is written out as it is. */
  lemma ModelTextPlain(g: Generator, stub: string)
    requires !Contains(stub, "{{namespace}}") && !Contains(stub, "{{class}}") && !Contains(stub, "{{fillable}}")
    requires !Contains(stub, "{{useSoftDeletes}}") && !Contains(stub, "{{softDeleteTrait}}")
    requires !Contains(stub, "{{relationships}}") && !Contains(stub, "{{casts}}")
    ensures ModelText(g, stub) == stub
  {
    ReplaceAbsent(stub, "{{namespace}}", g.FullNamespace(ModelKind).value);
    ReplaceAbsent(stub, "{{class}}", g.options.modelName);
    ReplaceAbsent(stub, "{{fillable}}", Fillable(g.options.fields));
    ReplaceAbsent(stub, "{{useSoftDeletes}}", SoftDeletesImport(g.options.softDelete));
    ReplaceAbsent(stub, "{{softDeleteTrait}}", SoftDeletesTrait(g.options.softDelete));
    ReplaceAbsent(stub, "{{relationships}}", RelationshipsBlock(g));
    ReplaceAbsent(stub, "{{casts}}", CastsBlock(g.options.fields));
  }

  /**
   * `generate`: reading the stub throws when neither the published nor
   * the built-in one exists (None: nothing is written); otherwise the
   * model is written and the result is success with its path.
   */
  method Generate(g: Generator, disk: Disk) returns (o: Option<Outcome>)
    modifies disk
    ensures ModelStub(old(disk.files), "model").None? ==> o.None? && disk.files == old(disk.files)
    ensures ModelStub(old(disk.files), "model").Some? ==>
      o == Some(Success([ModelPath(g)]))
      && disk.files == old(disk.files)[Normalize(ModelPath(g)) := ModelText(g, ModelStub(old(disk.files), "model").value)]
  {
    var stub := ModelStub(disk.files, "model");
    if stub.None? {
      return None;
    }
    var s := ReplaceAll(stub.value, "{{namespace}}", g.FullNamespace(ModelKind).value);
    s := ReplaceAll(s, "{{class}}", g.options.modelName);
    s := ReplaceAll(s, "{{fillable}}", Fillable(g.options.fields));
    s := ReplaceAll(s, "{{useSoftDeletes}}", SoftDeletesImport(g.options.softDelete));
    s := ReplaceAll(s, "{{softDeleteTrait}}", SoftDeletesTrait(g.options.softDelete));
    s := ReplaceRelationships(g, s);
    s := ReplaceCasts(g, s);
    var path := ModelPath(g);
    disk.Put(path, s);
    o := Some(Success([path]));
  }
}
