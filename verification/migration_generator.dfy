/**
 * The migration generator: a `create_<table>_table` migration whose
 * column block lists the id, one column per field, one foreign key per
 * `belongsTo`, the soft-delete column and the timestamps.
 */
module MigrationGenerator {
  import opened Wrappers
  import opened PhpStrings
  import opened Template
  import opened Laravel
  import opened FieldParser
  import opened FileSystem
  import opened BaseGenerator

  /** The field-type to schema-builder-method map of `getMigrationColumnType`. */
  const ColumnTypeMap: map<string, string> := map[
    "string" := "string",
    "text" := "text",
    "integer" := "integer",
    "bigInteger" := "bigInteger",
    "float" := "float",
    "decimal" := "decimal",
    "double" := "double",
    "boolean" := "boolean",
    "date" := "date",
    "datetime" := "dateTime",
    "timestamp" := "timestamp",
    "time" := "time",
    "file" := "string",
    "image" := "string",
    "email" := "string",
    "password" := "string",
    "url" := "string"]

  /**
   * `getMigrationColumnType`: uploads, e-mail, password and URL fields are
   * strings, `datetime` is `dateTime`, and an unmapped type (tel, color,
   * a bare enum) falls back to a string column. No method starts with `e`.
   */
  function ColumnType(t: string): (r: string)
    ensures t in {"file", "image", "email", "password", "url"} ==> r == "string"
    ensures t == "datetime" ==> r == "dateTime"
    ensures t !in ColumnTypeMap ==> r == "string"
    ensures |r| > 0 && r[0] != 'e'
  {
    if t in ColumnTypeMap then ColumnTypeMap[t] else "string"
  }

  /** The quoted, comma-separated enum values. */
  function EnumValueList(values: seq<string>): string
  {
    "'" + Join(values, "', '") + "'"
  }

  /** The column call: an enum column with its quoted values, or the mapped method. */
  function ColumnHead(f: Field): string
  {
    if f.fieldType == "enum" && |f.enumValues| > 0 then "enum('" + f.name + "', [" + EnumValueList(f.enumValues) + "])"
    else ColumnType(f.fieldType) + "('" + f.name + "')"
  }

  /** Only string, text and enum defaults are quoted. */
  predicate QuotedDefault(t: string)
  {
    t in {"string", "text", "enum"}
  }

  const ColumnPrefix: string := "            $table->"

  /** The column call followed by `->nullable()` and `->unique()`, each only when set, in that order. */
  function Flagged(f: Field): string
  {
    var head := ColumnPrefix + ColumnHead(f);
    var withNullable := if f.nullable then head + "->nullable()" else head;
    if f.unique then withNullable + "->unique()" else withNullable
  }

  /** The default modifier: nothing without a default, quoted or raw otherwise. */
  function DefaultPart(f: Field): string
  {
    match f.defaultValue
    case None => ""
    case Some(v) =>
      if QuotedDefault(f.fieldType) then "->default('" + v + "')"
      else "->default(" + v + ")"
  }

  /** One column line up to its `;`: the flagged call, then the default, which comes last. */
  function ColumnCall(f: Field): string
  {
    Flagged(f) + DefaultPart(f)
  }

  /** The column line without its line break. */
  function ColumnText(f: Field): string
  {
    ColumnCall(f) + ";"
  }

  /** The column line as `generateColumnDefinition` returns it. */
  function ColumnLine(f: Field): (r: string)
    ensures r == ColumnText(f) + "\n"
  {
    ColumnCall(f) + ";\n"
  }

  /**
   * A column line is an enum column exactly when the field's type is
   * `enum` with at least one value; otherwise the type map applies.
   */
  lemma EnumColumnIff(f: Field)
    ensures StartsWith(ColumnText(f), ColumnPrefix + "enum(") <==> f.fieldType == "enum" && |f.enumValues| > 0
  {
    var n := |ColumnPrefix|;
    var head := ColumnPrefix + ColumnHead(f);
    var rest := ColumnText(f)[|head|..];
    assert ColumnText(f) == head + rest by {
      ModifiersExtend(f);
    }
    if !(f.fieldType == "enum" && |f.enumValues| > 0) {
      assert ColumnText(f)[n] == head[n] == ColumnType(f.fieldType)[0];
      assert (ColumnPrefix + "enum(")[n] == 'e';
    } else {
      assert head[..n + 5] == ColumnPrefix + "enum(";
      assert ColumnText(f)[..n + 5] == head[..n + 5];
    }
  }

  /** The modifiers only ever extend the column call. */
  lemma ModifiersExtend(f: Field)
    ensures StartsWith(ColumnText(f), ColumnPrefix + ColumnHead(f))
  {
    var head := ColumnPrefix + ColumnHead(f);
    var withNullable := if f.nullable then head + "->nullable()" else head;
    StartsWithAppend(head, "->nullable()");
    StartsWithAppend(withNullable, "->unique()");
    assert StartsWith(Flagged(f), head);
    assert ColumnText(f) == Flagged(f) + (DefaultPart(f) + ";");
    StartsWithAppend(Flagged(f), DefaultPart(f) + ";");
  }

  /**
   * A default is written quoted for string, text and enum columns and
   * raw for every other type, as the last modifier of the line.
   */
  lemma DefaultQuoting(f: Field, v: string)
    requires f.defaultValue == Some(v)
    ensures QuotedDefault(f.fieldType) ==> EndsWith(ColumnText(f), "->default('" + v + "');")
    ensures !QuotedDefault(f.fieldType) ==> EndsWith(ColumnText(f), "->default(" + v + ");")
  {
    assert ColumnText(f) == Flagged(f) + (DefaultPart(f) + ";");
    EndsWithAppend(Flagged(f), DefaultPart(f) + ";");
  }

  /** `generateColumnDefinition`: builds the line with `.=`, one piece after the other. */
  method GenerateColumnDefinition(f: Field) returns (line: string)
    ensures line == ColumnLine(f)
  {
    var name := f.name;
    var type_ := f.fieldType;
    line := "            $table->";
    if type_ == "enum" && |f.enumValues| > 0 {
      var values := "'" + Join(f.enumValues, "', '") + "'";
      line := line + ("enum('" + name + "', [" + values + "])");
    } else {
      line := line + (ColumnType(type_) + "('" + name + "')");
    }
    if f.nullable {
      line := line + "->nullable()";
    }
    if f.unique {
      line := line + "->unique()";
    }
    if f.defaultValue.Some? {
      var defaultValue := f.defaultValue.value;
      if type_ in {"string", "text", "enum"} {
        line := line + ("->default('" + defaultValue + "')");
      } else {
        line := line + ("->default(" + defaultValue + ")");
      }
    }
    line := line + ";\n";
  }

  const IdLine: string := "            $table->id();"
  const SoftDeletesLine: string := "            $table->softDeletes();"
  const TimestampsLine: string := "            $table->timestamps();"

  /** The foreign-key column of a `belongsTo` target: `snake(model)_id`, cascading on delete. */
  function ForeignKeyText(g: Generator, model: string): string
  {
    ForeignKeyCall(g.str.snake(model) + "_id")
  }

  /** The column call of a foreign key: an id column constrained to its table, deleted in cascade. */
  function ForeignKeyCall(key: string): string
  {
    "            $table->foreignId('" + key + "')->constrained()->onDelete('cascade');"
  }

  function ColumnPieces(fields: seq<Field>): (r: seq<string>)
    ensures |r| == |fields|
  {
    seq(|fields|, i requires 0 <= i < |fields| => ColumnLine(fields[i]))
  }

  function ForeignKeyPieces(g: Generator, targets: seq<string>): (r: seq<string>)
    ensures |r| == |targets|
  {
    seq(|targets|, i requires 0 <= i < |targets| => ForeignKeyText(g, targets[i]) + "\n")
  }

  /** The `{{columns}}` text: ends with the timestamps line and no line break. */
  function ColumnsBlock(g: Generator): string
  {
    IdLine + "\n"
    + Concat(ColumnPieces(g.options.fields))
    + Concat(ForeignKeyPieces(g, BelongsToTargets(g.options.relationships)))
    + (if g.options.softDelete then SoftDeletesLine + "\n" else "")
    + TimestampsLine
  }

  /** The lines the block is read as: id, one per field, one per foreign key, soft deletes if on. */
  function ColumnLines(g: Generator): seq<string>
  {
    var fields := g.options.fields;
    var targets := BelongsToTargets(g.options.relationships);
    [IdLine]
    + seq(|fields|, i requires 0 <= i < |fields| => ColumnText(fields[i]))
    + seq(|targets|, i requires 0 <= i < |targets| => ForeignKeyText(g, targets[i]))
    + (if g.options.softDelete then [SoftDeletesLine] else [])
  }

  /** The same lines, each with its line break: what the block concatenates before the timestamps. */
  function ColumnLinePieces(g: Generator): seq<string>
  {
    [IdLine + "\n"]
    + ColumnPieces(g.options.fields)
    + ForeignKeyPieces(g, BelongsToTargets(g.options.relationships))
    + (if g.options.softDelete then [SoftDeletesLine + "\n"] else [])
  }

  /** The block is the line pieces followed by the timestamps line. */
  lemma ColumnsBlockPieces(g: Generator)
    ensures Concat(ColumnLinePieces(g)) + TimestampsLine == ColumnsBlock(g)
  {
    var first := [IdLine + "\n"];
    var softPieces := if g.options.softDelete then [SoftDeletesLine + "\n"] else [];
    BlockPieces(first, ColumnPieces(g.options.fields), ForeignKeyPieces(g, BelongsToTargets(g.options.relationships)), softPieces);
    assert Concat(first) == IdLine + "\n" by {
      assert first[..0] == [];
    }
    assert Concat(softPieces) == (if g.options.softDelete then SoftDeletesLine + "\n" else "") by {
      if g.options.softDelete {
        assert softPieces[..0] == [];
      }
    }
  }

  /** Each piece is its line plus a line break, and no line holds a break of its own. */
  lemma ColumnPiecesAreLines(g: Generator)
    requires forall i :: 0 <= i < |g.options.fields| ==> '\n' !in ColumnText(g.options.fields[i])
    requires forall m :: m in BelongsToTargets(g.options.relationships) ==> '\n' !in ForeignKeyText(g, m)
    ensures LinePieces(ColumnLines(g), ColumnLinePieces(g))
  {
    var fields := g.options.fields;
    var targets := BelongsToTargets(g.options.relationships);
    var columnLines := seq(|fields|, i requires 0 <= i < |fields| => ColumnText(fields[i]));
    var foreignLines := seq(|targets|, i requires 0 <= i < |targets| => ForeignKeyText(g, targets[i]));
    var softLines := if g.options.softDelete then [SoftDeletesLine] else [];
    var softPieces := if g.options.softDelete then [SoftDeletesLine + "\n"] else [];
    assert LinePieces([IdLine], [IdLine + "\n"]);
    assert LinePieces(columnLines, ColumnPieces(fields));
    assert LinePieces(foreignLines, ForeignKeyPieces(g, targets)) by {
      forall i | 0 <= i < |targets| ensures '\n' !in foreignLines[i] {
        assert targets[i] in targets;
      }
    }
    assert LinePieces(softLines, softPieces);
    LinePiecesAppend([IdLine], [IdLine + "\n"], columnLines, ColumnPieces(fields));
    LinePiecesAppend([IdLine] + columnLines, [IdLine + "\n"] + ColumnPieces(fields), foreignLines, ForeignKeyPieces(g, targets));
    LinePiecesAppend([IdLine] + columnLines + foreignLines, [IdLine + "\n"] + ColumnPieces(fields) + ForeignKeyPieces(g, targets),
      softLines, softPieces);
  }

  /**
   * Read line by line, the block is the id column, one line per field in
   * field order, one foreign key per `belongsTo` in declared order, the
   * soft-delete column exactly when soft deletes are on, and the
   * timestamps last (provided no field or model text holds a line break).
   */
  lemma ColumnsBlockLines(g: Generator)
    requires forall i :: 0 <= i < |g.options.fields| ==> '\n' !in ColumnText(g.options.fields[i])
    requires forall m :: m in BelongsToTargets(g.options.relationships) ==> '\n' !in ForeignKeyText(g, m)
    ensures Split(ColumnsBlock(g), '\n') == ColumnLines(g) + [TimestampsLine]
  {
    ColumnsBlockPieces(g);
    ColumnPiecesAreLines(g);
    TimestampsOneLine();
    SplitLastLine(ColumnsBlock(g), ColumnLines(g), ColumnLinePieces(g), TimestampsLine);
  }

  /** The timestamps line holds no line break. */
  lemma TimestampsOneLine()
    ensures Split(TimestampsLine, '\n') == [TimestampsLine]
  {
    SplitWithoutDelimiter(TimestampsLine, '\n');
  }

  lemma BlockPieces(a: seq<string>, b: seq<string>, c: seq<string>, d: seq<string>)
    ensures Concat(a + b + c + d) == Concat(a) + Concat(b) + Concat(c) + Concat(d)
  {
    ConcatAppend(a, b);
    ConcatAppend(a + b, c);
    ConcatAppend(a + b + c, d);
  }

  /** One more relationship extends the foreign keys by that entry's line, if it is a `belongsTo`. */
  lemma ForeignKeyStep(g: Generator, rs: seq<Relationship>, j: nat)
    requires j < |rs|
    ensures Concat(ForeignKeyPieces(g, BelongsToTargets(rs[..j + 1])))
         == Concat(ForeignKeyPieces(g, BelongsToTargets(rs[..j])))
          + (if rs[j].kind == BelongsTo then ForeignKeyText(g, rs[j].model) + "\n" else "")
  {
    BelongsToStep(rs, j);
    var before := BelongsToTargets(rs[..j]);
    if rs[j].kind == BelongsTo {
      assert ForeignKeyPieces(g, before + [rs[j].model])
          == ForeignKeyPieces(g, before) + [ForeignKeyText(g, rs[j].model) + "\n"];
      ConcatAppend(ForeignKeyPieces(g, before), [ForeignKeyText(g, rs[j].model) + "\n"]);
      assert [ForeignKeyText(g, rs[j].model) + "\n"][..0] == [];
    } else {
      assert before + [] == before;
    }
  }

  /** `replaceColumns`: the column block built with `.=` over the fields and then the relationships. */
  method ReplaceColumns(g: Generator, stub: string) returns (r: string)
    ensures r == ReplaceAll(stub, "{{columns}}", ColumnsBlock(g))
  {
    var fields := g.options.fields;
    var relationships := g.options.relationships;
    var columns := IdLine + "\n";
    ghost var base := columns;
    for i := 0 to |fields|
      invariant columns == base + Concat(ColumnPieces(fields)[..i])
    {
      var line := GenerateColumnDefinition(fields[i]);
      ConcatAppendStep(base, ColumnPieces(fields), i);
      columns := columns + line;
    }
    assert ColumnPieces(fields)[..|fields|] == ColumnPieces(fields);
    ghost var withFields := columns;
    for j := 0 to |relationships|
      invariant columns == withFields + Concat(ForeignKeyPieces(g, BelongsToTargets(relationships[..j])))
    {
      ForeignKeyAppend(g, withFields, relationships, j, columns);
      if relationships[j].kind == BelongsTo {
        var foreignKey := g.str.snake(relationships[j].model) + "_id";
        var line := "            $table->foreignId('" + foreignKey + "')->constrained()->onDelete('cascade');" + "\n";
        columns := columns + line;
      } else {
        assert columns + "" == columns;
      }
    }
    assert relationships[..|relationships|] == relationships;
    ghost var withKeys := columns;
    if g.options.softDelete {
      columns := columns + (SoftDeletesLine + "\n");
    }
    ghost var withSoftDeletes := columns;
    columns := columns + TimestampsLine;
    BlockAssembled(g, withFields, withKeys, withSoftDeletes, columns);
    r := ReplaceAll(stub, "{{columns}}", columns);
  }

  /** The pieces `replaceColumns` appends, in its order, make up the column block. */
  lemma BlockAssembled(g: Generator, withFields: string, withKeys: string, withSoftDeletes: string, columns: string)
    requires withFields == IdLine + "\n" + Concat(ColumnPieces(g.options.fields))
    requires withKeys == withFields + Concat(ForeignKeyPieces(g, BelongsToTargets(g.options.relationships)))
    requires g.options.softDelete ==> withSoftDeletes == withKeys + (SoftDeletesLine + "\n")
    requires !g.options.softDelete ==> withSoftDeletes == withKeys
    requires columns == withSoftDeletes + TimestampsLine
    ensures columns == ColumnsBlock(g)
  {
    var soft := if g.options.softDelete then SoftDeletesLine + "\n" else "";
    assert withSoftDeletes == withKeys + soft by {
      assert withKeys + "" == withKeys;
    }
    assert columns == withKeys + soft + TimestampsLine;
    assert ColumnsBlock(g) == withKeys + soft + TimestampsLine;
  }

  /** One pass of the relationship loop extends the accumulated block by the next foreign key, if any. */
  lemma ForeignKeyAppend(g: Generator, withFields: string, rs: seq<Relationship>, j: nat, columns: string)
    requires j < |rs|
    requires columns == withFields + Concat(ForeignKeyPieces(g, BelongsToTargets(rs[..j])))
    ensures columns + (if rs[j].kind == BelongsTo then ForeignKeyText(g, rs[j].model) + "\n" else "")
         == withFields + Concat(ForeignKeyPieces(g, BelongsToTargets(rs[..j + 1])))
  {
    ForeignKeyStep(g, rs, j);
    AppendAssoc(withFields, Concat(ForeignKeyPieces(g, BelongsToTargets(rs[..j]))),
      if rs[j].kind == BelongsTo then ForeignKeyText(g, rs[j].model) + "\n" else "");
  }

  lemma AppendAssoc(a: string, b: string, c: string)
    ensures a + b + c == a + (b + c)
  {
  }

  /** `replaceClassName`: `Create<Studly(table)>Table`. */
  function ClassName(g: Generator): string
  {
    "Create" + g.str.studly(g.TableName()) + "Table"
  }

  /** The migration file name for a `Y_m_d_His` timestamp and a table. */
  function MigrationFileName(timestamp: string, table: string): string
  {
    timestamp + "_create_" + table + "_table.php"
  }

  /** `getMigrationPath`, with the clock reading passed in. */
  function MigrationPath(g: Generator, timestamp: string): string
  {
    DatabasePath("migrations/" + MigrationFileName(timestamp, g.TableName()))
  }

  /** The migration text: class, table and columns filled into the stub. */
  function MigrationText(g: Generator, files: map<string, string>): string
  {
    var s := ReplaceAll(Stub(files, "migration"), "{{class}}", ClassName(g));
    var s := ReplaceAll(s, "{{table}}", g.TableName());
    ReplaceAll(s, "{{columns}}", ColumnsBlock(g))
  }

  /** `generate`: always succeeds, writing the migration under the given timestamp. */
  method Generate(g: Generator, disk: Disk, timestamp: string) returns (o: Outcome)
    modifies disk
    ensures o == Success([MigrationPath(g, timestamp)])
    ensures disk.files == old(disk.files)[Normalize(MigrationPath(g, timestamp)) := MigrationText(g, old(disk.files))]
  {
    var stub := Stub(disk.files, "migration");
    stub := ReplaceAll(stub, "{{class}}", ClassName(g));
    stub := ReplaceAll(stub, "{{table}}", g.TableName());
    stub := ReplaceColumns(g, stub);
    var path := MigrationPath(g, timestamp);
    disk.Put(path, stub);
    o := Success([path]);
  }
}
