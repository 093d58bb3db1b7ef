/**
 * The controller generator: the resource controller's seven actions
 * (index with search, sort and pagination; create, store, edit, update,
 * destroy with dropdown data and file handling), filled into the web or
 * the API controller stub.
 */
module ControllerGenerator {
  import opened Wrappers
  import opened PhpStrings
  import opened Template
  import opened Laravel
  import opened FieldParser
  import opened FileSystem
  import opened BaseGenerator
  import RequestGenerator

  /** The stub: `controller.api` exactly in API mode, `controller.web` otherwise. */
  function StubName(g: Generator): (r: string)
    ensures r == "controller.api" <==> g.options.api
  {
    if g.options.api then "controller.api" else "controller.web"
  }

  /** The field types whose columns the index searches. */
  const SearchTypes: set<string> := {"string", "text", "email"}

  /** The field types that are uploaded files. */
  const FileTypes: set<string> := {"file", "image"}

  /**
   * The positions, in the field list, of the fields of the given types:
   * each such field, in increasing order.
   */
  function Positions(fields: seq<Field>, types: set<string>): (r: seq<nat>)
    ensures forall k :: 0 <= k < |r| ==> r[k] < |fields| && fields[r[k]].fieldType in types
    ensures forall k, l :: 0 <= k < l < |r| ==> r[k] < r[l]
    decreases |fields|
  {
    if |fields| == 0 then []
    else
      var n := |fields| - 1;
      var before := Positions(fields[..n], types);
      assert forall k :: 0 <= k < |before| ==> fields[..n][before[k]] == fields[before[k]];
      before + (if fields[n].fieldType in types then [n] else [])
  }

  /** Every field of the given types has its position listed. */
  lemma {:induction false} PositionsComplete(fields: seq<Field>, types: set<string>, i: nat)
    requires i < |fields| && fields[i].fieldType in types
    ensures i in Positions(fields, types)
    decreases |fields|
  {
    var n := |fields| - 1;
    if i < n {
      assert fields[..n][i] == fields[i];
      PositionsComplete(fields[..n], types, i);
    }
  }

  /**
   * `collect($fields)->filter(...)->pluck('name')->toArray()`: the names of
   * the fields of the given types, in field order. `pluck` rebuilds the
   * array with `[] =`, so the entry at index k is the k-th such field's name.
   */
  function Pluck(fields: seq<Field>, types: set<string>): (r: seq<string>)
    ensures |r| == |Positions(fields, types)|
    ensures forall k :: 0 <= k < |r| ==> r[k] == fields[Positions(fields, types)[k]].name
  {
    var p := Positions(fields, types);
    seq(|p|, k requires 0 <= k < |p| => fields[p[k]].name)
  }

  /**
   * The plucked names are exactly the names of the fields of the given
   * types, in field order: the first entry is the first such field, and
   * every such field's name is there.
   */
  lemma PluckedNames(fields: seq<Field>, types: set<string>)
    ensures var r := Pluck(fields, types);
      && (forall k :: 0 <= k < |r| ==>
            exists i :: 0 <= i < |fields| && fields[i].fieldType in types && fields[i].name == r[k])
      && (forall i :: 0 <= i < |fields| && fields[i].fieldType in types ==> fields[i].name in r)
      && (|r| == 0 <==> forall i :: 0 <= i < |fields| ==> fields[i].fieldType !in types)
      && (|r| > 0 ==> exists i :: 0 <= i < |fields| && fields[i].fieldType in types && r[0] == fields[i].name
                                  && forall j :: 0 <= j < i ==> fields[j].fieldType !in types)
  {
    var p := Positions(fields, types);
    var r := Pluck(fields, types);
    forall k | 0 <= k < |r|
      ensures exists i :: 0 <= i < |fields| && fields[i].fieldType in types && fields[i].name == r[k]
    {
      assert fields[p[k]].name == r[k];
    }
    forall i | 0 <= i < |fields| && fields[i].fieldType in types
      ensures fields[i].name in r && |r| > 0 && p[0] <= i
    {
      PositionsComplete(fields, types, i);
      var k :| 0 <= k < |p| && p[k] == i;
      assert r[k] == fields[i].name;
    }
    if |r| > 0 {
      assert fields[p[0]].fieldType in types && r[0] == fields[p[0]].name;
    }
  }

  /** `getSearchableFields`: the names of the string, text and email fields, in field order. */
  function SearchableFields(g: Generator): seq<string>
  {
    Pluck(g.options.fields, SearchTypes)
  }

  /**
   * `getFileFields`: the names of the file and image fields, in field
   * order, each of them and only them.
   */
  function FileFields(g: Generator): (r: seq<string>)
    ensures |r| == |Positions(g.options.fields, FileTypes)|
    ensures forall k :: 0 <= k < |r| ==> r[k] == g.options.fields[Positions(g.options.fields, FileTypes)[k]].name
    ensures forall k :: 0 <= k < |r| ==>
      (exists i :: 0 <= i < |g.options.fields| && g.options.fields[i].name == r[k] && g.options.fields[i].fieldType in FileTypes)
    ensures forall i :: 0 <= i < |g.options.fields| && g.options.fields[i].fieldType in FileTypes ==>
      g.options.fields[i].name in r
  {
    PluckedNames(g.options.fields, FileTypes);
    Pluck(g.options.fields, FileTypes)
  }

  /** The query method of the search clause at an index of the plucked list: `where` at index 0, `orWhere` after. */
  function Operator(index: nat): string
  {
    if index == 0 then "where" else "orWhere"
  }

  /**
   * The search closure opens with `where` on the first searchable field in
   * field order, wherever it stands, and joins every later searchable
   * field with `orWhere`.
   */
  lemma WhereForFirstSearchable(g: Generator)
    ensures var s := SearchableFields(g);
      var fields := g.options.fields;
      && (forall k :: 0 <= k < |s| ==> (Operator(k) == "where" <==> k == 0))
      && (|s| > 0 <==> exists i :: 0 <= i < |fields| && fields[i].fieldType in SearchTypes)
      && (|s| > 0 ==> exists i :: 0 <= i < |fields| && fields[i].fieldType in SearchTypes && s[0] == fields[i].name
                                  && forall j :: 0 <= j < i ==> fields[j].fieldType !in SearchTypes)
  {
    PluckedNames(g.options.fields, SearchTypes);
  }

  /** One search clause: the field matched with `like` against the search term. */
  function SearchClause(index: nat, name: string): string
  {
    "                $q->" + Operator(index) + "('" + name + "', 'like', '%' . request('search') . '%');\n"
  }

  /** The clauses of the search closure, one per searchable field, in field order. */
  function SearchClauses(names: seq<string>): (r: seq<string>)
    ensures |r| == |names|
  {
    seq(|names|, k requires 0 <= k < |names| => SearchClause(k, names[k]))
  }

  const SearchOpen: string := "            $query->where(function($q) {\n"
  const SearchClose: string := "            });\n"

  /** The search closure; it is left out entirely, and only, when no field is searchable. */
  function SearchClosure(g: Generator): (r: string)
    ensures r == "" <==> |SearchableFields(g)| == 0
  {
    if |SearchableFields(g)| == 0 then ""
    else SearchOpen + Concat(SearchClauses(SearchableFields(g))) + SearchClose
  }

  /** The default sort column and direction, and the configured page size. */
  const SortField: string := "request('sort', 'id')"
  const SortDirection: string := "request('direction', 'desc')"
  const PageSize: string := "config('crud-generator.pagination')"

  /** The opening of `index`, up to the search condition. */
  function IndexHead(g: Generator): string
  {
    "    public function index()\n    {\n"
    + ("        $query = " + g.options.modelName + "::query();\n\n")
    + "        // Search functionality\n"
    + "        if (request('search')) {\n"
  }

  /** The sorting lines and the pagination line of `index`. */
  function IndexSortAndPage(g: Generator): string
  {
    IndexSortAndPageOf(g.ModelVariablePlural())
  }

  /** The sorting lines and the pagination line of `index`, for the plural variable name. */
  function IndexSortAndPageOf(variablePlural: string): string
  {
    "        // Sorting functionality\n"
    + ("        $sortField = " + SortField + ";\n")
    + ("        $sortDirection = " + SortDirection + ";\n")
    + "        $query->orderBy($sortField, $sortDirection);\n\n"
    + ("        $" + variablePlural + " = $query->paginate(" + PageSize + ");\n\n")
  }

  /** What `index` returns: the page as JSON in API mode, the index view otherwise. */
  function IndexReturn(g: Generator): string
  {
    if g.options.api then "        return response()->json($" + g.ModelVariablePlural() + ");\n"
    else "        return view('" + g.ViewPath() + ".index', compact('" + g.ModelVariablePlural() + "'));\n"
  }

  /** The `index` action. */
  function IndexText(g: Generator): string
  {
    IndexHead(g) + SearchClosure(g) + "        }\n\n" + IndexSortAndPage(g) + IndexReturn(g) + "    }"
  }

  /**
   * The index sorts by the `sort` request value, `id` by default, in the
   * `direction` request value, descending by default, and pages by the
   * configured page size.
   */
  lemma IndexSortsAndPages(g: Generator)
    ensures Contains(IndexText(g), SortField)
    ensures Contains(IndexText(g), SortDirection)
    ensures Contains(IndexText(g), PageSize)
  {
    var a := "        // Sorting functionality\n";
    var b := "        $sortField = " + SortField + ";\n";
    var c := "        $sortDirection = " + SortDirection + ";\n";
    var d := "        $query->orderBy($sortField, $sortDirection);\n\n";
    var e := "        $" + g.ModelVariablePlural() + " = $query->paginate(" + PageSize + ");\n\n";
    ContainsAt("        $sortField = ", SortField, ";\n");
    ContainsAt("        $sortDirection = ", SortDirection, ";\n");
    ContainsAt("        $" + g.ModelVariablePlural() + " = $query->paginate(", PageSize, ");\n\n");
    ContainsRight(a, b, SortField);
    ContainsLeft(a + b, c, SortField);
    ContainsRight(a + b, c, SortDirection);
    ContainsLeft(a + b + c, d, SortField);
    ContainsLeft(a + b + c, d, SortDirection);
    ContainsLeft(a + b + c + d, e, SortField);
    ContainsLeft(a + b + c + d, e, SortDirection);
    ContainsRight(a + b + c + d, e, PageSize);
    InIndex(g, SortField);
    InIndex(g, SortDirection);
    InIndex(g, PageSize);
  }

  /** A text found in the sorting and paging lines is found in the index action. */
  lemma InIndex(g: Generator, t: string)
    requires Contains(IndexSortAndPage(g), t)
    ensures Contains(IndexText(g), t)
  {
    var head := IndexHead(g) + SearchClosure(g) + "        }\n\n";
    ContainsRight(head, IndexSortAndPage(g), t);
    ContainsLeft(head + IndexSortAndPage(g), IndexReturn(g), t);
    ContainsLeft(head + IndexSortAndPage(g) + IndexReturn(g), "    }", t);
  }

  /** `replaceIndexMethod`: builds the action with `.=`, one search clause per searchable field. */
  method ReplaceIndexMethod(g: Generator, stub: string) returns (r: string)
    ensures r == ReplaceAll(stub, "{{indexMethod}}", IndexText(g))
  {
    var modelName := g.options.modelName;
    var variablePlural := g.ModelVariablePlural();
    var code := "    public function index()\n    {\n";
    code := code + ("        $query = " + modelName + "::query();\n\n");
    code := code + "        // Search functionality\n";
    code := code + "        if (request('search')) {\n";
    assert code == IndexHead(g);
    ghost var head := code;
    var searchableFields := SearchableFields(g);
    if |searchableFields| > 0 {
      code := code + "            $query->where(function($q) {\n";
      ghost var open := code;
      ghost var clauses := SearchClauses(searchableFields);
      for k := 0 to |searchableFields|
        invariant code == open + Concat(clauses[..k])
      {
        var index, field := k, searchableFields[k];
        var operator := if index == 0 then "where" else "orWhere";
        ConcatAppendStep(open, clauses, k);
        assert clauses[k] == SearchClause(index, field);
        code := code + ("                $q->" + operator + "('" + field + "', 'like', '%' . request('search') . '%');\n");
      }
      assert clauses[..|searchableFields|] == clauses;
      code := code + "            });\n";
      Assoc3(head, SearchOpen, Concat(clauses), SearchClose);
    } else {
      assert code == head + "";
    }
    assert code == IndexHead(g) + SearchClosure(g);
    code := code + "        }\n\n";
    ghost var searched := code;
    code := code + IndexSortAndPageOf(variablePlural);
    ghost var sorted := code;
    if g.options.api {
      code := code + ("        return response()->json($" + variablePlural + ");\n");
    } else {
      code := code + ("        return view('" + g.ViewPath() + ".index', compact('" + variablePlural + "'));\n");
    }
    assert code == sorted + IndexReturn(g);
    code := code + "    }";
    r := ReplaceAll(stub, "{{indexMethod}}", code);
  }

  /** The line of `create` and `edit` that loads every record of a `belongsTo` target for its dropdown. */
  function LoadLine(g: Generator, model: string): string
  {
    "        $" + g.str.camel(g.str.plural(model)) + " = \\App\\Models\\" + model + "::all();\n"
  }

  /** One load line per `belongsTo` target, in declared order. */
  function Loads(g: Generator): string
  {
    Concat(TargetPieces(m => LoadLine(g, m), BelongsToTargets(g.options.relationships)))
  }

  /** The quoted variable name under which a target's records reach the view. */
  function CompactVar(g: Generator, model: string): string
  {
    "'" + g.str.camel(g.str.plural(model)) + "'"
  }

  /** The compact variables of the `belongsTo` targets, in declared order. */
  function TargetVars(g: Generator): seq<string>
  {
    TargetPieces(m => CompactVar(g, m), BelongsToTargets(g.options.relationships))
  }

  /**
   * The `compact(...)` arguments of `create` as written: taken whenever
   * any relationship is declared, so `hasMany`-only relationships give
   * an empty list.
   */
  function CreateCompactAsWritten(g: Generator): Option<seq<string>>
  {
    if |g.options.relationships| > 0 then Some(TargetVars(g)) else None
  }

  /**
   * With only `hasMany` relationships, `create` as written renders the
   * view with `compact()` and no argument at all.
   */
  lemma HasManyOnlyEmptyCompact(g: Generator)
    requires |g.options.relationships| > 0
    requires forall i :: 0 <= i < |g.options.relationships| ==> g.options.relationships[i].kind == HasMany
    requires !g.options.api
    ensures CreateCompactAsWritten(g) == Some([])
    ensures Contains(CreateTextOf(g, CreateCompactAsWritten(g)), "compact()")
  {
    var rs := g.options.relationships;
    NoBelongsTo(rs);
    var vp := g.ViewPath();
    var ret := "\n        return view('" + vp + ".create', compact(" + Join([], ", ") + "));\n";
    assert ret == ("\n        return view('" + vp + ".create', ") + "compact()" + (");\n") by {
      assert Join([], ", ") == "";
      assert "compact(" + "" + "))" == "compact()" + ")";
    }
    ContainsAt("\n        return view('" + vp + ".create', ", "compact()", ");\n");
    var head := "    public function create()\n    {\n" + Loads(g);
    ContainsRight(head, ret, "compact()");
    ContainsLeft(head + ret, "    }", "compact()");
  }

  /**
   * The corrected `compact(...)` arguments of `create`: taken exactly when
   * some relationship is a `belongsTo`, and then never empty; whenever the
   * source takes that branch with a non-empty list, they agree.
   */
  function CreateCompact(g: Generator): (r: Option<seq<string>>)
    ensures r.Some? ==> |r.value| >= 1
    ensures r.Some? <==> exists m :: Relationship(BelongsTo, m) in g.options.relationships
    ensures r.Some? ==> CreateCompactAsWritten(g) == r
  {
    BelongsToMembers(g.options.relationships);
    if |BelongsToTargets(g.options.relationships)| > 0 then
      var m := BelongsToTargets(g.options.relationships)[0];
      assert Relationship(BelongsTo, m) in g.options.relationships;
      Some(TargetVars(g))
    else None
  }

  /** The `create` action for a choice of compact arguments; nothing at all in API mode. */
  function CreateTextOf(g: Generator, compact: Option<seq<string>>): (r: string)
    ensures r == "" <==> g.options.api
  {
    if g.options.api then ""
    else
      "    public function create()\n    {\n"
      + Loads(g)
      + (match compact
         case Some(vars) => "\n        return view('" + g.ViewPath() + ".create', compact(" + Join(vars, ", ") + "));\n"
         case None => "        return view('" + g.ViewPath() + ".create');\n")
      + "    }"
  }

  /** The corrected `create` action, the reference the generated one is compared with. */
  function CreateText(g: Generator): string
  {
    CreateTextOf(g, CreateCompact(g))
  }

  /** The `create` action as the generator writes it. */
  function CreateTextAsWritten(g: Generator): string
  {
    CreateTextOf(g, CreateCompactAsWritten(g))
  }

  /**
   * The written `create` action is the corrected one except in exactly
   * one case: outside API mode, with relationships that are all `hasMany`.
   */
  lemma CreateDiffersOnlyForHasMany(g: Generator)
    ensures CreateTextAsWritten(g) != CreateText(g) <==>
      !g.options.api && |g.options.relationships| > 0
      && forall m :: Relationship(BelongsTo, m) !in g.options.relationships
  {
    var rs := g.options.relationships;
    if !g.options.api && |rs| > 0 && forall m :: Relationship(BelongsTo, m) !in rs {
      var vp := g.ViewPath();
      var head := "    public function create()\n    {\n" + Loads(g);
      assert CreateCompactAsWritten(g) == Some(TargetVars(g));
      assert CreateCompact(g) == None;
      BelongsToMembers(rs);
      assert BelongsToTargets(rs) == [];
      assert TargetVars(g) == [];
      assert Join([], ", ") == "";
      assert |CreateTextAsWritten(g)| == |head| + |"\n        return view('" + vp + ".create', compact(" + "" + "));\n"| + 5;
      assert |CreateText(g)| == |head| + |"        return view('" + vp + ".create');\n"| + 5;
    }
  }

  /**
   * `replaceCreateMethod`: loads each `belongsTo` target, then, whenever
   * any relationship is declared, renders the view with the collected
   * variables, however few.
   */
  method ReplaceCreateMethod(g: Generator, stub: string) returns (r: string)
    ensures r == ReplaceAll(stub, "{{createMethod}}", CreateTextAsWritten(g))
  {
    if g.options.api {
      return ReplaceAll(stub, "{{createMethod}}", "");
    }
    var rs := g.options.relationships;
    var code := "    public function create()\n    {\n";
    ghost var head := code;
    for j := 0 to |rs|
      invariant code == head + Concat(TargetPieces(m => LoadLine(g, m), BelongsToTargets(rs[..j])))
    {
      TargetAppend(m => LoadLine(g, m), head, rs, j, code);
      if rs[j].kind == BelongsTo {
        var name := g.str.camel(g.str.plural(rs[j].model));
        code := code + ("        $" + name + " = \\App\\Models\\" + rs[j].model + "::all();\n");
      } else {
        code := code + "";
      }
    }
    assert rs[..|rs|] == rs;
    if |rs| > 0 {
      var compactVars: seq<string> := [];
      for j := 0 to |rs|
        invariant compactVars == TargetPieces(m => CompactVar(g, m), BelongsToTargets(rs[..j]))
      {
        TargetListAppend(m => CompactVar(g, m), rs, j, compactVars);
        if rs[j].kind == BelongsTo {
          compactVars := compactVars + ["'" + g.str.camel(g.str.plural(rs[j].model)) + "'"];
        } else {
          compactVars := compactVars + [];
        }
      }
      var compact := Join(compactVars, ", ");
      code := code + ("\n        return view('" + g.ViewPath() + ".create', compact(" + compact + "));\n");
    } else {
      code := code + ("        return view('" + g.ViewPath() + ".create');\n");
    }
    code := code + "    }";
    r := ReplaceAll(stub, "{{createMethod}}", code);
  }

  /**
   * The `compact(...)` arguments of `edit`: the model variable first, then
   * one variable per `belongsTo` target, in declared order.
   */
  function EditCompactVars(g: Generator): (r: seq<string>)
    ensures |r| == 1 + |BelongsToTargets(g.options.relationships)|
    ensures r[0] == "'" + g.ModelVariable() + "'"
    ensures forall k :: 0 <= k < |BelongsToTargets(g.options.relationships)| ==>
      r[k + 1] == CompactVar(g, BelongsToTargets(g.options.relationships)[k])
  {
    ["'" + g.ModelVariable() + "'"] + TargetVars(g)
  }

  /** The `edit` action; nothing at all in API mode. */
  function EditText(g: Generator): (r: string)
    ensures r == "" <==> g.options.api
  {
    if g.options.api then ""
    else
      "    public function edit(" + g.options.modelName + " $" + g.ModelVariable() + ")\n    {\n"
      + Loads(g)
      + ("\n        return view('" + g.ViewPath() + ".edit', compact(" + Join(EditCompactVars(g), ", ") + "));\n")
      + "    }"
  }

  /** `replaceEditMethod`: loads each `belongsTo` target and renders the edit view with the model and those. */
  method ReplaceEditMethod(g: Generator, stub: string) returns (r: string)
    ensures r == ReplaceAll(stub, "{{editMethod}}", EditText(g))
  {
    if g.options.api {
      return ReplaceAll(stub, "{{editMethod}}", "");
    }
    var modelName := g.options.modelName;
    var variable := g.ModelVariable();
    var rs := g.options.relationships;
    var code := "    public function edit(" + modelName + " $" + variable + ")\n    {\n";
    ghost var head := code;
    for j := 0 to |rs|
      invariant code == head + Concat(TargetPieces(m => LoadLine(g, m), BelongsToTargets(rs[..j])))
    {
      TargetAppend(m => LoadLine(g, m), head, rs, j, code);
      if rs[j].kind == BelongsTo {
        var name := g.str.camel(g.str.plural(rs[j].model));
        code := code + ("        $" + name + " = \\App\\Models\\" + rs[j].model + "::all();\n");
      } else {
        code := code + "";
      }
    }
    assert rs[..|rs|] == rs;
    var compactVars := ["'" + variable + "'"];
    for j := 0 to |rs|
      invariant compactVars == ["'" + variable + "'"] + TargetPieces(m => CompactVar(g, m), BelongsToTargets(rs[..j]))
    {
      TargetListAppend(m => CompactVar(g, m), rs, j, compactVars[1..]);
      if rs[j].kind == BelongsTo {
        compactVars := compactVars + ["'" + g.str.camel(g.str.plural(rs[j].model)) + "'"];
      } else {
        compactVars := compactVars + [];
      }
    }
    var compact := Join(compactVars, ", ");
    code := code + ("\n        return view('" + g.ViewPath() + ".edit', compact(" + compact + "));\n");
    code := code + "    }";
    r := ReplaceAll(stub, "{{editMethod}}", code);
  }

  /** The call that moves an uploaded file to the configured storage path on the public disk. */
  function StoreUpload(field: string): string
  {
    "$request->file('" + field + "')->store(config('crud-generator.storage_path'), 'public')"
  }

  /** The upload block of `store` for one file field. */
  function StoreBlock(field: string): string
  {
    "        if ($request->hasFile('" + field + "')) {\n"
    + ("            $data['" + field + "'] = " + StoreUpload(field) + ";\n")
    + "        }\n\n"
  }

  /** Which action a file field's block belongs to; `update` and `destroy` name the model variable. */
  datatype BlockKind = OnStore | OnUpdate(variable: string) | OnDestroy(variable: string)

  /** The block of one file field in the given action. */
  function Block(kind: BlockKind, field: string): string
  {
    match kind
    case OnStore => StoreBlock(field)
    case OnUpdate(v) => UpdateBlock(v, field)
    case OnDestroy(v) => DestroyBlock(v, field)
  }

  /** One block per file field, in field order. */
  function Blocks(fields: seq<string>, kind: BlockKind): (r: seq<string>)
    ensures |r| == |fields|
  {
    seq(|fields|, k requires 0 <= k < |fields| => Block(kind, fields[k]))
  }

  /** The blocks of a list of file fields, after a comment line when there are any. */
  function FileBlocks(comment: string, fields: seq<string>, kind: BlockKind): (r: string)
    requires comment != ""
    ensures r == "" <==> |fields| == 0
  {
    if |fields| == 0 then ""
    else comment + Concat(Blocks(fields, kind))
  }

  /** One pass of a `.=` loop over the file fields appends the next field's block. */
  lemma BlockStep(base: string, fields: seq<string>, kind: BlockKind, k: nat, piece: string)
    requires k < |fields| && piece == Block(kind, fields[k])
    ensures base + Concat(Blocks(fields, kind)[..k]) + piece == base + Concat(Blocks(fields, kind)[..k + 1])
  {
    ConcatAppendStep(base, Blocks(fields, kind), k);
  }

  /**
   * The `.=` loop of `store`, `update` and `destroy` over the file fields:
   * when there are any, the comment line and then each field's block, in
   * field order; nothing otherwise.
   */
  method AppendBlocks(code: string, comment: string, fields: seq<string>, kind: BlockKind) returns (r: string)
    requires comment != ""
    ensures r == code + FileBlocks(comment, fields, kind)
  {
    r := code;
    if |fields| > 0 {
      r := r + comment;
      for k := 0 to |fields|
        invariant r == code + comment + Concat(Blocks(fields, kind)[..k])
      {
        var field := fields[k];
        BlockStep(code + comment, fields, kind, k, Block(kind, field));
        r := r + Block(kind, field);
      }
      assert Blocks(fields, kind)[..|fields|] == Blocks(fields, kind);
      Assoc2(code, comment, Concat(Blocks(fields, kind)));
    } else {
      assert r == code + "";
    }
  }

  /** `store` up to its response: validated data, one upload block per file field, create. */
  function StoreBody(g: Generator): string
  {
    "    public function store(Store" + g.options.modelName + "Request $request)\n    {\n"
    + "        $data = $request->validated();\n\n"
    + FileBlocks("        // Handle file uploads\n", FileFields(g), OnStore)
    + ("        $" + g.ModelVariable() + " = " + g.options.modelName + "::create($data);\n\n")
  }

  /** The `store` action: validated data, one upload block per file field, create, then respond. */
  function StoreText(g: Generator): string
  {
    var v := g.ModelVariable();
    var body := StoreBody(g);
    if g.options.api then
      body + ("        return response()->json($" + v + ", 201);\n") + "    }"
    else
      body + ("        return redirect()->route('" + g.RoutePath() + ".index')\n")
      + "            ->with('success', config('crud-generator.messages.created'));\n" + "    }"
  }

  /** The statement that deletes a stored file named by the model's attribute from the public disk. */
  function StorageDelete(variable: string, field: string): string
  {
    "\\Storage::disk('public')->delete($" + variable + "->" + field + ");"
  }

  /** The upload block of `update` for one file field: the old file is deleted before the new one is stored. */
  function UpdateBlock(variable: string, field: string): string
  {
    "        if ($request->hasFile('" + field + "')) {\n"
    + "            // Delete old file\n"
    + ("            if ($" + variable + "->" + field + ") {\n")
    + ("                " + StorageDelete(variable, field) + "\n")
    + "            }\n"
    + ("            $data['" + field + "'] = " + StoreUpload(field) + ";\n")
    + "        }\n\n"
  }

  /** `update` up to its response: validated data, one upload block per file field, update. */
  function UpdateBody(g: Generator): string
  {
    var v := g.ModelVariable();
    "    public function update(Update" + g.options.modelName + "Request $request, " + g.options.modelName + " $" + v + ")\n    {\n"
    + "        $data = $request->validated();\n\n"
    + FileBlocks("        // Handle file uploads\n", FileFields(g), OnUpdate(v))
    + ("        $" + v + "->update($data);\n\n")
  }

  /** The `update` action: validated data, one upload block per file field, update, then respond. */
  function UpdateText(g: Generator): string
  {
    var v := g.ModelVariable();
    var body := UpdateBody(g);
    if g.options.api then
      body + ("        return response()->json($" + v + ");\n") + "    }"
    else
      body + ("        return redirect()->route('" + g.RoutePath() + ".index')\n")
      + "            ->with('success', config('crud-generator.messages.updated'));\n" + "    }"
  }

  /** The file deletion of `destroy` for one file field. */
  function DestroyBlock(variable: string, field: string): string
  {
    ("        if ($" + variable + "->" + field + ") {\n")
    + ("            " + StorageDelete(variable, field) + "\n")
    + "        }\n"
  }

  /** The file deletions of `destroy`: a comment, one block per file field, a blank line; nothing without file fields. */
  function DestroyFiles(g: Generator): (r: string)
    ensures r == "" <==> |FileFields(g)| == 0
  {
    var v := g.ModelVariable();
    if |FileFields(g)| == 0 then ""
    else FileBlocks("        // Delete associated files\n", FileFields(g), OnDestroy(v)) + "\n"
  }

  /** The statement of `destroy` that deletes the record. */
  function DeleteRecord(variable: string): string
  {
    "        $" + variable + "->delete();\n\n"
  }

  /** The signature line and opening brace of `destroy`. */
  function DestroyOpening(g: Generator): string
  {
    "    public function destroy(" + g.options.modelName + " $" + g.ModelVariable() + ")\n    {\n"
  }

  /** `destroy` up to its response: the stored files, then the record. */
  function DestroyBody(g: Generator): string
  {
    DestroyOpening(g) + DestroyFiles(g) + DeleteRecord(g.ModelVariable())
  }

  /** The `destroy` action: the stored files first, then the record, then respond. */
  function DestroyText(g: Generator): string
  {
    var body := DestroyBody(g);
    if g.options.api then
      body + ("        return response()->json(" + "['message' => 'Deleted successfully'], 200);\n") + "    }"
    else
      body + ("        return redirect()->route('" + g.RoutePath() + ".index')\n")
      + "            ->with('success', config('crud-generator.messages.deleted'));\n" + "    }"
  }

  /**
   * `destroy` deletes the stored file of every file field before it
   * deletes the record: the text before the record's deletion holds each
   * file's deletion.
   */
  lemma DestroyDeletesFilesFirst(g: Generator)
    ensures var v := g.ModelVariable();
      var before := DestroyOpening(g) + DestroyFiles(g);
      && DestroyBody(g) == before + DeleteRecord(v)
      && StartsWith(DestroyText(g), DestroyBody(g))
      && (forall f :: f in FileFields(g) ==> Contains(before, StorageDelete(v, f)))
      && (forall i :: 0 <= i < |g.options.fields| && g.options.fields[i].fieldType in FileTypes ==>
            Contains(before, StorageDelete(v, g.options.fields[i].name)))
  {
    var v := g.ModelVariable();
    var head := DestroyOpening(g);
    DestroyTextExtendsBody(g);
    forall f | f in FileFields(g)
      ensures Contains(head + DestroyFiles(g), StorageDelete(v, f))
    {
      DestroyFilesHold(g, f);
      ContainsRight(head, DestroyFiles(g), StorageDelete(v, f));
    }
  }

  /** The `destroy` action is its body followed by the response. */
  lemma DestroyTextExtendsBody(g: Generator)
    ensures StartsWith(DestroyText(g), DestroyBody(g))
  {
    var body := DestroyBody(g);
    if g.options.api {
      var ret := ("        return response()->json(" + "['message' => 'Deleted successfully'], 200);\n");
      Assoc2(body, ret, "    }");
      StartsWithAppend(body, ret + "    }");
    } else {
      var redirect := "        return redirect()->route('" + g.RoutePath() + ".index')\n";
      var flash := "            ->with('success', config('crud-generator.messages.deleted'));\n";
      assert DestroyText(g) == body + redirect + flash + "    }";
      Assoc3(body, redirect, flash, "    }");
      StartsWithAppend(body, redirect + flash + "    }");
    }
  }

  /** The file deletions of `destroy` hold the deletion of each file field's stored file. */
  lemma DestroyFilesHold(g: Generator, f: string)
    requires f in FileFields(g)
    ensures Contains(DestroyFiles(g), StorageDelete(g.ModelVariable(), f))
  {
    var v := g.ModelVariable();
    var fields := FileFields(g);
    var k :| 0 <= k < |fields| && fields[k] == f;
    DestroyBlockHolds(v, f);
    FileBlocksHold("        // Delete associated files\n", fields, OnDestroy(v), k, StorageDelete(v, f));
    ContainsLeft(FileBlocks("        // Delete associated files\n", fields, OnDestroy(v)), "\n", StorageDelete(v, f));
  }

  lemma DestroyBlockHolds(v: string, f: string)
    ensures Contains(DestroyBlock(v, f), StorageDelete(v, f))
  {
    var guard := "        if ($" + v + "->" + f + ") {\n";
    assert DestroyBlock(v, f) == guard + ("            " + StorageDelete(v, f) + "\n") + "        }\n";
    Middle(guard, "            ", StorageDelete(v, f), "\n", "        }\n");
  }

  /** The middle of a text regrouped around it is found in it. */
  lemma Middle(a: string, b: string, t: string, c: string, d: string)
    ensures Contains(a + (b + t + c) + d, t)
  {
    assert a + (b + t + c) + d == (a + b) + t + (c + d);
    ContainsAt(a + b, t, c + d);
  }

  /** A text found in one field's block is found in the blocks of all the fields. */
  lemma FileBlocksHold(comment: string, fields: seq<string>, kind: BlockKind, k: nat, t: string)
    requires comment != "" && k < |fields| && Contains(Block(kind, fields[k]), t)
    ensures Contains(FileBlocks(comment, fields, kind), t)
  {
    var blocks := Blocks(fields, kind);
    assert blocks[k] == Block(kind, fields[k]);
    ConcatHolds(blocks, k, t);
    ContainsRight(comment, Concat(blocks), t);
  }

  /** A text found in one piece is found in the concatenation of the pieces. */
  lemma {:induction false} ConcatHolds(xs: seq<string>, k: nat, t: string)
    requires k < |xs| && Contains(xs[k], t)
    ensures Contains(Concat(xs), t)
    decreases |xs|
  {
    var n := |xs| - 1;
    if k == n {
      ContainsRight(Concat(xs[..n]), xs[n], t);
    } else {
      assert xs[..n][k] == xs[k];
      ConcatHolds(xs[..n], k, t);
      ContainsLeft(Concat(xs[..n]), xs[n], t);
    }
  }

  /** `replaceStoreMethod`: one upload block per file field, in field order. */
  method ReplaceStoreMethod(g: Generator, stub: string) returns (r: string)
    ensures r == ReplaceAll(stub, "{{storeMethod}}", StoreText(g))
  {
    var modelName := g.options.modelName;
    var variable := g.ModelVariable();
    var code := "    public function store(Store" + modelName + "Request $request)\n    {\n";
    code := code + "        $data = $request->validated();\n\n";
    var fileFields := FileFields(g);
    code := AppendBlocks(code, "        // Handle file uploads\n", fileFields, OnStore);
    code := code + ("        $" + variable + " = " + modelName + "::create($data);\n\n");
    assert code == StoreBody(g);
    if g.options.api {
      code := code + ("        return response()->json($" + variable + ", 201);\n");
    } else {
      code := code + ("        return redirect()->route('" + g.RoutePath() + ".index')\n");
      code := code + "            ->with('success', config('crud-generator.messages.created'));\n";
    }
    code := code + "    }";
    r := ReplaceAll(stub, "{{storeMethod}}", code);
  }

  /** `replaceUpdateMethod`: one upload block per file field, each deleting the old file first. */
  method ReplaceUpdateMethod(g: Generator, stub: string) returns (r: string)
    ensures r == ReplaceAll(stub, "{{updateMethod}}", UpdateText(g))
  {
    var modelName := g.options.modelName;
    var variable := g.ModelVariable();
    var code := "    public function update(Update" + modelName + "Request $request, " + modelName + " $" + variable + ")\n    {\n";
    code := code + "        $data = $request->validated();\n\n";
    var fileFields := FileFields(g);
    code := AppendBlocks(code, "        // Handle file uploads\n", fileFields, OnUpdate(variable));
    code := code + ("        $" + variable + "->update($data);\n\n");
    assert code == UpdateBody(g);
    if g.options.api {
      code := code + ("        return response()->json($" + variable + ");\n");
    } else {
      code := code + ("        return redirect()->route('" + g.RoutePath() + ".index')\n");
      code := code + "            ->with('success', config('crud-generator.messages.updated'));\n";
    }
    code := code + "    }";
    r := ReplaceAll(stub, "{{updateMethod}}", code);
  }

  /** `replaceDestroyMethod`: the stored files of the file fields are deleted before the record. */
  method ReplaceDestroyMethod(g: Generator, stub: string) returns (r: string)
    ensures r == ReplaceAll(stub, "{{destroyMethod}}", DestroyText(g))
  {
    var modelName := g.options.modelName;
    var variable := g.ModelVariable();
    var code := "    public function destroy(" + modelName + " $" + variable + ")\n    {\n";
    ghost var head := code;
    var fileFields := FileFields(g);
    code := AppendBlocks(code, "        // Delete associated files\n", fileFields, OnDestroy(variable));
    if |fileFields| > 0 {
      code := code + "\n";
      Assoc2(head, FileBlocks("        // Delete associated files\n", fileFields, OnDestroy(variable)), "\n");
    } else {
      assert code == head + "";
    }
    assert code == head + DestroyFiles(g);
    code := code + ("        $" + variable + "->delete();\n\n");
    assert code == DestroyBody(g);
    if g.options.api {
      code := code + ("        return response()->json(" + "['message' => 'Deleted successfully'], 200);\n");
    } else {
      code := code + ("        return redirect()->route('" + g.RoutePath() + ".index')\n");
      code := code + "            ->with('success', config('crud-generator.messages.deleted'));\n";
    }
    code := code + "    }";
    assert code == DestroyText(g);
    r := ReplaceAll(stub, "{{destroyMethod}}", code);
  }

  /** The controller's class name. */
  function ClassName(g: Generator): string
  {
    g.options.modelName + "Controller"
  }

  /** The import of the model class from the model namespace. */
  function ModelImport(g: Generator): string
  {
    "use " + g.FullNamespace(ModelKind).value + "\\" + g.options.modelName + ";"
  }

  /** The imports of the two request classes from the request namespace, one per line. */
  function RequestImports(g: Generator): string
  {
    var ns := g.FullNamespace(RequestKind).value;
    "use " + ns + "\\Store" + g.options.modelName + "Request;\n"
    + "use " + ns + "\\Update" + g.options.modelName + "Request;"
  }

  /**
   * The controller imports exactly the two classes the request generator
   * writes, from the namespace it writes them to.
   */
  lemma ImportsNameGeneratedRequests(g: Generator)
    ensures var ns := g.FullNamespace(RequestKind).value;
      RequestImports(g)
      == "use " + ns + "\\" + RequestGenerator.ClassName(g, RequestGenerator.Store) + ";\n"
       + "use " + ns + "\\" + RequestGenerator.ClassName(g, RequestGenerator.Update) + ";"
  {
    var ns := g.FullNamespace(RequestKind).value;
    var m := g.options.modelName;
    assert "use " + ns + "\\Store" + m + "Request;\n" == "use " + ns + "\\" + ("Store" + m + "Request") + ";\n";
    assert "use " + ns + "\\Update" + m + "Request;" == "use " + ns + "\\" + ("Update" + m + "Request") + ";";
  }

  /** The constructor that applies the `auth` middleware; empty exactly when auth is off. */
  function AuthMiddleware(g: Generator): (r: string)
    ensures r == "" <==> !g.options.auth
  {
    if g.options.auth then "\n    public function __construct()\n    {\n        $this->middleware('auth');\n    }\n" else ""
  }

  /** `getControllerPath`: under `app/Http/Controllers/`, in the namespace's directory, named after the class. */
  function ControllerPath(g: Generator): (r: string)
    ensures StartsWith(r, AppPath("Http/Controllers/")) && EndsWith(r, "/" + ClassName(g) + ".php")
  {
    PathShape("app/", "Http/Controllers/", g.NamespacePath(), "/" + ClassName(g) + ".php");
    AppPath("Http/Controllers/" + g.NamespacePath() + ("/" + ClassName(g) + ".php"))
  }

  /** The stub with the naming placeholders filled in, before the actions. */
  function NamedText(g: Generator, files: map<string, string>): string
  {
    var s := Stub(files, StubName(g));
    var s := ReplaceAll(s, "{{namespace}}", g.FullNamespace(ControllerKind).value);
    var s := ReplaceAll(s, "{{class}}", ClassName(g));
    var s := ReplaceAll(s, "{{modelImport}}", ModelImport(g));
    var s := ReplaceAll(s, "{{requestImports}}", RequestImports(g));
    var s := ReplaceAll(s, "{{authMiddleware}}", AuthMiddleware(g));
    var s := ReplaceAll(s, "{{modelVariable}}", g.ModelVariable());
    var s := ReplaceAll(s, "{{modelVariablePlural}}", g.ModelVariablePlural());
    var s := ReplaceAll(s, "{{tableName}}", g.TableName());
    var s := ReplaceAll(s, "{{viewPath}}", g.ViewPath());
    ReplaceAll(s, "{{routePath}}", g.RoutePath())
  }

  /** The controller: the named stub with the six actions, then the model name, filled in. */
  function ControllerText(g: Generator, files: map<string, string>): string
  {
    var s := ReplaceAll(NamedText(g, files), "{{indexMethod}}", IndexText(g));
    var s := ReplaceAll(s, "{{createMethod}}", CreateTextAsWritten(g));
    var s := ReplaceAll(s, "{{storeMethod}}", StoreText(g));
    var s := ReplaceAll(s, "{{editMethod}}", EditText(g));
    var s := ReplaceAll(s, "{{updateMethod}}", UpdateText(g));
    var s := ReplaceAll(s, "{{destroyMethod}}", DestroyText(g));
    ReplaceAll(s, "{{modelName}}", g.options.modelName)
  }

  /** `generate`: always succeeds, writing the controller and nothing else. */
  method Generate(g: Generator, disk: Disk) returns (o: Outcome)
    modifies disk
    ensures o == Success([ControllerPath(g)])
    ensures disk.files == old(disk.files)[Normalize(ControllerPath(g)) := ControllerText(g, old(disk.files))]
  {
    var stub := Stub(disk.files, StubName(g));
    stub := ReplaceAll(stub, "{{namespace}}", g.FullNamespace(ControllerKind).value);
    stub := ReplaceAll(stub, "{{class}}", ClassName(g));
    stub := ReplaceAll(stub, "{{modelImport}}", ModelImport(g));
    stub := ReplaceAll(stub, "{{requestImports}}", RequestImports(g));
    stub := ReplaceAll(stub, "{{authMiddleware}}", AuthMiddleware(g));
    stub := ReplaceAll(stub, "{{modelVariable}}", g.ModelVariable());
    stub := ReplaceAll(stub, "{{modelVariablePlural}}", g.ModelVariablePlural());
    stub := ReplaceAll(stub, "{{tableName}}", g.TableName());
    stub := ReplaceAll(stub, "{{viewPath}}", g.ViewPath());
    stub := ReplaceAll(stub, "{{routePath}}", g.RoutePath());
    assert stub == NamedText(g, disk.files);
    stub := ReplaceIndexMethod(g, stub);
    stub := ReplaceCreateMethod(g, stub);
    stub := ReplaceStoreMethod(g, stub);
    stub := ReplaceEditMethod(g, stub);
    stub := ReplaceUpdateMethod(g, stub);
    stub := ReplaceDestroyMethod(g, stub);
    stub := ReplaceAll(stub, "{{modelName}}", g.options.modelName);
    assert stub == ControllerText(g, old(disk.files));
    var path := ControllerPath(g);
    disk.Put(path, stub);
    o := Success([path]);
  }
}
