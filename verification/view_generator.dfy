/**
 * The view generator: four Blade views (index, create, edit, show) in the
 * model's view directory, each a template stub with the naming
 * placeholders and the field-driven markup filled in.
 */
module ViewGenerator {
  import opened Wrappers
  import opened PhpStrings
  import opened Template
  import opened Laravel
  import opened FieldParser
  import opened FileSystem
  import opened BaseGenerator
  import ControllerGenerator

  /** The field types the listing leaves out of its table. */
  const Unlisted: set<string> := {"text", "file", "image"}

  /** The field types whose cells are formatted as a date. */
  const DateTypes: set<string> := {"date", "datetime", "timestamp"}

  /** The human label of a field or model name: underscores become spaces, then title case. */
  function Label(g: Generator, name: string): string
  {
    g.str.title(ReplaceAll(name, "_", " "))
  }

  /** `getViewDirectory`: `views/<namespace path>/<table>` under the resources directory, or `views/<table>`. */
  function ViewDirectory(g: Generator): string
  {
    var namespacePath := g.NamespacePrefix();
    var viewName := g.str.plural(g.str.snake(g.options.modelName));
    if Truthy(namespacePath) then ResourcePath("views/" + namespacePath + "/" + viewName)
    else ResourcePath("views/" + viewName)
  }

  /**
   * The directory the views are written to is where Laravel looks up the
   * dotted view name the controller renders: the view path under
   * `resources/views/`, with the one `.` before the table name read as a
   * directory separator.
   */
  lemma ViewDirectoryHoldsViewPath(g: Generator)
    ensures var dir := ViewDirectory(g);
      var prefix := "resources/views/";
      && StartsWith(dir, prefix)
      && |dir| == |prefix| + |g.ViewPath()|
      && (forall i :: 0 <= i < |g.ViewPath()| ==>
            dir[|prefix| + i] == (if i == |g.NamespacePrefix()| && Truthy(g.options.namespace) then '/' else g.ViewPath()[i]))
  {
    PrefixTruthy(g);
    RouteViewDiffer(g);
    var prefix := "resources/views/";
    var dir := ViewDirectory(g);
    assert dir == prefix + g.RoutePath();
    StartsWithAppend(prefix, g.RoutePath());
    assert forall i :: 0 <= i < |g.RoutePath()| ==> dir[|prefix| + i] == g.RoutePath()[i];
  }

  /* ---------------------------------------------------------------- */
  /* The listing table                                                */
  /* ---------------------------------------------------------------- */

  /** The two rows of the listing: the header row and the row of one record. */
  datatype TableRow = HeaderRow | BodyRow

  /** The header of one listed field: a link sorting by the field, toggling the direction, with a sort icon. */
  function HeaderCell(g: Generator, name: string): string
  {
    "                <th>\n"
    + "                    <a href=\"{{ route('" + g.RoutePath() + ".index', "
    + "['sort' => '" + name + "', "
    + "'direction' => request('direction') === 'asc' "
    + "? 'desc' : 'asc']) }}\">\n"
    + "                        " + Label(g, name) + "\n"
    + "                        @if(request('sort') === '" + name + "')\n"
    + "                            <i class=\"fas fa-sort-"
    + "{{ request('direction') === 'asc' ? 'up' : 'down' }}\"></i>\n"
    + "                        @endif\n"
    + "                    </a>\n"
    + "                </th>\n"
  }

  /** The value shown in a record's cell: Yes/No for a boolean, a `Y-m-d` date for date types, else the raw value. */
  function CellValue(variable: string, f: Field): string
  {
    if f.fieldType == "boolean" then "{{ $" + variable + "->" + f.name + " ? 'Yes' : 'No' }}"
    else if f.fieldType in DateTypes then "{{ $" + variable + "->" + f.name + "->format('Y-m-d') }}"
    else "{{ $" + variable + "->" + f.name + " }}"
  }

  /** The cell of a listed field in the given row. */
  function Cell(g: Generator, row: TableRow, f: Field): string
  {
    match row
    case HeaderRow => HeaderCell(g, f.name)
    case BodyRow => "                <td>" + CellValue(g.ModelVariable(), f) + "</td>\n"
  }

  /** What the fields contribute to a row: nothing for an unlisted type, the field's cell otherwise. */
  function Keep(cell: Field -> string, fields: seq<Field>): (r: seq<string>)
    ensures |r| == |fields|
  {
    seq(|fields|, i requires 0 <= i < |fields| => if fields[i].fieldType in Unlisted then "" else cell(fields[i]))
  }

  /** One cell per field. */
  function Each(cell: Field -> string, fs: seq<Field>): (r: seq<string>)
    ensures |r| == |fs|
  {
    seq(|fs|, k requires 0 <= k < |fs| => cell(fs[k]))
  }

  function RowPieces(g: Generator, row: TableRow, fields: seq<Field>): (r: seq<string>)
    ensures |r| == |fields|
  {
    Keep(f => Cell(g, row, f), fields)
  }

  /** The header of the actions column, always last. */
  const ActionsHeader: string := "                <th>Actions</th>"

  /** The `{{tableHeaders}}` text: the listed fields' headers, then the actions header. */
  function TableHeaders(g: Generator): (r: string)
    ensures EndsWith(r, ActionsHeader)
  {
    EndsWithAppend(Concat(RowPieces(g, HeaderRow, g.options.fields)), ActionsHeader);
    Concat(RowPieces(g, HeaderRow, g.options.fields)) + ActionsHeader
  }

  /** The `{{tableColumns}}` text: the listed fields' cells. */
  function TableColumns(g: Generator): string
  {
    Concat(RowPieces(g, BodyRow, g.options.fields))
  }

  /** The fields the listing shows, in field order: those not of an unlisted type. */
  function Listed(fields: seq<Field>): (r: seq<Field>)
    ensures |r| <= |fields|
    ensures forall k :: 0 <= k < |r| ==> r[k].fieldType !in Unlisted && r[k] in fields
    decreases |fields|
  {
    if |fields| == 0 then []
    else
      var n := |fields| - 1;
      var before := Listed(fields[..n]);
      assert forall k :: 0 <= k < |before| ==> before[k] in fields[..n];
      before + (if fields[n].fieldType in Unlisted then [] else [fields[n]])
  }

  function Cells(g: Generator, row: TableRow, fs: seq<Field>): (r: seq<string>)
    ensures |r| == |fs|
  {
    Each(f => Cell(g, row, f), fs)
  }

  /**
   * Skipping the unlisted fields while building a row gives the same text
   * as building it over the listed fields alone.
   */
  lemma {:induction false} KeepFollowsListed(cell: Field -> string, fields: seq<Field>)
    ensures Concat(Keep(cell, fields)) == Concat(Each(cell, Listed(fields)))
    decreases |fields|
  {
    if |fields| > 0 {
      var n := |fields| - 1;
      var init := fields[..n];
      KeepFollowsListed(cell, init);
      var pieces := Keep(cell, fields);
      assert pieces[..n] == Keep(cell, init);
      ConcatStep(pieces, n);
      assert pieces[..n + 1] == pieces;
      var before := Listed(init);
      if fields[n].fieldType in Unlisted {
        assert Listed(fields) == before;
      } else {
        assert Listed(fields) == before + [fields[n]];
        assert Each(cell, Listed(fields)) == Each(cell, before) + [cell(fields[n])];
        ConcatAppend(Each(cell, before), [cell(fields[n])]);
        assert [cell(fields[n])][..0] == [];
      }
    } else {
      assert Each(cell, Listed(fields)) == [];
    }
  }

  /** Both rows of the listing, read as cells over the listed fields. */
  lemma TableRowsAlign(g: Generator)
    ensures var listed := Listed(g.options.fields);
      && TableHeaders(g) == Concat(Cells(g, HeaderRow, listed)) + ActionsHeader
      && TableColumns(g) == Concat(Cells(g, BodyRow, listed))
  {
    KeepFollowsListed(f => Cell(g, HeaderRow, f), g.options.fields);
    KeepFollowsListed(f => Cell(g, BodyRow, f), g.options.fields);
  }

  /** `replaceTableHeaders`: one header per listed field, then the actions header. */
  method ReplaceTableHeaders(g: Generator, stub: string) returns (r: string)
    ensures r == ReplaceAll(stub, "{{tableHeaders}}", TableHeaders(g))
  {
    var fields := g.options.fields;
    ghost var pieces := RowPieces(g, HeaderRow, fields);
    var headers := "";
    for i := 0 to |fields|
      invariant headers == Concat(pieces[..i])
    {
      ConcatStep(pieces, i);
      assert pieces[i] == if fields[i].fieldType in Unlisted then "" else HeaderCell(g, fields[i].name);
      if fields[i].fieldType !in Unlisted {
        headers := headers + HeaderCell(g, fields[i].name);
      } else {
        headers := headers + "";
      }
    }
    ConcatWhole(pieces);
    headers := headers + ActionsHeader;
    r := ReplaceAll(stub, "{{tableHeaders}}", headers);
  }

  /** `replaceTableColumns`: one cell per listed field. */
  method ReplaceTableColumns(g: Generator, stub: string) returns (r: string)
    ensures r == ReplaceAll(stub, "{{tableColumns}}", TableColumns(g))
  {
    var variable := g.ModelVariable();
    var fields := g.options.fields;
    ghost var pieces := RowPieces(g, BodyRow, fields);
    var columns := "";
    for i := 0 to |fields|
      invariant columns == Concat(pieces[..i])
    {
      ConcatStep(pieces, i);
      if fields[i].fieldType !in Unlisted {
        columns := columns + ("                <td>" + CellValue(variable, fields[i]) + "</td>\n");
      } else {
        columns := columns + "";
      }
    }
    ConcatWhole(pieces);
    r := ReplaceAll(stub, "{{tableColumns}}", columns);
  }

  /** The title-cased names of the fields the listing searches, in field order. */
  function SearchTitles(g: Generator): (r: seq<string>)
    ensures |r| == |ControllerGenerator.SearchableFields(g)|
  {
    var s := ControllerGenerator.SearchableFields(g);
    seq(|s|, k requires 0 <= k < |s| => g.str.title(s[k]))
  }

  /**
   * `replaceSearchFields`' placeholder: the generic `Search...` exactly
   * when no field is searchable, otherwise naming the fields the
   * controller's search filters on.
   */
  function SearchPlaceholder(g: Generator): (r: string)
    ensures r == "Search..." <==> |ControllerGenerator.SearchableFields(g)| == 0
    ensures |ControllerGenerator.SearchableFields(g)| > 0 ==> StartsWith(r, "Search by ") && EndsWith(r, "...")
  {
    if |ControllerGenerator.SearchableFields(g)| == 0 then "Search..."
    else
      var r := "Search by " + Join(SearchTitles(g), ", ") + "...";
      assert r[7] == 'b';
      StartsWithAppend("Search by ", Join(SearchTitles(g), ", ") + "...");
      EndsWithAppend("Search by " + Join(SearchTitles(g), ", "), "...");
      r
  }

  /* ---------------------------------------------------------------- */
  /* The create and edit forms                                        */
  /* ---------------------------------------------------------------- */

  /** The `required` attribute of a field's control: present exactly when the field is not nullable. */
  function Required(f: Field): (r: string)
    ensures r == "required" <==> !f.nullable
    ensures r == "" <==> f.nullable
  {
    if !f.nullable then "required" else ""
  }

  /**
   * The value of a text control: the old input, falling back to the
   * record's value when a record variable is given (edit mode). The
   * variable is a string; the empty string stands for create mode's null,
   * and like `"0"` it is falsy.
   */
  function Value(f: Field, variable: string): string
  {
    if Truthy(variable) then "{{ old('" + f.name + "', $" + variable + "->" + f.name + ") }}"
    else "{{ old('" + f.name + "') }}"
  }

  /** The opening of a form group: the `mb-3` wrapper and the label for the named input. */
  function GroupOpening(name: string, caption: string): string
  {
    "        <div class=\"mb-3\">\n"
    + "            <label for=\"" + name + "\" class=\"form-label\">" + caption + "</label>\n"
  }

  /** The closing of a form group: the validation error of the named input, then the end of the wrapper. */
  function GroupClosing(name: string): string
  {
    "            @error('" + name + "')\n"
    + "                <div class=\"text-danger mt-1\">{{ $message }}</div>\n"
    + "            @enderror\n"
    + "        </div>\n\n"
  }

  /** The opening of a select input, with its empty first option. */
  function SelectOpening(name: string, caption: string, required: string): string
  {
    "            <select name=\"" + name + "\" id=\"" + name + "\" class=\"form-control\" " + required + ">\n"
    + "                <option value=\"\">Select " + caption + "</option>\n"
  }

  const SelectClosing: string := "            </select>\n"

  /** The `selected` test of one enum option, in edit mode only. */
  function Selected(f: Field, variable: string, option: string): string
  {
    if Truthy(variable) then "{{ $" + variable + "->" + f.name + " === '" + option + "' ? 'selected' : '' }}" else ""
  }

  /** One option of an enum select: the raw value, its title-cased text. */
  function OptionLine(g: Generator, f: Field, variable: string, option: string): string
  {
    "                <option value=\"" + option + "\" " + Selected(f, variable, option) + ">"
    + g.str.title(option) + "</option>\n"
  }

  function OptionLines(g: Generator, f: Field, variable: string): (r: seq<string>)
    ensures |r| == |f.enumValues|
  {
    seq(|f.enumValues|, k requires 0 <= k < |f.enumValues| => OptionLine(g, f, variable, f.enumValues[k]))
  }

  /** The test that the record has a stored file in the field. */
  function IfStored(f: Field, variable: string): string
  {
    "            @if($" + variable + "->" + f.name + ")\n"
  }

  /** The preview of the stored file in edit mode: the image itself, or a link to the file. */
  function CurrentFile(f: Field, variable: string): string
  {
    var stored := "$" + variable + "->" + f.name;
    IfStored(f, variable)
    + ("                <div class=\"mb-2\">\n"
       + (if f.fieldType == "image" then
            "                    <img src=\"{{ Storage::url(" + stored + ") }}\" "
            + "alt=\"Current image\" style=\"max-width: 200px;\">\n"
          else
            "                    <a href=\"{{ Storage::url(" + stored + ") }}\" "
            + "target=\"_blank\">View current file</a>\n")
       + "                </div>\n"
       + "            @endif\n")
  }

  /** The file input; images accept only image types. */
  function FileInput(f: Field): string
  {
    var accept := if f.fieldType == "image" then "accept=\"image/*\"" else "";
    "            <input type=\"file\" name=\"" + f.name + "\" id=\"" + f.name + "\" class=\"form-control\" " + accept + ">\n"
  }

  /** The control of a field, chosen by its input type. */
  function Control(g: Generator, f: Field, variable: string): string
  {
    var name := f.name;
    if f.htmlType == "textarea" then
      "            <textarea name=\"" + name + "\" id=\"" + name + "\" class=\"form-control\" rows=\"4\" "
      + Required(f) + ">" + Value(f, variable) + "</textarea>\n"
    else if f.htmlType == "select" then
      SelectOpening(name, Label(g, name), Required(f)) + Concat(OptionLines(g, f, variable)) + SelectClosing
    else if f.htmlType == "checkbox" then
      var checked := if Truthy(variable) then "{{ $" + variable + "->" + name + " ? 'checked' : '' }}" else "";
      "            <div class=\"form-check\">\n"
      + "                <input type=\"checkbox\" name=\"" + name + "\" id=\"" + name + "\" "
      + "class=\"form-check-input\" value=\"1\" " + checked + ">\n"
      + "                <label class=\"form-check-label\" for=\"" + name + "\">" + Label(g, name) + "</label>\n"
      + "            </div>\n"
    else if f.htmlType == "file" then
      (if Truthy(variable) then CurrentFile(f, variable) else "") + FileInput(f)
    else
      "            <input type=\"" + f.htmlType + "\" name=\"" + name + "\" id=\"" + name + "\" "
      + "class=\"form-control\" value=\"" + Value(f, variable) + "\" " + Required(f) + ">\n"
  }

  /** `generateFormField`: the labelled control of a field with its validation error. */
  function FormField(g: Generator, f: Field, variable: string): string
  {
    GroupOpening(f.name, Label(g, f.name)) + Control(g, f, variable) + GroupClosing(f.name)
  }

  /** Two fields alike in everything a control shows except, possibly, whether they are nullable. */
  predicate SameControlData(f1: Field, f2: Field)
  {
    f1.name == f2.name && f1.fieldType == f2.fieldType && f1.htmlType == f2.htmlType && f1.enumValues == f2.enumValues
  }

  /** A checkbox or file control does not depend on whether the field is nullable. */
  lemma PlainControlsIgnoreNullable(g: Generator, f1: Field, f2: Field, variable: string)
    requires SameControlData(f1, f2) && f1.htmlType in {"checkbox", "file"}
    ensures Control(g, f1, variable) == Control(g, f2, variable)
  {
    if f1.htmlType == "file" {
      assert Control(g, f1, variable) == (if Truthy(variable) then CurrentFile(f1, variable) else "") + FileInput(f1);
    }
  }

  /** A text-like control of a non-nullable field is that of a nullable one plus the eight characters of `required`. */
  lemma TextControlsCarryRequired(g: Generator, f1: Field, f2: Field, variable: string)
    requires SameControlData(f1, f2) && f1.htmlType !in {"checkbox", "file"}
    requires !f1.nullable && f2.nullable
    ensures |Control(g, f1, variable)| == |Control(g, f2, variable)| + 8
  {
    assert OptionLines(g, f1, variable) == OptionLines(g, f2, variable);
    assert Value(f1, variable) == Value(f2, variable);
    assert |Required(f1)| == |Required(f2)| + 8;
  }

  /**
   * Only text-like controls carry the `required` attribute: a checkbox or
   * a file input comes out the same whether or not the field is nullable,
   * and every other control of a non-nullable field is exactly the eight
   * characters of `required` longer than that of a nullable one.
   */
  lemma RequiredOnlyOnTextControls(g: Generator, f: Field, variable: string)
    ensures var optional := f.(nullable := true);
      var mandatory := f.(nullable := false);
      if f.htmlType in {"checkbox", "file"} then FormField(g, optional, variable) == FormField(g, mandatory, variable)
      else |FormField(g, mandatory, variable)| == |FormField(g, optional, variable)| + 8
  {
    var optional := f.(nullable := true);
    var mandatory := f.(nullable := false);
    if f.htmlType in {"checkbox", "file"} {
      PlainControlsIgnoreNullable(g, optional, mandatory, variable);
    } else {
      TextControlsCarryRequired(g, mandatory, optional, variable);
    }
  }

  /**
   * In edit mode a file control shows the stored file, guarded by a test
   * that there is one, above the same file input create mode renders.
   */
  lemma EditFileShowsStoredFile(g: Generator, f: Field, variable: string)
    requires f.htmlType == "file" && Truthy(variable)
    ensures Control(g, f, variable) == CurrentFile(f, variable) + Control(g, f, "")
    ensures StartsWith(Control(g, f, variable), IfStored(f, variable))
  {
    var head := IfStored(f, variable);
    var rest := CurrentFile(f, variable)[|head|..];
    assert CurrentFile(f, variable) == head + rest;
    assert Control(g, f, "") == FileInput(f);
    assert Control(g, f, variable) == head + rest + FileInput(f);
    Assoc2(head, rest, FileInput(f));
    StartsWithAppend(head, rest + FileInput(f));
  }

  /**
   * Create mode and edit mode with a falsy record variable render the
   * same control: PHP's truthiness test cannot tell them apart.
   */
  lemma FalsyVariableRendersCreateForm(g: Generator, f: Field, variable: string)
    requires !Truthy(variable)
    ensures FormField(g, f, variable) == FormField(g, f, "")
  {
    assert OptionLines(g, f, variable) == OptionLines(g, f, "");
  }

  /** `generateFormField`, with the loop over the enum values of a select. */
  method GenerateFormField(g: Generator, f: Field, variable: string) returns (html: string)
    ensures html == FormField(g, f, variable)
  {
    var caption := Label(g, f.name);
    html := GroupOpening(f.name, caption);
    ghost var opening := html;
    if f.htmlType == "select" {
      html := html + SelectOpening(f.name, caption, Required(f));
      ghost var head := html;
      ghost var options := OptionLines(g, f, variable);
      for k := 0 to |f.enumValues|
        invariant html == head + Concat(options[..k])
      {
        ConcatAppendStep(head, options, k);
        var selected := Selected(f, variable, f.enumValues[k]);
        html := html + ("                <option value=\"" + f.enumValues[k] + "\" " + selected + ">"
          + g.str.title(f.enumValues[k]) + "</option>\n");
      }
      ConcatWhole(options);
      html := html + SelectClosing;
      Assoc3(opening, SelectOpening(f.name, caption, Required(f)), Concat(options), SelectClosing);
    } else {
      html := html + Control(g, f, variable);
    }
    html := html + GroupClosing(f.name);
  }

  /** `generateRelationshipField`: a required select of the related records, named after the foreign key. */
  function RelationField(g: Generator, model: string, variable: string): string
  {
    var key := g.str.snake(model) + "_id";
    var caption := Label(g, model);
    var records := g.str.camel(g.str.plural(model));
    GroupOpening(key, caption)
    + SelectOpening(key, caption, "required")
    + "                @foreach($" + records + " as $item)\n"
    + (if Truthy(variable) then
         "                    <option value=\"{{ $item->id }}\" "
         + "{{ $" + variable + "->" + key + " === $item->id ? 'selected' : '' }}"
         + ">{{ $item->name }}</option>\n"
       else "                    <option value=\"{{ $item->id }}\">{{ $item->name }}</option>\n")
    + "                @endforeach\n"
    + SelectClosing
    + GroupClosing(key)
  }

  /** The select of each `belongsTo` target, as the piece function of the relationship loop. */
  function RelationFieldOf(g: Generator, variable: string): string -> string
  {
    m => RelationField(g, m, variable)
  }

  function FieldBlocks(g: Generator, variable: string): (r: seq<string>)
    ensures |r| == |g.options.fields|
  {
    seq(|g.options.fields|, i requires 0 <= i < |g.options.fields| => FormField(g, g.options.fields[i], variable))
  }

  /** The selects of the `belongsTo` targets, in relationship order. */
  function RelationSelects(g: Generator, variable: string): string
  {
    Concat(TargetPieces(RelationFieldOf(g, variable), BelongsToTargets(g.options.relationships)))
  }

  /** The `{{formFields}}` text: each field's group, then a select for each `belongsTo` target. */
  function FormFields(g: Generator, variable: string): string
  {
    Concat(FieldBlocks(g, variable)) + RelationSelects(g, variable)
  }

  /** Without a `belongsTo` relationship the form holds the field groups and nothing else. */
  lemma OnlyBelongsToAddsSelects(g: Generator, variable: string)
    requires forall i :: 0 <= i < |g.options.relationships| ==> g.options.relationships[i].kind == HasMany
    ensures FormFields(g, variable) == Concat(FieldBlocks(g, variable))
  {
    NoBelongsTo(g.options.relationships);
    assert TargetPieces(RelationFieldOf(g, variable), []) == [];
    assert RelationSelects(g, variable) == "";
  }

  /** The first loop of `replaceFormFields`: the group of every field, in field order. */
  method AppendFieldGroups(g: Generator, variable: string) returns (html: string)
    ensures html == Concat(FieldBlocks(g, variable))
  {
    var fields := g.options.fields;
    ghost var blocks := FieldBlocks(g, variable);
    html := "";
    for i := 0 to |fields|
      invariant html == Concat(blocks[..i])
    {
      ConcatStep(blocks, i);
      assert blocks[i] == FormField(g, fields[i], variable);
      var block := GenerateFormField(g, fields[i], variable);
      html := html + block;
    }
    ConcatWhole(blocks);
  }

  /** The second loop of `replaceFormFields`: a select for each `belongsTo` target, after the given text. */
  method AppendRelationSelects(g: Generator, variable: string, head: string) returns (html: string)
    ensures html == head + RelationSelects(g, variable)
  {
    var rs := g.options.relationships;
    html := head;
    for j := 0 to |rs|
      invariant html == head + Concat(TargetPieces(RelationFieldOf(g, variable), BelongsToTargets(rs[..j])))
    {
      TargetAppend(RelationFieldOf(g, variable), head, rs, j, html);
      if rs[j].kind == BelongsTo {
        var block := RelationField(g, rs[j].model, variable);
        html := html + block;
      } else {
        html := html + "";
      }
    }
    assert rs[..|rs|] == rs;
  }

  /** `replaceFormFields`: the record variable in edit mode, none (the empty string) in create mode. */
  method ReplaceFormFields(g: Generator, stub: string, isEdit: bool) returns (r: string)
    ensures r == ReplaceAll(stub, "{{formFields}}", FormFields(g, if isEdit then g.ModelVariable() else ""))
  {
    var variable := if isEdit then g.ModelVariable() else "";
    var html := AppendFieldGroups(g, variable);
    html := AppendRelationSelects(g, variable, html);
    r := ReplaceAll(stub, "{{formFields}}", html);
  }

  /* ---------------------------------------------------------------- */
  /* The show view                                                    */
  /* ---------------------------------------------------------------- */

  /** The heading of a show entry: the `mb-3` wrapper and the bold caption. */
  function EntryHead(caption: string): string
  {
    "                    <div class=\"mb-3\">\n"
    + "                        <strong>" + caption + ":</strong>\n"
  }

  const EntryClose: string := "                    </div>\n\n"

  /** One entry of the show view: the caption, then the value's markup. */
  function ShowEntry(caption: string, value: string): string
  {
    EntryHead(caption) + value + EntryClose
  }

  const ParagraphOpen: string := "                        <p class=\"mb-0\">"
  const ParagraphClose: string := "</p>\n"

  /** The fallback of a stored-file entry when nothing is stored. */
  const NothingStored: string :=
    "                        @else\n"
    + "                            <p class=\"mb-0\">N/A</p>\n"
    + "                        @endif\n"

  /** How the show view renders the value of a field: the image, a file link, Yes/No, or the raw value. */
  function ShowValue(f: Field, variable: string, caption: string): string
  {
    var stored := "$" + variable + "->" + f.name;
    if f.fieldType == "image" then
      "                        @if(" + stored + ")\n"
      + "                            <div class=\"mt-2\"><img src=\"{{ Storage::url(" + stored + ") }}\" "
      + "alt=\"" + caption + "\" style=\"max-width: 300px;\"></div>\n"
      + NothingStored
    else if f.fieldType == "file" then
      "                        @if(" + stored + ")\n"
      + "                            <a href=\"{{ Storage::url(" + stored + ") }}\" "
      + "target=\"_blank\" class=\"d-block mt-1\">View File</a>\n"
      + NothingStored
    else if f.fieldType == "boolean" then
      ParagraphOpen + ("{{ $" + variable + "->" + f.name + " ? 'Yes' : 'No' }}") + ParagraphClose
    else
      ParagraphOpen + ("{{ $" + variable + "->" + f.name + " }}") + ParagraphClose
  }

  /** The entry of a field. */
  function ShowBlock(g: Generator, f: Field): string
  {
    var caption := Label(g, f.name);
    ShowEntry(caption, ShowValue(f, g.ModelVariable(), caption))
  }

  /** The entry of a `belongsTo` target: the related record's name, or N/A. */
  function ShowRelation(g: Generator, model: string): string
  {
    ShowEntry(Label(g, model),
      ParagraphOpen + "{{ $" + g.ModelVariable() + "->" + g.str.camel(model) + "->name ?? 'N/A' }}" + ParagraphClose)
  }

  function ShowRelationOf(g: Generator): string -> string
  {
    m => ShowRelation(g, m)
  }

  function ShowBlocks(g: Generator): (r: seq<string>)
    ensures |r| == |g.options.fields|
  {
    seq(|g.options.fields|, i requires 0 <= i < |g.options.fields| => ShowBlock(g, g.options.fields[i]))
  }

  /** The entries of the `belongsTo` targets, in relationship order. */
  function ShowRelations(g: Generator): string
  {
    Concat(TargetPieces(ShowRelationOf(g), BelongsToTargets(g.options.relationships)))
  }

  /** The `{{showFields}}` text: an entry for every field, then one for each `belongsTo` target. */
  function ShowFields(g: Generator): string
  {
    Concat(ShowBlocks(g)) + ShowRelations(g)
  }

  /**
   * Unlike the listing, the show view skips no field: the entry of every
   * field, whatever its type, is headed by the field's label.
   */
  lemma ShowHeadsEveryField(g: Generator, i: nat)
    requires i < |g.options.fields|
    ensures StartsWith(ShowBlocks(g)[i], EntryHead(Label(g, g.options.fields[i].name)))
  {
    var f := g.options.fields[i];
    var caption := Label(g, f.name);
    var value := ShowValue(f, g.ModelVariable(), caption);
    Assoc2(EntryHead(caption), value, EntryClose);
    StartsWithAppend(EntryHead(caption), value + EntryClose);
  }

  /**
   * A boolean or plain field shows the same value markup in its show
   * entry as in its listing cell; only dates differ, listed formatted but
   * shown raw.
   */
  lemma ShowAgreesWithListing(g: Generator, f: Field)
    requires f.fieldType !in {"image", "file"}
    ensures f.fieldType !in DateTypes ==>
      ShowValue(f, g.ModelVariable(), Label(g, f.name)) == ParagraphOpen + CellValue(g.ModelVariable(), f) + ParagraphClose
    ensures f.fieldType in DateTypes ==>
      ShowValue(f, g.ModelVariable(), Label(g, f.name)) != ParagraphOpen + CellValue(g.ModelVariable(), f) + ParagraphClose
  {
    var v := g.ModelVariable();
    if f.fieldType in DateTypes {
      var raw := "{{ $" + v + "->" + f.name + " }}";
      var formatted := "{{ $" + v + "->" + f.name + "->format('Y-m-d') }}";
      assert |formatted| == |raw| + 17;
      assert |ParagraphOpen + formatted + ParagraphClose| != |ParagraphOpen + raw + ParagraphClose|;
    }
  }

  /** `replaceShowFields`: an entry per field, then one per `belongsTo` target. */
  method ReplaceShowFields(g: Generator, stub: string) returns (r: string)
    ensures r == ReplaceAll(stub, "{{showFields}}", ShowFields(g))
  {
    var fields := g.options.fields;
    ghost var blocks := ShowBlocks(g);
    var html := "";
    for i := 0 to |fields|
      invariant html == Concat(blocks[..i])
    {
      ConcatStep(blocks, i);
      var caption := Label(g, fields[i].name);
      html := html + ShowEntry(caption, ShowValue(fields[i], g.ModelVariable(), caption));
    }
    ConcatWhole(blocks);
    var rs := g.options.relationships;
    ghost var head := html;
    for j := 0 to |rs|
      invariant html == head + Concat(TargetPieces(ShowRelationOf(g), BelongsToTargets(rs[..j])))
    {
      TargetAppend(ShowRelationOf(g), head, rs, j, html);
      if rs[j].kind == BelongsTo {
        html := html + ShowRelation(g, rs[j].model);
      } else {
        html := html + "";
      }
    }
    assert rs[..|rs|] == rs;
    r := ReplaceAll(stub, "{{showFields}}", html);
  }

  /* ---------------------------------------------------------------- */
  /* The four views                                                   */
  /* ---------------------------------------------------------------- */

  /** `replaceCommonPlaceholders`: one left-to-right pass per token, in the order of the replacement array. */
  function CommonText(g: Generator, stub: string): string
  {
    var s := ReplaceAll(stub, "{{modelName}}", g.options.modelName);
    var s := ReplaceAll(s, "{{modelNamePlural}}", g.str.plural(g.options.modelName));
    var s := ReplaceAll(s, "{{modelVariable}}", g.ModelVariable());
    var s := ReplaceAll(s, "{{modelVariablePlural}}", g.ModelVariablePlural());
    ReplaceAll(s, "{{routePath}}", g.RoutePath())
  }

  /** The stub of a view of the configured template. */
  function ViewStub(files: map<string, string>, template: string, view: string): string
  {
    Stub(files, "views/" + template + "/" + view)
  }

  function IndexView(g: Generator, files: map<string, string>, template: string): string
  {
    var s := CommonText(g, ViewStub(files, template, "index"));
    var s := ReplaceAll(s, "{{tableHeaders}}", TableHeaders(g));
    var s := ReplaceAll(s, "{{tableColumns}}", TableColumns(g));
    ReplaceAll(s, "{{searchPlaceholder}}", SearchPlaceholder(g))
  }

  function CreateView(g: Generator, files: map<string, string>, template: string): string
  {
    ReplaceAll(CommonText(g, ViewStub(files, template, "create")), "{{formFields}}", FormFields(g, ""))
  }

  function EditView(g: Generator, files: map<string, string>, template: string): string
  {
    ReplaceAll(CommonText(g, ViewStub(files, template, "edit")), "{{formFields}}", FormFields(g, g.ModelVariable()))
  }

  function ShowView(g: Generator, files: map<string, string>, template: string): string
  {
    ReplaceAll(CommonText(g, ViewStub(files, template, "show")), "{{showFields}}", ShowFields(g))
  }

  /** The four view files, each named `<view>.blade.php` in the view directory. */
  function ViewFile(g: Generator, view: string): (r: string)
    ensures StartsWith(r, ViewDirectory(g) + "/") && EndsWith(r, view + ".blade.php")
  {
    StartsWithAppend(ViewDirectory(g) + "/", view + ".blade.php");
    EndsWithAppend(ViewDirectory(g) + "/", view + ".blade.php");
    ViewDirectory(g) + "/" + view + ".blade.php"
  }

  /** Every view file lies under the resources directory, so writing one never changes a stub. */
  lemma ViewFileOutsideStubs(g: Generator, view: string)
    ensures |ViewFile(g, view)| > 0 && ViewFile(g, view)[0] == 'r'
  {
    var dir := ViewDirectory(g);
    assert dir[0] == 'r';
  }

  method ApplyCommon(g: Generator, stub: string) returns (r: string)
    ensures r == CommonText(g, stub)
  {
    r := ReplaceAll(stub, "{{modelName}}", g.options.modelName);
    r := ReplaceAll(r, "{{modelNamePlural}}", g.str.plural(g.options.modelName));
    r := ReplaceAll(r, "{{modelVariable}}", g.ModelVariable());
    r := ReplaceAll(r, "{{modelVariablePlural}}", g.ModelVariablePlural());
    r := ReplaceAll(r, "{{routePath}}", g.RoutePath());
  }

  /** Writing a view file changes none of the view stubs. */
  lemma ViewStubFrame(g: Generator, files: map<string, string>, view: string, content: string, template: string, other: string)
    ensures ViewStub(files[Normalize(ViewFile(g, view)) := content], template, other) == ViewStub(files, template, other)
  {
    ViewFileOutsideStubs(g, view);
    StubFrame(files, ViewFile(g, view), content, "views/" + template + "/" + other);
  }

  /** `generateIndexView`. */
  method GenerateIndexView(g: Generator, disk: Disk, template: string)
    modifies disk
    ensures disk.files == old(disk.files)[Normalize(ViewFile(g, "index")) := IndexView(g, old(disk.files), template)]
  {
    var stub := ViewStub(disk.files, template, "index");
    stub := ApplyCommon(g, stub);
    stub := ReplaceTableHeaders(g, stub);
    stub := ReplaceTableColumns(g, stub);
    stub := ReplaceAll(stub, "{{searchPlaceholder}}", SearchPlaceholder(g));
    disk.Put(ViewDirectory(g) + "/" + "index" + ".blade.php", stub);
  }

  /** `generateCreateView`: the form without a record. */
  method GenerateCreateView(g: Generator, disk: Disk, template: string)
    modifies disk
    ensures disk.files == old(disk.files)[Normalize(ViewFile(g, "create")) := CreateView(g, old(disk.files), template)]
  {
    var stub := ViewStub(disk.files, template, "create");
    stub := ApplyCommon(g, stub);
    stub := ReplaceFormFields(g, stub, false);
    disk.Put(ViewDirectory(g) + "/" + "create" + ".blade.php", stub);
  }

  /** `generateEditView`: the form filled from the record. */
  method GenerateEditView(g: Generator, disk: Disk, template: string)
    modifies disk
    ensures disk.files == old(disk.files)[Normalize(ViewFile(g, "edit")) := EditView(g, old(disk.files), template)]
  {
    var stub := ViewStub(disk.files, template, "edit");
    stub := ApplyCommon(g, stub);
    stub := ReplaceFormFields(g, stub, true);
    disk.Put(ViewDirectory(g) + "/" + "edit" + ".blade.php", stub);
  }

  /** `generateShowView`. */
  method GenerateShowView(g: Generator, disk: Disk, template: string)
    modifies disk
    ensures disk.files == old(disk.files)[Normalize(ViewFile(g, "show")) := ShowView(g, old(disk.files), template)]
  {
    var stub := ViewStub(disk.files, template, "show");
    stub := ApplyCommon(g, stub);
    stub := ReplaceShowFields(g, stub);
    disk.Put(ViewDirectory(g) + "/" + "show" + ".blade.php", stub);
  }

  /**
   * `generate`: writes the index, create, edit and show views, in that
   * order, each from the stubs as they were before, and reports the view
   * directory. `template` is the configured template name (`bootstrap`
   * by default).
   */
  method Generate(g: Generator, disk: Disk, template: string) returns (o: Outcome)
    modifies disk
    ensures o == Success([ViewDirectory(g)])
    ensures var before := old(disk.files);
      disk.files == before[Normalize(ViewFile(g, "index")) := IndexView(g, before, template)]
                          [Normalize(ViewFile(g, "create")) := CreateView(g, before, template)]
                          [Normalize(ViewFile(g, "edit")) := EditView(g, before, template)]
                          [Normalize(ViewFile(g, "show")) := ShowView(g, before, template)]
  {
    var viewPath := ViewDirectory(g);
    ghost var files0 := disk.files;
    GenerateIndexView(g, disk, template);
    ghost var files1 := disk.files;
    ViewStubFrame(g, files0, "index", IndexView(g, files0, template), template, "create");
    ViewStubFrame(g, files0, "index", IndexView(g, files0, template), template, "edit");
    ViewStubFrame(g, files0, "index", IndexView(g, files0, template), template, "show");
    GenerateCreateView(g, disk, template);
    ghost var files2 := disk.files;
    ViewStubFrame(g, files1, "create", CreateView(g, files1, template), template, "edit");
    ViewStubFrame(g, files1, "create", CreateView(g, files1, template), template, "show");
    GenerateEditView(g, disk, template);
    ViewStubFrame(g, files2, "edit", EditView(g, files2, template), template, "show");
    GenerateShowView(g, disk, template);
    o := Success([viewPath]);
  }
}
