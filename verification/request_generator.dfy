/**
 * The form-request generator: a store and an update request class whose
 * `rules()` array holds one line per field, with the bare `unique` rule
 * rewritten against the table (and, for update, the current record id).
 */
module RequestGenerator {
  import opened Wrappers
  import opened PhpStrings
  import opened Template
  import opened Laravel
  import opened FieldParser
  import opened FileSystem
  import opened BaseGenerator

  /** The two request flavours. */
  datatype Context = Store | Update

  /** The class-name prefix of each flavour. */
  function Prefix(context: Context): string
  {
    match context
    case Store => "Store"
    case Update => "Update"
  }

  /** The stub of each flavour. */
  function StubName(context: Context): string
  {
    match context
    case Store => "request.store"
    case Update => "request.update"
  }

  /**
   * The rule that replaces a bare `unique`: scoped to the table and column,
   * and for update also excepting the record named by the route's `id`.
   */
  function UniqueRule(table: string, name: string, context: Context): string
  {
    match context
    case Store => "unique:" + table + "," + name
    case Update => "unique:" + table + "," + name + ",{$this->route('id')}"
  }

  /**
   * The rule list of `generateFieldRules`: the field's own rules with the
   * first bare `unique` (if the field is unique) replaced in place, so the
   * count and the order of rules never change.
   */
  function FieldRules(g: Generator, f: Field, context: Context): (r: seq<string>)
    ensures |r| == |f.validation|
    ensures forall i :: 0 <= i < |r| && !(f.unique && i == IndexOf(f.validation, "unique")) ==> r[i] == f.validation[i]
    ensures f.unique && "unique" in f.validation ==>
      r[IndexOf(f.validation, "unique")] == UniqueRule(g.TableName(), f.name, context)
    ensures !f.unique ==> r == f.validation
  {
    if f.unique && "unique" in f.validation then
      f.validation[IndexOf(f.validation, "unique") := UniqueRule(g.TableName(), f.name, context)]
    else f.validation
  }

  /** A field that is not unique gets the same rules for store and for update. */
  lemma NonUniqueRulesAgree(g: Generator, f: Field)
    requires !f.unique
    ensures FieldRules(g, f, Store) == FieldRules(g, f, Update) == f.validation
  {
  }

  /**
   * For a parsed unique field (whose `unique` rule is its last), the two
   * contexts differ only in that last rule.
   */
  lemma UniqueRewriteIsLast(g: Generator, f: Field, context: Context)
    requires f.unique && f.validation == ValidationRules(f.fieldType, f.nullable, f.unique, f.enumValues)
    ensures FieldRules(g, f, context)
         == f.validation[..|f.validation| - 1] + [UniqueRule(g.TableName(), f.name, context)]
  {
    var v := f.validation;
    assert v[1..|v| - 1] == TypeRules(f.fieldType, f.enumValues);
    assert v[..|v| - 1] == [v[0]] + v[1..|v| - 1];
  }

  /**
   * `generateFieldRules`: copies the rules, overwrites the slot
   * `array_search` finds and implodes with `|`.
   */
  method GenerateFieldRules(g: Generator, f: Field, context: Context) returns (r: string)
    ensures r == Join(FieldRules(g, f, context), "|")
  {
    var rules := f.validation;
    if f.unique && context == Update {
      var tableName := g.TableName();
      var uniqueIndex := IndexOf(rules, "unique");
      if uniqueIndex >= 0 {
        rules := rules[uniqueIndex := "unique:" + tableName + "," + f.name + ",{$this->route('id')}"];
      }
    } else if f.unique && context == Store {
      var tableName := g.TableName();
      var uniqueIndex := IndexOf(rules, "unique");
      if uniqueIndex >= 0 {
        rules := rules[uniqueIndex := "unique:" + tableName + "," + f.name];
      }
    }
    r := Join(rules, "|");
  }

  /** The rule line as the source writes it: the rules always in single quotes. */
  function RuleLineAsWritten(name: string, rules: string): string
  {
    "            '" + name + "' => '" + rules + "',"
  }

  /**
   * The rule line with the rules in double quotes whenever they hold a
   * single quote, so that the `{$this->route('id')}` part is interpolated
   * instead of ending the literal early.
   */
  function RuleLine(name: string, rules: string): (r: string)
    ensures '\'' !in rules ==> r == RuleLineAsWritten(name, rules)
  {
    var quote := if '\'' in rules then "\"" else "'";
    "            '" + name + "' => " + quote + rules + quote + ","
  }

  /**
   * The update rule of a unique field holds a single quote, so the line
   * as written ends its rule literal in the middle of the rules: after the
   * `'` that opens the literal, a `'` comes before the rules are over.
   */
  lemma UpdateLineBreaksLiteral(g: Generator, f: Field)
    requires f.unique && "unique" in f.validation
    ensures var rules := Join(FieldRules(g, f, Update), "|");
      var line := RuleLineAsWritten(f.name, rules);
      var open := |"            '" + f.name + "' => '"|;
      && line[open - 1] == '\''
      && exists j :: open <= j < open + |rules| && line[j] == '\''
  {
    var parts := FieldRules(g, f, Update);
    var rules := Join(parts, "|");
    var k := IndexOf(f.validation, "unique");
    var u := UniqueRule(g.TableName(), f.name, Update);
    assert u[|u| - 3] == '\'';
    JoinHolds(parts, "|", k, '\'', |u| - 3);
    var i :| 0 <= i < |rules| && rules[i] == '\'';
    var head := "            '" + f.name + "' => '";
    assert RuleLineAsWritten(f.name, rules) == head + rules + "',";
    assert (head + rules + "',")[|head| + i] == rules[i];
  }

  /** A character of one part is a character of the joined text. */
  lemma {:induction false} JoinHolds(parts: seq<string>, sep: string, k: nat, ch: char, j: nat)
    requires k < |parts| && j < |parts[k]| && parts[k][j] == ch
    ensures ch in Join(parts, sep)
    decreases |parts|
  {
    if |parts| > 1 {
      if k == 0 {
        assert Join(parts, sep)[j] == ch;
      } else {
        JoinHolds(parts[1..], sep, k - 1, ch, j);
        var rest := Join(parts[1..], sep);
        var i :| 0 <= i < |rest| && rest[i] == ch;
        assert Join(parts, sep)[|parts[0]| + |sep| + i] == ch;
      }
    }
  }

  /**
   * The corrected line keeps its rule literal whole: the quote it opens
   * with does not occur inside the rules, provided the rules hold no
   * double quote.
   */
  lemma RuleLineQuoted(name: string, rules: string)
    requires '"' !in rules
    ensures exists q: char :: q !in rules && RuleLine(name, rules) == "            '" + name + "' => " + [q] + rules + [q] + ","
  {
    var q := if '\'' in rules then '"' else '\'';
    assert RuleLine(name, rules) == "            '" + name + "' => " + [q] + rules + [q] + ",";
  }

  /** The lines of the `{{rules}}` block as written, one per field in field order. */
  function RuleLines(g: Generator, context: Context): (r: seq<string>)
    ensures |r| == |g.options.fields|
  {
    seq(|g.options.fields|, i requires 0 <= i < |g.options.fields| =>
      RuleLineAsWritten(g.options.fields[i].name, Join(FieldRules(g, g.options.fields[i], context), "|")))
  }

  /** The corrected lines, one per field in field order, each quoted by `RuleLine`. */
  function CorrectedRuleLines(g: Generator, context: Context): (r: seq<string>)
    ensures |r| == |g.options.fields|
  {
    seq(|g.options.fields|, i requires 0 <= i < |g.options.fields| =>
      RuleLine(g.options.fields[i].name, Join(FieldRules(g, g.options.fields[i], context), "|")))
  }

  /**
   * A written line is the corrected one exactly when its field's rules
   * hold no single quote.
   */
  lemma RuleLinesAgree(g: Generator, context: Context)
    ensures forall i :: 0 <= i < |g.options.fields| ==>
      (RuleLines(g, context)[i] == CorrectedRuleLines(g, context)[i]
       <==> '\'' !in Join(FieldRules(g, g.options.fields[i], context), "|"))
  {
    forall i | 0 <= i < |g.options.fields|
      ensures RuleLines(g, context)[i] == CorrectedRuleLines(g, context)[i]
              ==> '\'' !in Join(FieldRules(g, g.options.fields[i], context), "|")
    {
      var name := g.options.fields[i].name;
      var rules := Join(FieldRules(g, g.options.fields[i], context), "|");
      var at := |"            '" + name + "' => "|;
      if '\'' in rules {
        assert RuleLineAsWritten(name, rules)[at] == '\'';
        assert RuleLine(name, rules)[at] == '"';
      }
    }
  }

  /**
   * The block is exactly one line per field: splitting it at line breaks
   * gives back the field lines (when no name or rule holds a line break).
   */
  lemma RulesBlockLines(g: Generator, context: Context)
    requires |g.options.fields| >= 1
    requires forall i :: 0 <= i < |RuleLines(g, context)| ==> '\n' !in RuleLines(g, context)[i]
    ensures Split(Join(RuleLines(g, context), "\n"), '\n') == RuleLines(g, context)
  {
    SplitJoin(RuleLines(g, context), '\n');
  }

  /** `replaceRules`: collects the lines field by field, joins them with line breaks and fills `{{rules}}`. */
  method ReplaceRules(g: Generator, stub: string, context: Context) returns (r: string)
    ensures r == ReplaceAll(stub, "{{rules}}", Join(RuleLines(g, context), "\n"))
  {
    var rules: seq<string> := [];
    for i := 0 to |g.options.fields|
      invariant rules == RuleLines(g, context)[..i]
    {
      var field := g.options.fields[i];
      var fieldRules := GenerateFieldRules(g, field, context);
      rules := rules + ["            '" + field.name + "' => '" + fieldRules + "',"];
    }
    assert rules == RuleLines(g, context);
    r := ReplaceAll(stub, "{{rules}}", Join(rules, "\n"));
  }

  /** `replaceClassName`: the prefix, the model name and `Request`. */
  function ClassName(g: Generator, context: Context): string
  {
    Prefix(context) + g.options.modelName + "Request"
  }

  /** `getRequestPath`. */
  function RequestPath(g: Generator, context: Context): (r: string)
    ensures StartsWith(r, AppPath("Http/Requests/")) && EndsWith(r, "/" + ClassName(g, context) + ".php")
  {
    PathShape("app/", "Http/Requests/", g.NamespacePath(), "/" + ClassName(g, context) + ".php");
    AppPath("Http/Requests/" + g.NamespacePath() + ("/" + ClassName(g, context) + ".php"))
  }

  /** The text of one request class: namespace, class name and rules filled into its stub. */
  function RequestText(g: Generator, files: map<string, string>, context: Context): string
  {
    var s := ReplaceAll(Stub(files, StubName(context)), "{{namespace}}", g.FullNamespace(RequestKind).value);
    var s := ReplaceAll(s, "{{class}}", ClassName(g, context));
    ReplaceAll(s, "{{rules}}", Join(RuleLines(g, context), "\n"))
  }

  /** `generateStoreRequest` / `generateUpdateRequest`. */
  method GenerateRequest(g: Generator, disk: Disk, context: Context) returns (path: string)
    modifies disk
    ensures path == RequestPath(g, context)
    ensures disk.files == old(disk.files)[Normalize(path) := RequestText(g, old(disk.files), context)]
  {
    var stub := Stub(disk.files, StubName(context));
    stub := ReplaceAll(stub, "{{namespace}}", g.FullNamespace(RequestKind).value);
    stub := ReplaceAll(stub, "{{class}}", ClassName(g, context));
    stub := ReplaceRules(g, stub, context);
    path := RequestPath(g, context);
    disk.Put(path, stub);
  }

  /** `generate`: always succeeds, writing the store request and then the update request. */
  method Generate(g: Generator, disk: Disk) returns (o: Outcome)
    modifies disk
    ensures o == Success([RequestPath(g, Store), RequestPath(g, Update)])
    ensures disk.files == old(disk.files)
      [Normalize(RequestPath(g, Store)) := RequestText(g, old(disk.files), Store)]
      [Normalize(RequestPath(g, Update)) := RequestText(g, old(disk.files), Update)]
  {
    var storePath := GenerateRequest(g, disk, Store);
    StubFrame(old(disk.files), storePath, RequestText(g, old(disk.files), Store), StubName(Update));
    var updatePath := GenerateRequest(g, disk, Update);
    o := Success([storePath, updatePath]);
  }
}
