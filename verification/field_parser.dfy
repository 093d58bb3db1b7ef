/**
 * The field-specification parser: `name:type[:modifier]*` definitions
 * joined by `,` become field descriptors carrying an HTML input kind and
 * an ordered list of validation rules.
 */
module FieldParser {
  import opened Wrappers
  import opened PhpStrings

  /** One parsed field, with the keys of the source's field array. */
  datatype Field = Field(
    name: string,
    fieldType: string,
    modifiers: seq<string>,
    nullable: bool,
    unique: bool,
    defaultValue: Option<string>,
    validation: seq<string>,
    htmlType: string,
    enumValues: seq<string>)

  /** The type-to-input map of `getHtmlType`. */
  const HtmlTypeMap: map<string, string> := map[
    "string" := "text",
    "text" := "textarea",
    "integer" := "number",
    "bigInteger" := "number",
    "float" := "number",
    "decimal" := "number",
    "double" := "number",
    "boolean" := "checkbox",
    "date" := "date",
    "datetime" := "datetime-local",
    "time" := "time",
    "timestamp" := "datetime-local",
    "file" := "file",
    "image" := "file",
    "email" := "email",
    "password" := "password",
    "url" := "url",
    "tel" := "tel",
    "color" := "color"]

  /**
   * `getHtmlType`: any type beginning with `enum` is a select (and nothing
   * else is); an unmapped type is a text input.
   */
  function HtmlType(t: string): (r: string)
    ensures r == "select" <==> StartsWith(t, "enum")
    ensures !StartsWith(t, "enum") && t !in HtmlTypeMap ==> r == "text"
  {
    if StartsWith(t, "enum") then "select"
    else if t in HtmlTypeMap then HtmlTypeMap[t]
    else "text"
  }

  /** The types that have a case in the rule switch of `generateValidationRules`. */
  const RuleTypes: set<string> := {"string", "text", "integer", "bigInteger", "float", "decimal", "double",
                                   "boolean", "date", "datetime", "timestamp", "email", "url", "file",
                                   "image", "enum"}

  /** The type-specific rule group; a type without a case contributes nothing. */
  function TypeRules(t: string, enumValues: seq<string>): (r: seq<string>)
    ensures t !in RuleTypes ==> r == []
    ensures t == "enum" ==> (r == [] <==> enumValues == [])
    ensures "unique" !in r && "required" !in r && "nullable" !in r
  {
    if t == "string" then ["string", "max:255"]
    else if t == "text" then ["string"]
    else if t == "integer" || t == "bigInteger" then ["integer"]
    else if t == "float" || t == "decimal" || t == "double" then ["numeric"]
    else if t == "boolean" then ["boolean"]
    else if t == "date" || t == "datetime" || t == "timestamp" then ["date"]
    else if t == "email" then ["email", "max:255"]
    else if t == "url" then ["url"]
    else if t == "file" then ["file", "max:2048"]
    else if t == "image" then ["image", "mimes:jpg,jpeg,png,gif", "max:2048"]
    else if t == "enum" then
      if |enumValues| > 0 then
        var rule := "in:" + Join(enumValues, ",");
        assert rule[0] == 'i' && rule[1] == 'n' && rule[2] == ':';
        [rule]
      else []
    else []
  }

  /**
   * `generateValidationRules`: exactly one of required/nullable first, the
   * type group next, and `unique` last exactly when the flag is set.
   */
  function ValidationRules(t: string, nullable: bool, unique: bool, enumValues: seq<string>): (r: seq<string>)
    ensures |r| >= 1 && r[0] == (if nullable then "nullable" else "required")
    ensures "required" in r <==> !nullable
    ensures "nullable" in r <==> nullable
    ensures "unique" in r <==> unique
    ensures unique ==> r[|r| - 1] == "unique"
    ensures r[1..|r| - (if unique then 1 else 0)] == TypeRules(t, enumValues)
  {
    var head := if nullable then "nullable" else "required";
    var r := [head] + TypeRules(t, enumValues) + (if unique then ["unique"] else []);
    assert r[1..|r| - (if unique then 1 else 0)] == TypeRules(t, enumValues);
    r
  }

  /** For a nullable, unique string the rules are exactly these four, in this order. */
  lemma NullableUniqueStringRules()
    ensures ValidationRules("string", true, true, []) == ["nullable", "string", "max:255", "unique"]
  {
  }

  /** Types without a rule case (password, tel, color, time, a raw `enum(...)`) add no type rule. */
  lemma UncoveredTypesAddNothing(t: string, nullable: bool, unique: bool, values: seq<string>)
    requires t in {"password", "tel", "color", "time"} || StartsWith(t, "enum(")
    ensures ValidationRules(t, nullable, unique, values)
         == [if nullable then "nullable" else "required"] + (if unique then ["unique"] else [])
  {
    assert t !in RuleTypes by {
      if StartsWith(t, "enum(") {
        assert |t| >= 5 && t[4] == '(';
      }
    }
  }

  /**
   * The two anchored patterns `^enum\((.*?)\)$` and `^default\((.*?)\)$`:
   * `head`, then a captured text without line breaks, then `)`, which
   * PCRE's `$` also accepts before one final line break.
   */
  function ParenArgument(t: string, head: string): (r: Option<string>)
    ensures r.Some? ==> '\n' !in r.value && (t == head + r.value + ")" || t == head + r.value + ")\n")
  {
    if StartsWith(t, head) && |t| >= |head| + 1 && t[|t| - 1] == ')' && '\n' !in t[|head|..|t| - 1] then
      assert t == head + t[|head|..|t| - 1] + ")";
      Some(t[|head|..|t| - 1])
    else if StartsWith(t, head) && |t| >= |head| + 2 && t[|t| - 2..] == ")\n" && '\n' !in t[|head|..|t| - 2] then
      assert t == head + t[|head|..|t| - 2] + ")\n";
      Some(t[|head|..|t| - 2])
    else None
  }

  /** Conversely, every text of that shape matches and yields its inner part. */
  lemma ParenArgumentOf(head: string, v: string, tail: string)
    requires '\n' !in v && (tail == ")" || tail == ")\n")
    ensures ParenArgument(head + v + tail, head) == Some(v)
  {
    var t := head + v + tail;
    assert t[..|head|] == head;
    if tail == ")" {
      assert t[|head|..|t| - 1] == v;
    } else {
      assert t[|t| - 1] == '\n';
      assert t[|t| - 2..] == ")\n";
      assert t[|head|..|t| - 2] == v;
    }
  }

  /** The field as first built from the name and type segments. */
  function InitialField(parts: seq<string>): (f: Field)
    requires |parts| >= 2
  {
    Field(parts[0], parts[1], [], false, false, None, [], HtmlType(parts[1]), [])
  }

  /**
   * One iteration of the modifier loop. The enum test looks at the TYPE
   * segment, not at the modifier, so once it matches every iteration
   * takes that branch and skips the modifier.
   */
  function ApplyModifier(f: Field, typeToken: string, m: string): Field
  {
    match ParenArgument(typeToken, "enum(")
    case Some(inner) =>
      f.(fieldType := "enum", enumValues := TrimAll(Split(inner, ',')), htmlType := "select")
    case None =>
      match ParenArgument(m, "default(")
      case Some(v) => f.(defaultValue := Some(v), modifiers := f.modifiers + ["default"])
      case None =>
        if m == "nullable" then f.(nullable := true, modifiers := f.modifiers + ["nullable"])
        else if m == "unique" then f.(unique := true, modifiers := f.modifiers + ["unique"])
        else f.(modifiers := f.modifiers + [m])
  }

  /** The modifier loop over `ms`, left to right. */
  function ApplyModifiers(f: Field, typeToken: string, ms: seq<string>): Field
    decreases |ms|
  {
    if |ms| == 0 then f
    else ApplyModifier(ApplyModifiers(f, typeToken, ms[..|ms| - 1]), typeToken, ms[|ms| - 1])
  }

  /** `parseFieldDefinition`: null for an empty definition or one without a type segment. */
  function ParseDefinition(definition: string): (r: Option<Field>)
    ensures r.Some? <==> Truthy(definition) && |Split(definition, ':')| >= 2
  {
    if !Truthy(definition) then None
    else
      var parts := Split(definition, ':');
      if |parts| < 2 then None
      else
        var f := ApplyModifiers(InitialField(parts), parts[1], parts[2..]);
        Some(f.(validation := ValidationRules(f.fieldType, f.nullable, f.unique, f.enumValues)))
  }

  /** The fields of a list of raw definitions, each trimmed first, the unparsable ones dropped. */
  function ParseEach(definitions: seq<string>): seq<Field>
    decreases |definitions|
  {
    if |definitions| == 0 then []
    else ParseEach(definitions[..|definitions| - 1]) + FieldsOf(definitions[|definitions| - 1])
  }

  /** The field one raw definition contributes, trimmed first: none or one. */
  function FieldsOf(definition: string): seq<Field>
  {
    match ParseDefinition(Trim(definition))
    case Some(f) => [f]
    case None => []
  }

  lemma ParseEachStep(definitions: seq<string>, i: nat)
    requires i < |definitions|
    ensures ParseEach(definitions[..i + 1]) == ParseEach(definitions[..i]) + FieldsOf(definitions[i])
  {
    assert definitions[..i + 1][..i] == definitions[..i];
  }

  /** One more definition appends its field (if any) to an accumulated list. */
  lemma AppendStep(base: seq<Field>, definitions: seq<string>, i: nat, acc: seq<Field>)
    requires i < |definitions| && acc == base + ParseEach(definitions[..i])
    ensures acc + FieldsOf(definitions[i]) == base + ParseEach(definitions[..i + 1])
  {
    ParseEachStep(definitions, i);
    AppendAssoc(base, ParseEach(definitions[..i]), FieldsOf(definitions[i]));
  }

  lemma AppendAssoc(a: seq<Field>, b: seq<Field>, c: seq<Field>)
    ensures (a + b) + c == a + (b + c)
  {
  }

  /** What one call of `parse` contributes for the field string `s`. */
  function ParseAll(s: string): seq<Field>
  {
    ParseEach(Split(s, ','))
  }

  /** The value of the last `default(...)` modifier, if any. */
  function LastDefault(ms: seq<string>): Option<string>
    decreases |ms|
  {
    if |ms| == 0 then None
    else if ParenArgument(ms[|ms| - 1], "default(").Some? then ParenArgument(ms[|ms| - 1], "default(")
    else LastDefault(ms[..|ms| - 1])
  }

  /** The entry a modifier leaves in the `modifiers` list. */
  function Recorded(m: string): string
  {
    if ParenArgument(m, "default(").Some? then "default" else m
  }

  /**
   * With an `enum(...)` type segment and at least one modifier, every
   * modifier is skipped: the field becomes an enum select with the values
   * in the parentheses, and no flag, default or modifier is recorded.
   */
  lemma {:induction false} EnumTypeSkipsModifiers(f: Field, typeToken: string, ms: seq<string>)
    requires ParenArgument(typeToken, "enum(").Some? && |ms| > 0
    ensures ApplyModifiers(f, typeToken, ms)
         == f.(fieldType := "enum",
               enumValues := TrimAll(Split(ParenArgument(typeToken, "enum(").value, ',')),
               htmlType := "select")
    decreases |ms|
  {
    if |ms| > 1 {
      EnumTypeSkipsModifiers(f, typeToken, ms[..|ms| - 1]);
    }
  }

  /**
   * Without an `enum(...)` type segment the modifiers are read left to
   * right: `nullable` and `unique` set their flags, the last `default(v)`
   * sets the default, each modifier is recorded (a default as `default`),
   * and name, type, input kind and enum values stay as they were.
   */
  lemma {:induction false} PlainModifiers(f: Field, typeToken: string, ms: seq<string>)
    requires ParenArgument(typeToken, "enum(").None?
    ensures var g := ApplyModifiers(f, typeToken, ms);
      && g.name == f.name && g.fieldType == f.fieldType && g.htmlType == f.htmlType && g.enumValues == f.enumValues
      && (g.nullable <==> f.nullable || "nullable" in ms)
      && (g.unique <==> f.unique || "unique" in ms)
      && g.defaultValue == (if LastDefault(ms).Some? then LastDefault(ms) else f.defaultValue)
      && |g.modifiers| == |f.modifiers| + |ms|
      && g.modifiers[..|f.modifiers|] == f.modifiers
      && (forall k :: 0 <= k < |ms| ==> g.modifiers[|f.modifiers| + k] == Recorded(ms[k]))
    decreases |ms|
  {
    if |ms| > 0 {
      var init := ms[..|ms| - 1];
      var m := ms[|ms| - 1];
      PlainModifiers(f, typeToken, init);
      assert ms == init + [m];
      PlainStep(ApplyModifiers(f, typeToken, init), typeToken, m);
      assert "nullable" in ms <==> "nullable" in init || m == "nullable";
      assert "unique" in ms <==> "unique" in init || m == "unique";
      assert forall k :: 0 <= k < |init| ==> ms[k] == init[k];
    }
  }

  /** One modifier on a field whose type segment is not `enum(...)`. */
  lemma PlainStep(h: Field, typeToken: string, m: string)
    requires ParenArgument(typeToken, "enum(").None?
    ensures var g := ApplyModifier(h, typeToken, m);
      && g.name == h.name && g.fieldType == h.fieldType && g.htmlType == h.htmlType && g.enumValues == h.enumValues
      && (g.nullable <==> h.nullable || m == "nullable")
      && (g.unique <==> h.unique || m == "unique")
      && g.defaultValue == (if ParenArgument(m, "default(").Some? then ParenArgument(m, "default(") else h.defaultValue)
      && g.modifiers == h.modifiers + [Recorded(m)]
  {
    assert ParenArgument("nullable", "default(").None?;
    assert ParenArgument("unique", "default(").None?;
  }

  /** A definition without any `:` never yields a field. */
  lemma NoColonNoField(definition: string)
    requires ':' !in definition
    ensures ParseDefinition(definition).None?
  {
    SplitWithoutDelimiter(definition, ':');
  }

  /** Parser totality: a field string without any `:` (the empty one included) gives no fields. */
  lemma {:induction false} NoColonNoFields(s: string)
    requires ':' !in s
    ensures ParseAll(s) == []
  {
    var defs := Split(s, ',');
    SplitChars(s, ',');
    NoColonEach(defs);
  }

  lemma {:induction false} NoColonEach(defs: seq<string>)
    requires forall i :: 0 <= i < |defs| ==> ':' !in defs[i]
    ensures ParseEach(defs) == []
    decreases |defs|
  {
    if |defs| > 0 {
      NoColonEach(defs[..|defs| - 1]);
      NoColonNoField(Trim(defs[|defs| - 1]));
    }
  }

  /** The enum values of a definition free of `,` number at most one. */
  lemma DefinitionEnumValues(definition: string)
    requires ',' !in definition
    ensures ParseDefinition(definition).Some? ==> |ParseDefinition(definition).value.enumValues| <= 1
  {
    if Truthy(definition) {
      var parts := Split(definition, ':');
      if |parts| >= 2 {
        var init := InitialField(parts);
        var ms := parts[2..];
        match ParenArgument(parts[1], "enum(")
        case Some(inner) =>
          SplitChars(definition, ':');
          assert ',' !in parts[1];
          assert ',' !in inner;
          SplitWithoutDelimiter(inner, ',');
          if |ms| > 0 {
            EnumTypeSkipsModifiers(init, parts[1], ms);
          }
        case None =>
          PlainModifiers(init, parts[1], ms);
      }
    }
  }

  /**
   * The outer split on `,` runs before the enum pattern is tried, so no
   * parsed field carries more than one enum value.
   */
  lemma {:induction false} EnumValuesAtMostOne(s: string)
    ensures forall i :: 0 <= i < |ParseAll(s)| ==> |ParseAll(s)[i].enumValues| <= 1
  {
    EachEnumValuesAtMostOne(Split(s, ','));
  }

  lemma {:induction false} EachEnumValuesAtMostOne(defs: seq<string>)
    requires forall i :: 0 <= i < |defs| ==> ',' !in defs[i]
    ensures forall i :: 0 <= i < |ParseEach(defs)| ==> |ParseEach(defs)[i].enumValues| <= 1
    decreases |defs|
  {
    if |defs| > 0 {
      EachEnumValuesAtMostOne(defs[..|defs| - 1]);
      DefinitionEnumValues(Trim(defs[|defs| - 1]));
    }
  }

  /**
   * A multi-value enum such as `status:enum(draft,published)` is torn at
   * its comma: the first piece keeps the raw type `enum(draft` with no
   * values and a bare `required` rule, and the rest (`published)`, which
   * has no `:`) is dropped.
   */
  lemma MultiValueEnumTornApart(name: string, x: string, y: string)
    requires name != [] && !IsSpace(name[0])
    requires x != [] && !IsSpace(x[|x| - 1])
    requires ',' !in name && ':' !in name && ',' !in x && ':' !in x && ',' !in y && ':' !in y
    ensures ParseAll(name + ":enum(" + x + "," + y + ")")
         == [Field(name, "enum(" + x, [], false, false, None, ["required"], "select", [])]
  {
    var first := name + ":enum(" + x;
    var second := y + ")";
    var whole := name + ":enum(" + x + "," + y + ")";
    assert whole == first + [','] + second;
    SplitInTwo(first, second);
    TornFirstPiece(name, x);
    NoColonNoFieldOf(second);
    ParseTwoPieces(first, second);
    calc {
      ParseAll(whole);
      ParseEach([first, second]);
      FieldsOf(first) + FieldsOf(second);
      [Field(name, "enum(" + x, [], false, false, None, ["required"], "select", [])] + [];
    }
  }

  lemma NoColonNoFieldOf(definition: string)
    requires ':' !in definition
    ensures FieldsOf(definition) == []
  {
    NoColonNoField(Trim(definition));
  }

  lemma ParseTwoPieces(first: string, second: string)
    ensures ParseEach([first, second]) == FieldsOf(first) + FieldsOf(second)
  {
    var defs := [first, second];
    assert defs[..|defs| - 1] == [first];
    assert [first][..0] == [];
    assert ParseEach([first]) == FieldsOf(first);
  }

  lemma SplitInTwo(first: string, second: string)
    requires ',' !in first && ',' !in second
    ensures Split(first + [','] + second, ',') == [first, second]
  {
    SplitAtDelimiter(first, second, ',');
    SplitWithoutDelimiter(first, ',');
    SplitWithoutDelimiter(second, ',');
  }

  lemma TornFirstPiece(name: string, x: string)
    requires name != [] && !IsSpace(name[0])
    requires x != [] && !IsSpace(x[|x| - 1])
    requires ':' !in name && ':' !in x
    ensures FieldsOf(name + ":enum(" + x)
         == [Field(name, "enum(" + x, [], false, false, None, ["required"], "select", [])]
  {
    var first := name + ":enum(" + x;
    var t := "enum(" + x;
    TrimClean(first);
    TypedPieces(name, x);
    var parts := Split(first, ':');
    assert StartsWith(t, "enum") by {
      assert t[..4] == "enum";
    }
    assert StartsWith(t, "enum(") by {
      assert t[..5] == "enum(";
    }
    UncoveredTypesAddNothing(t, false, false, []);
    assert Truthy(first) by {
      assert |first| > 1;
    }
    var init := InitialField(parts);
    assert init == Field(name, t, [], false, false, None, [], "select", []);
    assert ApplyModifiers(init, t, parts[2..]) == init;
    assert ParseDefinition(first) == Some(init.(validation := ["required"]));
  }

  lemma TypedPieces(name: string, x: string)
    requires ':' !in name && ':' !in x
    ensures Split(name + ":enum(" + x, ':') == [name, "enum(" + x]
  {
    var t := "enum(" + x;
    assert name + ":enum(" + x == name + [':'] + t;
    SplitAtDelimiter(name, t, ':');
    SplitWithoutDelimiter(name, ':');
    assert ':' !in t;
    SplitWithoutDelimiter(t, ':');
  }

  /** The field parser: `parse` accumulates into `fields`. */
  class Parser {
    const fieldsString: string
    var fields: seq<Field>

    constructor (fieldsString: string)
      ensures this.fieldsString == fieldsString && fields == []
    {
      this.fieldsString := fieldsString;
      fields := [];
    }

    /**
     * `parse`: appends this string's fields to whatever an earlier call
     * left in `fields` (the list is never cleared) and returns the list.
     */
    method Parse() returns (r: seq<Field>)
      modifies this
      ensures fields == old(fields) + ParseAll(fieldsString)
      ensures r == fields
    {
      var definitions := Split(fieldsString, ',');
      for i := 0 to |definitions|
        invariant fields == old(fields) + ParseEach(definitions[..i])
      {
        var field := ParseFieldDefinition(Trim(definitions[i]));
        AppendStep(old(fields), definitions, i, fields);
        if field.Some? {
          fields := fields + [field.value];
        }
      }
      assert definitions[..|definitions|] == definitions;
      r := fields;
    }

    /** `parseFieldDefinition`, with its loop over the modifier segments. */
    method ParseFieldDefinition(definition: string) returns (r: Option<Field>)
      ensures r == ParseDefinition(definition)
    {
      if !Truthy(definition) {
        return None;
      }
      var parts := Split(definition, ':');
      if |parts| < 2 {
        return None;
      }
      var field := InitialField(parts);
      for i := 2 to |parts|
        invariant field == ApplyModifiers(InitialField(parts), parts[1], parts[2..i])
      {
        var modifier := parts[i];
        assert parts[2..i + 1] == parts[2..i] + [modifier];
        var enumInner := ParenArgument(parts[1], "enum(");
        if enumInner.Some? {
          field := field.(fieldType := "enum", enumValues := TrimAll(Split(enumInner.value, ',')), htmlType := "select");
          continue;
        }
        var defaultInner := ParenArgument(modifier, "default(");
        if defaultInner.Some? {
          field := field.(defaultValue := Some(defaultInner.value), modifiers := field.modifiers + ["default"]);
          continue;
        }
        if modifier == "nullable" {
          field := field.(nullable := true, modifiers := field.modifiers + ["nullable"]);
        } else if modifier == "unique" {
          field := field.(unique := true, modifiers := field.modifiers + ["unique"]);
        } else {
          field := field.(modifiers := field.modifiers + [modifier]);
        }
      }
      assert parts[2..|parts|] == parts[2..];
      field := field.(validation := ValidationRules(field.fieldType, field.nullable, field.unique, field.enumValues));
      r := Some(field);
    }

    /** `getFields`. */
    function GetFields(): seq<Field>
      reads this
    {
      fields
    }
  }

  /** Calling `parse` twice on one parser returns every field twice. */
  method ParseTwice(s: string) returns (first: seq<Field>, second: seq<Field>)
    ensures first == ParseAll(s)
    ensures second == first + first
  {
    var parser := new Parser(s);
    first := parser.Parse();
    second := parser.Parse();
  }
}
