/**
 * The test generator: one feature test, PHPUnit or Pest, whose request
 * payload holds a fixture value for every field type it knows.
 */
module TestGenerator {
  import opened Wrappers
  import opened PhpStrings
  import opened Template
  import opened Laravel
  import opened FieldParser
  import opened FileSystem
  import opened BaseGenerator

  /** The stub of the test: `test.pest` exactly when the dialect is `pest`; a missing dialect means PHPUnit. */
  function StubName(g: Generator): (r: string)
    ensures r == "test.pest" <==> g.options.testType == Some("pest")
    ensures r == "test.phpunit" <==> g.options.testType != Some("pest")
  {
    if g.options.testType.GetOr("phpunit") == "pest" then "test.pest" else "test.phpunit"
  }

  /** The field types that always get a fixture value. */
  const FixtureTypes: set<string> :=
    {"string", "email", "text", "integer", "bigInteger", "float", "decimal", "boolean", "date", "datetime"}

  /** The fixture value of a field, if its type has one: an enum needs at least one value. */
  function FixtureValue(f: Field): (r: Option<string>)
    ensures r.Some? <==> f.fieldType in FixtureTypes || (f.fieldType == "enum" && |f.enumValues| > 0)
  {
    var t := f.fieldType;
    if t == "string" || t == "email" then Some("'Test " + f.name + "'")
    else if t == "text" then Some("'Test " + f.name + " content'")
    else if t == "integer" || t == "bigInteger" then Some("123")
    else if t == "float" || t == "decimal" then Some("12.34")
    else if t == "boolean" then Some("true")
    else if t == "date" then Some("now()->format('Y-m-d')")
    else if t == "datetime" then Some("now()->format('Y-m-d H:i:s')")
    else if t == "enum" && |f.enumValues| > 0 then Some("'" + f.enumValues[0] + "'")
    else None
  }

  /** The payload entry of a field: its quoted name mapped to its fixture value. */
  function Entry(f: Field): (r: Option<string>)
    ensures r.Some? <==> FixtureValue(f).Some?
    ensures r.Some? ==> r.value == "'" + f.name + "' => " + FixtureValue(f).value
  {
    match FixtureValue(f)
    case Some(value) => Some("'" + f.name + "' => " + value)
    case None => None
  }

  /** The entries of the fields that have a fixture, in field order. */
  function Entries(fields: seq<Field>): (r: seq<string>)
    ensures |r| <= |fields|
    decreases |fields|
  {
    if |fields| == 0 then []
    else
      var n := |fields| - 1;
      Entries(fields[..n]) + (match Entry(fields[n]) case Some(e) => [e] case None => [])
  }

  /**
   * The entries of two runs of fields laid end to end are the entries of
   * the first run followed by those of the second: the payload keeps the
   * field order and skips a field without a fixture.
   */
  lemma {:induction false} EntriesAppend(a: seq<Field>, b: seq<Field>)
    ensures Entries(a + b) == Entries(a) + Entries(b)
    decreases |b|
  {
    if |b| > 0 {
      var n := |b| - 1;
      EntriesAppend(a, b[..n]);
      assert (a + b)[..|a| + n] == a + b[..n];
      assert (a + b)[|a| + n] == b[n];
    } else {
      assert a + b == a;
    }
  }

  /** A single field contributes its entry, or nothing. */
  lemma EntriesOne(f: Field)
    ensures Entries([f]) == (match Entry(f) case Some(e) => [e] case None => [])
  {
    assert [f][..0] == [];
  }

  /** The separator of the payload entries: a comma, a line break and the indentation of the array. */
  const EntrySeparator: string := ",\n            "

  /** `generateTestData`: the entries joined by the separator. */
  function TestData(g: Generator): string
  {
    Join(Entries(g.options.fields), EntrySeparator)
  }

  /** The payload is empty exactly when no field has a fixture. */
  lemma EmptyTestData(g: Generator)
    ensures TestData(g) == "" <==> |Entries(g.options.fields)| == 0
  {
    var entries := Entries(g.options.fields);
    if |entries| > 0 {
      JoinHead(entries, EntrySeparator);
      NonEmptyEntries(g.options.fields);
    }
  }

  /** A non-empty list joins to a text beginning with its first element. */
  lemma JoinHead(parts: seq<string>, sep: string)
    requires |parts| > 0
    ensures StartsWith(Join(parts, sep), parts[0])
  {
    if |parts| > 1 {
      StartsWithAppend(parts[0], sep + Join(parts[1..], sep));
      assert parts[0] + sep + Join(parts[1..], sep) == parts[0] + (sep + Join(parts[1..], sep));
    }
  }

  /** Every entry begins with a quote, so none is empty. */
  lemma {:induction false} NonEmptyEntries(fields: seq<Field>)
    ensures forall k :: 0 <= k < |Entries(fields)| ==> |Entries(fields)[k]| > 0
    decreases |fields|
  {
    if |fields| > 0 {
      NonEmptyEntries(fields[..|fields| - 1]);
    }
  }

  /** `generateTestData`: the loop over the fields, collecting the entries that have a fixture. */
  method GenerateTestData(g: Generator) returns (r: string)
    ensures r == TestData(g)
  {
    var fields := g.options.fields;
    var data: seq<string> := [];
    for i := 0 to |fields|
      invariant data == Entries(fields[..i])
    {
      assert fields[..i + 1][..i] == fields[..i];
      var f := fields[i];
      assert Entries(fields[..i + 1]) == data + (match Entry(f) case Some(e) => [e] case None => []);
      var t := f.fieldType;
      var key := "'" + f.name + "' => ";
      if t == "string" || t == "email" {
        data := data + [key + ("'Test " + f.name + "'")];
      } else if t == "text" {
        data := data + [key + ("'Test " + f.name + " content'")];
      } else if t == "integer" || t == "bigInteger" {
        data := data + [key + "123"];
      } else if t == "float" || t == "decimal" {
        data := data + [key + "12.34"];
      } else if t == "boolean" {
        data := data + [key + "true"];
      } else if t == "date" {
        data := data + [key + "now()->format('Y-m-d')"];
      } else if t == "datetime" {
        data := data + [key + "now()->format('Y-m-d H:i:s')"];
      } else if t == "enum" {
        if |f.enumValues| > 0 {
          data := data + [key + ("'" + f.enumValues[0] + "'")];
        }
      }
    }
    assert fields[..|fields|] == fields;
    r := Join(data, EntrySeparator);
  }

  /** The test's class: the model name followed by `Test`. */
  function ClassName(g: Generator): string
  {
    g.options.modelName + "Test"
  }

  /** The namespace of every generated test. */
  const TestNamespace: string := "Tests\\Feature"

  /** `replaceTestPlaceholders`: one left-to-right pass per token, in the order of the replacement array. */
  function TestText(g: Generator, files: map<string, string>): string
  {
    var s := Stub(files, StubName(g));
    var s := ReplaceAll(s, "{{namespace}}", TestNamespace);
    var s := ReplaceAll(s, "{{class}}", ClassName(g));
    var s := ReplaceAll(s, "{{modelName}}", g.options.modelName);
    var s := ReplaceAll(s, "{{modelNamespace}}", g.FullNamespace(ModelKind).value);
    var s := ReplaceAll(s, "{{modelVariable}}", g.ModelVariable());
    var s := ReplaceAll(s, "{{routePath}}", g.RoutePath());
    ReplaceAll(s, "{{testData}}", TestData(g))
  }

  /** `getTestPath`: `tests/Feature/<Model>Test.php` at the project root. */
  function TestPath(g: Generator): (r: string)
    ensures StartsWith(r, "tests/Feature/") && EndsWith(r, "/" + ClassName(g) + ".php")
  {
    PathShape("tests/", "Feature/", "", ClassName(g) + ".php");
    assert "tests/Feature/" + (ClassName(g) + ".php") == "tests/Feature" + ("/" + ClassName(g) + ".php");
    EndsWithAppend("tests/Feature", "/" + ClassName(g) + ".php");
    StartsWithAppend("tests/Feature/", ClassName(g) + ".php");
    BasePath("tests/Feature/" + (ClassName(g) + ".php"))
  }

  /**
   * The test's place and its namespace do not follow the model's
   * namespace: two models of the same name in different namespaces get
   * the same test file.
   */
  lemma TestPathIgnoresNamespace(g: Generator, namespace: string)
    ensures var h := g.(options := g.options.(namespace := namespace));
      TestPath(h) == TestPath(g) && ClassName(h) == ClassName(g)
  {
  }

  /** `generate`: always succeeds, writing the test and nothing else. */
  method Generate(g: Generator, disk: Disk) returns (o: Outcome)
    modifies disk
    ensures o == Success([TestPath(g)])
    ensures disk.files == old(disk.files)[Normalize(TestPath(g)) := TestText(g, old(disk.files))]
  {
    var stub := Stub(disk.files, StubName(g));
    var data := GenerateTestData(g);
    stub := ReplaceAll(stub, "{{namespace}}", TestNamespace);
    stub := ReplaceAll(stub, "{{class}}", ClassName(g));
    stub := ReplaceAll(stub, "{{modelName}}", g.options.modelName);
    stub := ReplaceAll(stub, "{{modelNamespace}}", g.FullNamespace(ModelKind).value);
    stub := ReplaceAll(stub, "{{modelVariable}}", g.ModelVariable());
    stub := ReplaceAll(stub, "{{routePath}}", g.RoutePath());
    stub := ReplaceAll(stub, "{{testData}}", data);
    var path := TestPath(g);
    disk.Put(path, stub);
    o := Success([path]);
  }
}
