# Laravel CRUD generator, modelled in Dafny

This project models the core of the `sndpbag/laravel-crud-generator-packege`
Laravel package. It covers two Artisan commands:

- `make:crud`: reads a model name and a field string, then writes a model,
  a migration, two form requests, a controller, four Blade views, a route
  registration and (optionally) a feature test;
- `crud:delete`: removes those files again and cuts the route registration
  out of `routes/web.php`.

The model follows the structure of the PHP code:

- `FieldParser` (`field_parser.dfy`) turns the `--fields` text into field
  records. It keeps the exact behaviour of `explode`, `trim`, the two
  anchored regular expressions and the modifier loop.
- `BaseGenerator` (`base_generator.dfy`) holds the options every generator
  receives and the derived names: the full namespace, the view path, the
  route path and the stub lookup.
- One module per generator: model, migration, request, controller, view,
  route, test, job and mailable. Each generator's text is a function of
  the options and of the stubs on disk. Each PHP method that builds text
  with a loop is a Dafny `method` proved equal to that function.
  `generate` is a method that writes the file system.
- `MakeCrud` and `DeleteCrud` (`make_crud.dfy`, `delete_crud.dfy`) are
  classes whose fields are the command's state (model name, namespace,
  fields, relationships, deleted paths). Their methods update that state
  and the file system.

Shared pieces:

- The file system is the class `FileSystem.Disk`. Its field is a map from
  paths (with repeated `/` collapsed, as the operating system reads them)
  to file contents.
- `str_replace` is `Template.ReplaceAll`.
- `explode`/`implode` are `PhpStrings.Split`/`Join`.
- PHP's truthiness of strings (`""` and `"0"` are false) is `Truthy`.
- Laravel's inflection helpers (`Str::plural`, `snake`, `camel`, `studly`,
  `title`) are arbitrary total functions held in `Laravel.Inflector`.
  Nothing proved depends on English grammar.
- The clock reading (`date('Y_m_d_His')`), the configured view template
  and the answers to the console questions are parameters.

## Model

| member | source | states |
|---|---|---|
| FieldParser.HtmlType | src/Parsers/FieldParser.php:92-122 | a type is a select input exactly when it begins with `enum`; a type missing from the map falls back to a text input |
| FieldParser.TypeRules | src/Parsers/FieldParser.php:135-192 | a type without a switch case adds no rule; an enum adds a rule exactly when it has values; no type rule is ever `required`, `nullable` or `unique` |
| FieldParser.ValidationRules | src/Parsers/FieldParser.php:124-200 | exactly one of `required`/`nullable` comes first, matching the nullable flag; the type rules follow; `unique` is present exactly when the flag is set, and then it comes last |
| FieldParser.NullableUniqueStringRules | src/Parsers/FieldParser.php:124-200 | a nullable, unique string gets the rules nullable, string, max:255, unique, in that order |
| FieldParser.UncoveredTypesAddNothing | src/Parsers/FieldParser.php:136-192 | password, tel, color, time and a raw `enum(...)` type get only the presence rule and, if unique, `unique` |
| FieldParser.ParenArgument | src/Parsers/FieldParser.php:60-69 | a match of the anchored `enum(...)`/`default(...)` pattern gives an inner text without line breaks, framed by the head and `)` with at most one final line break |
| FieldParser.ParenArgumentOf | src/Parsers/FieldParser.php:60-69 | conversely, every text of that shape matches and yields exactly its inner part |
| FieldParser.ParseDefinition | src/Parsers/FieldParser.php:31-90 | a definition yields a field exactly when it is non-empty in PHP's sense and has at least two `:`-separated segments |
| FieldParser.EnumTypeSkipsModifiers | src/Parsers/FieldParser.php:56-65 | with an `enum(...)` type segment and any modifier, every modifier is skipped; the field becomes an enum select with the trimmed values, and no flag, default or modifier is recorded |
| FieldParser.PlainModifiers | src/Parsers/FieldParser.php:56-84 | otherwise the modifiers are read left to right: `nullable` and `unique` set their flags, the last `default(v)` sets the default, each modifier is recorded once in order, and name, type and input kind are kept |
| FieldParser.NoColonNoFields | src/Parsers/FieldParser.php:17-41 | a field string without any `:`, the empty one included, parses to no fields |
| FieldParser.EnumValuesAtMostOne | src/Parsers/FieldParser.php:17-65 | because the outer split on `,` runs first, no parsed field ever carries more than one enum value |
| FieldParser.MultiValueEnumTornApart | src/Parsers/FieldParser.php:17-65 | `name:enum(x,y)` gives a single field of raw type `enum(x`, with no values and only the `required` rule; the rest is dropped |
| FieldParser.Parser.constructor | src/Parsers/FieldParser.php:12-15 | a new parser holds the field string and an empty field list |
| FieldParser.Parser.Parse | src/Parsers/FieldParser.php:17-29 | the parsed fields are appended to the list left by earlier calls, which is never cleared, and the whole list is returned |
| FieldParser.Parser.ParseFieldDefinition | src/Parsers/FieldParser.php:31-90 | the loop over the modifier segments computes the same field as the definition's specification |
| FieldParser.ParseTwice | src/Parsers/FieldParser.php:17-29 | calling parse twice on one parser returns every field twice |
| Laravel.ConfiguredNamespace | config/crud-generator.php:27-31 | only the model, controller and request namespaces are configured; job and mail read as null |
| BaseGenerator.BelongsToMembers | src/Generators/MigrationGenerator.php:48-53 | a model is a belongsTo target exactly when some belongsTo entry names it |
| BaseGenerator.Stub | src/Generators/BaseGenerator.php:38-55 | the published stub wins over the package's own stub; with neither, the text is empty |
| BaseGenerator.ModelStub | src/Generators/ModelGenerator.php:122-133 | the model generator's lookup fails exactly when neither stub exists, and otherwise agrees with the shared lookup |
| BaseGenerator.StubFrame | src/Generators/BaseGenerator.php:38-55 | writing any generated file leaves every stub lookup unchanged |
| BaseGenerator.Generator.FullNamespace | src/Generators/BaseGenerator.php:57-66 | with a truthy namespace: the configured base (empty when unset), then `\` and the namespace, and nothing else; with a falsy one: the base itself, and no string at all (the `string` return type throws) when the base is unset |
| BaseGenerator.FullNamespaceSegments | src/Generators/BaseGenerator.php:57-66 | for a configured kind, the full namespace exists and its segments are the base's segments followed by the namespace's own |
| BaseGenerator.Generator.NamespacePath | src/Generators/BaseGenerator.php:92 | each backslash becomes a slash and every other character stays in place |
| BaseGenerator.Generator.ViewPath | src/Generators/BaseGenerator.php:90-100 | the view path ends with the table name |
| BaseGenerator.Generator.RoutePath | src/Generators/BaseGenerator.php:102-112 | the route path ends with the table name |
| BaseGenerator.PrefixTruthy | src/Generators/BaseGenerator.php:90-112 | the converted prefix is truthy exactly when the namespace is |
| BaseGenerator.RouteViewDiffer | src/Generators/BaseGenerator.php:90-112 | route and view path have the same length and differ only at the separator before the table (`/` against `.`); with a falsy namespace they are equal |
| BaseGenerator.ViewPathKeepsSlashes | src/Generators/BaseGenerator.php:90-100 | in the view path the namespace separators stay `/`, letters are lower-cased, and the only `.` is the one before the table |
| ModelGenerator.FillableLines | src/Generators/ModelGenerator.php:43-50 | read line by line, the fillable list is one quoted name per field in field order, indented after the first line, with commas between |
| ModelGenerator.SoftDeletesTogether | src/Generators/ModelGenerator.php:52-63 | the import and the trait are both present with soft deletes and both empty without |
| ModelGenerator.RelationshipMethodLines | src/Generators/ModelGenerator.php:65-90 | each relationship method is exactly five lines: a blank line, the signature named after the target (pluralised for hasMany), and the body returning the matching Eloquent relation |
| ModelGenerator.RelationshipsBlockLines | src/Generators/ModelGenerator.php:65-78 | the relationship block is one five-line method per relationship, in declared order |
| ModelGenerator.ReplaceRelationships | src/Generators/ModelGenerator.php:65-78 | the appending loop fills `{{relationships}}` with the methods of all relationships in order |
| ModelGenerator.CastOf | src/Generators/ModelGenerator.php:92-114 | exactly the cast types get a cast: boolean, datetime for date types, integer, and decimal:2 for floating types |
| ModelGenerator.CastedColumnsAreTyped | src/Generators/ModelGenerator.php:92-114 | every cast type has its own migration column type, never the string fallback |
| ModelGenerator.CastsEmpty | src/Generators/ModelGenerator.php:92-114 | there are no casts exactly when no field has a cast type |
| ModelGenerator.CastsMembers | src/Generators/ModelGenerator.php:92-114 | an entry is in the casts exactly when some field of a cast type produces it |
| ModelGenerator.CastsBlockLines | src/Generators/ModelGenerator.php:92-114 | a non-empty casts block is a blank line, the property opening, one indented entry per cast and the closing bracket |
| ModelGenerator.ReplaceCasts | src/Generators/ModelGenerator.php:92-114 | the collecting loop fills `{{casts}}` with the casts block |
| ModelGenerator.ModelPath | src/Generators/ModelGenerator.php:116-120 | the model lies under `app/Models/` and is named after the model |
| ModelGenerator.ModelTextPlain | src/Generators/ModelGenerator.php:10-30 | a stub naming none of the seven tokens is written out unchanged |
| ModelGenerator.Generate | src/Generators/ModelGenerator.php:10-30 | without any model stub nothing is written and the call fails; otherwise only the model file is written, with the filled stub |
| MigrationGenerator.ColumnType | src/Generators/MigrationGenerator.php:104-127 | uploads, email, password and url are strings; datetime becomes dateTime; unmapped types fall back to string; no column method begins with `e` |
| MigrationGenerator.EnumColumnIff | src/Generators/MigrationGenerator.php:64-102 | a column line is an enum column exactly when the type is `enum` with at least one value |
| MigrationGenerator.ModifiersExtend | src/Generators/MigrationGenerator.php:64-102 | the modifiers only extend the column call; they never change its head |
| MigrationGenerator.DefaultQuoting | src/Generators/MigrationGenerator.php:88-97 | a default is quoted for string, text and enum columns and raw for every other type, and it is the last modifier |
| MigrationGenerator.GenerateColumnDefinition | src/Generators/MigrationGenerator.php:64-102 | building the line piece by piece gives the specified column line |
| MigrationGenerator.ColumnsBlockLines | src/Generators/MigrationGenerator.php:39-62 | read line by line, the block is: the id; one column per field in order; one foreign key per belongsTo target in order; soft deletes exactly when enabled; the timestamps last |
| MigrationGenerator.ReplaceColumns | src/Generators/MigrationGenerator.php:39-62 | the two appending loops fill `{{columns}}` with that block |
| MigrationGenerator.Generate | src/Generators/MigrationGenerator.php:10-26 | always succeeds, writing only the migration named after the given timestamp |
| RequestGenerator.FieldRules | src/Generators/RequestGenerator.php:77-100 | the rule list keeps its length and order; only the first bare `unique` of a unique field is replaced by the scoped rule; a field that is not unique keeps its rules |
| RequestGenerator.NonUniqueRulesAgree | src/Generators/RequestGenerator.php:77-100 | a field that is not unique gets the same rules in the store and the update request |
| RequestGenerator.UniqueRewriteIsLast | src/Generators/RequestGenerator.php:77-100 | for a parsed unique field the two requests differ only in the last rule |
| RequestGenerator.GenerateFieldRules | src/Generators/RequestGenerator.php:77-100 | the array update and implode give the specified rule list joined by the pipe character |
| RequestGenerator.RuleLine | src/Generators/RequestGenerator.php:70 | corrected reference line: the same as the line as written whenever the rules hold no single quote |
| RequestGenerator.RuleLineQuoted | src/Generators/RequestGenerator.php:70 | the corrected line encloses the rules in a quote character that does not occur inside them |
| RequestGenerator.UpdateLineBreaksLiteral | src/Generators/RequestGenerator.php:70 | in the line as written for the update rule of a unique field, the literal opened by `'` meets another `'` before the rules are over |
| RequestGenerator.RulesBlockLines | src/Generators/RequestGenerator.php:64-75 | the rules block is exactly one line per field, in field order |
| RequestGenerator.RuleLinesAgree | src/Generators/RequestGenerator.php:64-75 | each written line equals the corrected line exactly when its field's rules hold no single quote |
| RequestGenerator.ReplaceRules | src/Generators/RequestGenerator.php:64-75 | the collecting loop fills `{{rules}}` with the lines as written, single-quoted, joined by line breaks |
| RequestGenerator.RequestPath | src/Generators/RequestGenerator.php:102-108 | the request lies under `app/Http/Requests/` and is named after its class |
| RequestGenerator.GenerateRequest | src/Generators/RequestGenerator.php:22-50 | writes only the request of the given flavour, with the rule lines as written, and returns its path |
| RequestGenerator.Generate | src/Generators/RequestGenerator.php:10-20 | always succeeds, writing the store request and then the update request |
| RouteGenerator.RouteFileName | src/Generators/RouteGenerator.php:12 | the file is `api` exactly in API mode |
| RouteGenerator.RouteFilePath | src/Generators/RouteGenerator.php:12-13 | `routes/api.php` in API mode, `routes/web.php` otherwise |
| RouteGenerator.Verb | src/Generators/RouteGenerator.php:74-80 | `apiResource` exactly in API mode, `resource` otherwise |
| RouteGenerator.RouteLineLines | src/Generators/RouteGenerator.php:66-97 | read line by line: the resource line, then the three soft-delete routes only with soft deletes in web mode; with auth in web mode everything sits inside the middleware group between its opening and closing lines |
| RouteGenerator.Registered | src/Generators/RouteGenerator.php:22-35 | appending is refused exactly when the content already holds the route text |
| RouteGenerator.RegisteredKeepsContent | src/Generators/RouteGenerator.php:35 | the appended content keeps the old content up to its trailing whitespace and ends with the route text and a line break |
| RouteGenerator.RegisterTwice | src/Generators/RouteGenerator.php:22-35 | idempotence: a second registration of the same text is refused |
| RouteGenerator.Generate | src/Generators/RouteGenerator.php:10-42 | a missing routes file or an existing registration fails with the source's message and writes nothing; otherwise only the routes file is rewritten, with the route appended |
| ControllerGenerator.StubName | src/Generators/ControllerGenerator.php:12-14 | the API stub exactly in API mode |
| ControllerGenerator.Positions | src/Generators/ControllerGenerator.php:326-340 | the positions of the filtered fields are each a field of the given types, in increasing order |
| ControllerGenerator.PositionsComplete | src/Generators/ControllerGenerator.php:326-340 | every field of the given types has its position listed |
| ControllerGenerator.Pluck | src/Generators/ControllerGenerator.php:326-340 | `pluck` re-indexes: entry k is the name of the k-th field of the given types |
| ControllerGenerator.PluckedNames | src/Generators/ControllerGenerator.php:326-340 | the plucked names are the names of exactly the fields of the given types; none exactly when no field has such a type; the first is the first such field |
| ControllerGenerator.FileFields | src/Generators/ControllerGenerator.php:326-332 | one name per file or image field, in field order: every entry is such a field and every such field is there |
| ControllerGenerator.WhereForFirstSearchable | src/Generators/ControllerGenerator.php:125-131 | the clause at index 0 of the re-indexed list, and only it, uses `where`; that clause is the first searchable field, wherever it stands; the list is empty exactly when no field is searchable |
| ControllerGenerator.SearchClosure | src/Generators/ControllerGenerator.php:125-133 | the search closure is omitted exactly when no field is searchable |
| ControllerGenerator.IndexSortsAndPages | src/Generators/ControllerGenerator.php:136-143 | the index sorts by the `sort` request value (default `id`) in the `direction` value (default `desc`) and pages by the configured size |
| ControllerGenerator.ReplaceIndexMethod | src/Generators/ControllerGenerator.php:112-154 | the building loop, walking the re-indexed searchable names, fills `{{indexMethod}}` with the specified index action |
| ControllerGenerator.HasManyOnlyEmptyCompact | src/Generators/ControllerGenerator.php:172-180 | as written, hasMany-only relationships make `create` render with `compact()` and no argument |
| ControllerGenerator.CreateCompact | src/Generators/ControllerGenerator.php:172-180 | corrected: the compact arguments exist exactly when there is a belongsTo relationship, are then never empty, and agree with the source whenever it takes that branch |
| ControllerGenerator.CreateTextOf | src/Generators/ControllerGenerator.php:156-188 | the create action is empty exactly in API mode |
| ControllerGenerator.CreateDiffersOnlyForHasMany | src/Generators/ControllerGenerator.php:156-188 | the create action as written differs from the corrected one exactly outside API mode when there are relationships but none is belongsTo |
| ControllerGenerator.ReplaceCreateMethod | src/Generators/ControllerGenerator.php:156-188 | the loops fill `{{createMethod}}` with the create action as written, taking the compact branch whenever any relationship exists |
| ControllerGenerator.EditCompactVars | src/Generators/ControllerGenerator.php:223-254 | edit's compact arguments are the model variable, then one per belongsTo target in order |
| ControllerGenerator.EditText | src/Generators/ControllerGenerator.php:223-254 | the edit action is empty exactly in API mode |
| ControllerGenerator.ReplaceEditMethod | src/Generators/ControllerGenerator.php:223-254 | the loops fill `{{editMethod}}` with the specified edit action |
| ControllerGenerator.AppendBlocks | src/Generators/ControllerGenerator.php:199-206 | the upload loop appends a comment and then one block per file field in field order, and nothing without file fields |
| ControllerGenerator.DestroyFiles | src/Generators/ControllerGenerator.php:298-315 | the file deletions of destroy are empty exactly when there are no file fields |
| ControllerGenerator.DestroyDeletesFilesFirst | src/Generators/ControllerGenerator.php:293-324 | destroy deletes the stored file of every file or image field, by name, before it deletes the record |
| ControllerGenerator.ReplaceStoreMethod | src/Generators/ControllerGenerator.php:190-221 | the loop fills `{{storeMethod}}` with the specified store action |
| ControllerGenerator.ReplaceUpdateMethod | src/Generators/ControllerGenerator.php:256-291 | the loop fills `{{updateMethod}}` with the specified update action, where each old file is deleted before the new one is stored |
| ControllerGenerator.ReplaceDestroyMethod | src/Generators/ControllerGenerator.php:293-324 | the loop fills `{{destroyMethod}}` with the specified destroy action |
| ControllerGenerator.ImportsNameGeneratedRequests | src/Generators/ControllerGenerator.php:64-73 | the controller imports exactly the two request classes the request generator writes, from the namespace it writes them to |
| ControllerGenerator.AuthMiddleware | src/Generators/ControllerGenerator.php:75-84 | the middleware constructor is empty exactly when auth is off |
| ControllerGenerator.ControllerPath | src/Generators/ControllerGenerator.php:342-348 | the controller lies under `app/Http/Controllers/` and is named after its class |
| ControllerGenerator.Generate | src/Generators/ControllerGenerator.php:10-42 | always succeeds, writing only the controller, with the index and create actions as written |
| ViewGenerator.ViewDirectoryHoldsViewPath | src/Generators/ViewGenerator.php:251-261 | the views are written where Laravel resolves the dotted view name the controller renders |
| ViewGenerator.TableHeaders | src/Generators/ViewGenerator.php:80-101 | the header row always ends with the actions header |
| ViewGenerator.Listed | src/Generators/ViewGenerator.php:80-125 | the listing shows only fields not of type text, file or image, keeping field order |
| ViewGenerator.KeepFollowsListed | src/Generators/ViewGenerator.php:80-125 | skipping unlisted fields while building a row gives the row of the listed fields alone |
| ViewGenerator.TableRowsAlign | src/Generators/ViewGenerator.php:80-125 | header row and record row are built over the same listed fields, so their columns align |
| ViewGenerator.ReplaceTableHeaders | src/Generators/ViewGenerator.php:80-101 | the loop fills `{{tableHeaders}}` with the specified header row |
| ViewGenerator.ReplaceTableColumns | src/Generators/ViewGenerator.php:103-125 | the loop fills `{{tableColumns}}` with the specified record row |
| ViewGenerator.SearchTitles | src/Generators/ViewGenerator.php:127-141 | one title per field the controller searches |
| ViewGenerator.SearchPlaceholder | src/Generators/ViewGenerator.php:127-141 | the generic placeholder exactly when no field is searchable; otherwise `Search by ...` |
| ViewGenerator.Required | src/Generators/ViewGenerator.php:162-221 | the required attribute is present exactly when the field is not nullable |
| ViewGenerator.PlainControlsIgnoreNullable | src/Generators/ViewGenerator.php:162-221 | checkbox and file controls do not depend on the nullable flag |
| ViewGenerator.TextControlsCarryRequired | src/Generators/ViewGenerator.php:162-221 | any other control of a required field is the eight characters of `required` longer than the nullable one |
| ViewGenerator.RequiredOnlyOnTextControls | src/Generators/ViewGenerator.php:162-221 | for the whole form group: checkbox and file groups are the same either way, and other groups differ by the eight characters of `required` |
| ViewGenerator.EditFileShowsStoredFile | src/Generators/ViewGenerator.php:162-221 | in edit mode a file control first shows the stored file, guarded by a test that there is one, above the create-mode input |
| ViewGenerator.FalsyVariableRendersCreateForm | src/Generators/ViewGenerator.php:162-221 | a falsy record variable renders the create-mode control |
| ViewGenerator.GenerateFormField | src/Generators/ViewGenerator.php:162-221 | the option loop gives the specified form group |
| ViewGenerator.OnlyBelongsToAddsSelects | src/Generators/ViewGenerator.php:143-160 | without belongsTo relationships the form holds the field groups only |
| ViewGenerator.AppendFieldGroups | src/Generators/ViewGenerator.php:148-150 | the first loop appends one group per field in field order |
| ViewGenerator.AppendRelationSelects | src/Generators/ViewGenerator.php:153-157 | the second loop appends one select per belongsTo target in order |
| ViewGenerator.ReplaceFormFields | src/Generators/ViewGenerator.php:143-160 | `{{formFields}}` receives the groups and then the selects; edit mode uses the record variable and create mode none |
| ViewGenerator.ShowHeadsEveryField | src/Generators/ViewGenerator.php:275-325 | the show view skips no field: every field's entry is headed by its label |
| ViewGenerator.ShowAgreesWithListing | src/Generators/ViewGenerator.php:275-325 | boolean and plain fields show the same value markup as their listing cell; date fields differ |
| ViewGenerator.ReplaceShowFields | src/Generators/ViewGenerator.php:275-325 | the loops fill `{{showFields}}` with an entry per field and then one per belongsTo target |
| ViewGenerator.ViewFile | src/Generators/ViewGenerator.php:26-59 | each view file lies in the view directory and is named `<view>.blade.php` |
| ViewGenerator.ViewFileOutsideStubs | src/Generators/ViewGenerator.php:26-59 | every view file lies under `resources/`, never among the stubs |
| ViewGenerator.ViewStubFrame | src/Generators/ViewGenerator.php:26-59 | writing a view file changes none of the view stubs |
| ViewGenerator.ApplyCommon | src/Generators/ViewGenerator.php:61-78 | the shared placeholders are filled in the order of the replacement array |
| ViewGenerator.GenerateIndexView | src/Generators/ViewGenerator.php:26-37 | writes only the index view |
| ViewGenerator.GenerateCreateView | src/Generators/ViewGenerator.php:39-48 | writes only the create view, with a form that has no record |
| ViewGenerator.GenerateEditView | src/Generators/ViewGenerator.php:50-59 | writes only the edit view, with a form filled from the record |
| ViewGenerator.GenerateShowView | src/Generators/ViewGenerator.php:264-273 | writes only the show view |
| ViewGenerator.Generate | src/Generators/ViewGenerator.php:10-24 | writes the index, create, edit and show views, each from the stubs as they were, and reports the view directory |
| TestGenerator.StubName | src/Generators/TestGenerator.php:11-17 | the Pest stub exactly when the dialect is `pest`; a missing dialect means PHPUnit |
| TestGenerator.FixtureValue | src/Generators/TestGenerator.php:51-90 | a field has a fixture value exactly when its type is covered, or it is an enum with values |
| TestGenerator.Entry | src/Generators/TestGenerator.php:51-90 | a payload entry exists exactly when a fixture value does, and maps the quoted name to it |
| TestGenerator.EntriesAppend | src/Generators/TestGenerator.php:51-90 | the payload keeps field order and skips fields without a fixture |
| TestGenerator.EmptyTestData | src/Generators/TestGenerator.php:51-90 | the payload is empty exactly when no field has a fixture |
| TestGenerator.GenerateTestData | src/Generators/TestGenerator.php:51-90 | the loop collects the specified payload |
| TestGenerator.TestPath | src/Generators/TestGenerator.php:92-96 | the test lies under `tests/Feature/` and is named after the model |
| TestGenerator.TestPathIgnoresNamespace | src/Generators/TestGenerator.php:92-96 | the test's file and class do not depend on the namespace |
| TestGenerator.Generate | src/Generators/TestGenerator.php:9-29 | always succeeds, writing only the test |
| JobGenerator.FirstEmail | src/Generators/JobGenerator.php:53-61 | none exactly when no field has type `email`; otherwise the name of the first such field |
| JobGenerator.FindEmailField | src/Generators/JobGenerator.php:53-61 | the loop returns at the first email field |
| JobGenerator.SendsGeneratedMailable | src/Generators/JobGenerator.php:14-18 | the job sends the very class the mailable generator writes |
| JobGenerator.FieldRecipient | src/Generators/JobGenerator.php:66-84 | with an email field the logic reads the recipient from it, builds and sends the mailable, and otherwise logs a warning naming the field |
| JobGenerator.AdminFallback | src/Generators/JobGenerator.php:85-94 | without one it sends the mailable to the configured administrator address |
| JobGenerator.LogImportedWhenUsed | src/Generators/JobGenerator.php:34-41 | the Log import follows the queue trait's import whenever the logic logs, and nothing is inserted otherwise |
| JobGenerator.JobAndMailNamespaces | src/Generators/JobGenerator.php:15-19 | with no configured base, the job and mail namespaces are the same; with a truthy namespace both are `\` and the namespace; with a falsy one neither exists (the call throws) |
| JobGenerator.JobPath | src/Generators/JobGenerator.php:43 | the job lies under `app/Jobs/` and is named after its class |
| JobGenerator.Generate | src/Generators/JobGenerator.php:10-48 | with a falsy namespace the namespace lookup throws and nothing is written; otherwise it succeeds, writing only the job |
| MailableGenerator.EmailViewNameShape | src/Generators/MailableGenerator.php:62-68 | the view name begins with `emails.` and ends with the snake-cased model |
| MailableGenerator.EmailViewFileMatchesName | src/Generators/MailableGenerator.php:43-68 | the email view is written where Laravel resolves the view name the mailable renders |
| MailableGenerator.MailablePath | src/Generators/MailableGenerator.php:37 | the mailable lies under `app/Mail/` and is named after its class |
| MailableGenerator.GenerateMailable | src/Generators/MailableGenerator.php:22-41 | with a falsy namespace the lookup throws and nothing is written; otherwise writes only the mailable and returns its path |
| MailableGenerator.GenerateEmailView | src/Generators/MailableGenerator.php:43-59 | writes only the email view and returns its path |
| MailableGenerator.Generate | src/Generators/MailableGenerator.php:10-20 | with a falsy namespace it throws before writing; otherwise it succeeds with both paths, writing the mailable and then the email view |
| MakeCrud.ModelNameParts | src/Commands/MakeCrudCommand.php:60-77 | the model is free of `/`; a name without `/` is the model with an empty namespace; otherwise the namespace is the leading pieces joined by `\` |
| MakeCrud.ModelNameRoundTrip | src/Commands/MakeCrudCommand.php:60-77 | when no piece holds a backslash, turning the namespace back into slashes and appending the model gives the name back |
| MakeCrud.Tagged | src/Commands/MakeCrudCommand.php:95-117 | one entry of the given kind per option value, in order |
| MakeCrud.BelongsToFromOptions | src/Commands/MakeCrudCommand.php:95-117 | the belongsTo targets every generator sees are exactly the `--belongsTo` values in order, whatever `--hasMany` holds |
| MakeCrud.Plan | src/Commands/MakeCrudCommand.php:119-155 | model, migration, requests, controller, then views exactly outside API mode, routes, and tests exactly with `--tests` or `--pest` |
| MakeCrud.TestType | src/Commands/MakeCrudCommand.php:233-246 | the dialect is `pest` exactly with `--pest` |
| MakeCrud.CompleteReports | src/Commands/MakeCrudCommand.php:119-155 | a complete run reports the planned steps in order, and only the routes step can fail |
| MakeCrud.GenerateModel | src/Commands/MakeCrudCommand.php:157-167 | reports exactly when the model stub is readable, and then writes only the model |
| MakeCrud.GenerateMigration | src/Commands/MakeCrudCommand.php:169-179 | succeeds, writing only the migration |
| MakeCrud.GenerateRequests | src/Commands/MakeCrudCommand.php:181-192 | succeeds, writing only the two requests |
| MakeCrud.GenerateController | src/Commands/MakeCrudCommand.php:194-204 | succeeds, writing only the controller |
| MakeCrud.GenerateViews | src/Commands/MakeCrudCommand.php:206-219 | succeeds, writing only the four views |
| MakeCrud.RegisterRoutes | src/Commands/MakeCrudCommand.php:221-231 | succeeds exactly when the routes file exists without the route, and changes nothing but the routes file |
| MakeCrud.GenerateTests | src/Commands/MakeCrudCommand.php:233-246 | succeeds, writing only the test |
| MakeCrud.RunBackend | src/Commands/MakeCrudCommand.php:131-141 | the first four steps complete exactly when the model stub is readable, and then write exactly their files |
| MakeCrud.RunFrontend | src/Commands/MakeCrudCommand.php:143-154 | the remaining steps write the views and the test when planned, and may rewrite the routes file |
| MakeCrud.MakeCrudCommand.ParseModelName | src/Commands/MakeCrudCommand.php:60-77 | sets model and namespace from the name argument and leaves the rest of the state alone |
| MakeCrud.MakeCrudCommand.ParseFields | src/Commands/MakeCrudCommand.php:79-93 | stops exactly when `--fields` is missing or falsy; otherwise the fields are what a fresh parser returns |
| MakeCrud.MakeCrudCommand.ParseRelationships | src/Commands/MakeCrudCommand.php:95-117 | appends all belongsTo entries, then all hasMany entries |
| MakeCrud.MakeCrudCommand.GenerateFiles | src/Commands/MakeCrudCommand.php:119-155 | a complete run follows the plan, creates every planned artifact and changes no file outside them and the routes file; an unreadable model stub ends it with nothing written |
| MakeCrud.MakeCrudCommand.Handle | src/Commands/MakeCrudCommand.php:36-58 | exits with 1 and writes nothing when `--fields` is falsy; otherwise parses, generates and succeeds exactly when the model stub is readable; never touches a file it does not generate |
| DeleteCrud.DeletionPathsMatch | src/Commands/DeleteCrudCommand.php:73-196 | the command looks for the model, controller, requests and test where the generators write them, and for the registered route path, but only in the web routes file |
| DeleteCrud.ClassPathsMatch | src/Commands/DeleteCrudCommand.php:73-99 | the model and controller paths are the generators' paths |
| DeleteCrud.RequestPathsMatch | src/Commands/DeleteCrudCommand.php:101-120 | the two request paths are the request generator's paths |
| DeleteCrud.ViewsDirMatches | src/Commands/DeleteCrudCommand.php:122-134 | the views directory is the generator's directory, up to a doubled `/`, except for the namespace `0`, where the two differ |
| DeleteCrud.ViewFileInside | src/Commands/DeleteCrudCommand.php:122-134 | every view file lies inside the views directory |
| DeleteCrud.MigrationFiles | src/Commands/DeleteCrudCommand.php:138-139 | every listed migration is a stored file |
| DeleteCrud.MigrationFilesShape | src/Commands/DeleteCrudCommand.php:138-139 | the glob lists exactly the stored files `database/migrations/<stem>_create_<table>_table.php` whose stem has no `/` and does not begin with `.` |
| DeleteCrud.GeneratedMigrationMatches | src/Commands/DeleteCrudCommand.php:138-139 | the migration make:crud writes is found by the glob, whatever its timestamp |
| DeleteCrud.StripFrom | src/Commands/DeleteCrudCommand.php:166-173 | removing matches never lengthens the text |
| DeleteCrud.StripChanges | src/Commands/DeleteCrudCommand.php:166-173 | replacing changes the text exactly when the pattern matches, and then shortens it |
| DeleteCrud.PassesChange | src/Commands/DeleteCrudCommand.php:165-176 | the update flag is raised exactly when the text shrinks; otherwise the text is unchanged |
| DeleteCrud.RemovesResourceLine | src/Commands/DeleteCrudCommand.php:165-176 | a `Route::resource` line for the route path, with plain arguments, is removed whole |
| DeleteCrud.RemovesRegisteredRoute | src/Commands/DeleteCrudCommand.php:154-185 | the registration make:crud writes in web mode without soft deletes or auth is removed whole, and an update is reported |
| DeleteCrud.StripRoutes | src/Commands/DeleteCrudCommand.php:170-176 | the pattern loop computes the specified result and update flag |
| DeleteCrud.GeneratedFilesGone | src/Commands/DeleteCrudCommand.php:18-57 | after the command, none of the artifacts make:crud wrote for the same name is left (the migration only if deletion was confirmed) |
| DeleteCrud.DeleteCrudCommand.ParseModelName | src/Commands/DeleteCrudCommand.php:59-71 | the same split as make:crud's |
| DeleteCrud.DeleteCrudCommand.Remove | src/Commands/DeleteCrudCommand.php:77-83 | an existing path is deleted and recorded once; a missing one changes nothing; either way it is gone |
| DeleteCrud.DeleteCrudCommand.DeleteModel | src/Commands/DeleteCrudCommand.php:73-85 | the model file is gone, deleted and recorded only if it existed |
| DeleteCrud.DeleteCrudCommand.DeleteController | src/Commands/DeleteCrudCommand.php:87-99 | the controller file is gone, deleted and recorded only if it existed |
| DeleteCrud.DeleteCrudCommand.DeleteRequests | src/Commands/DeleteCrudCommand.php:101-120 | both requests are gone; only their paths are recorded, the store request exactly when it existed; something is recorded exactly when either existed, and otherwise nothing changes |
| DeleteCrud.DeleteCrudCommand.DeleteViews | src/Commands/DeleteCrudCommand.php:122-134 | no file is left below the views directory; it is recorded only if it existed |
| DeleteCrud.DeleteCrudCommand.DeleteMigration | src/Commands/DeleteCrudCommand.php:136-152 | with matches and `--force` or a yes, every match is deleted and recorded, one path each; otherwise nothing changes |
| DeleteCrud.DeleteCrudCommand.RemoveEach | src/Commands/DeleteCrudCommand.php:143-147 | exactly the given files are deleted and each is recorded once |
| DeleteCrud.DeleteCrudCommand.RemoveRoutes | src/Commands/DeleteCrudCommand.php:154-185 | the web routes file is rewritten exactly when a pattern matched; nothing else changes |
| DeleteCrud.DeleteCrudCommand.DeleteTests | src/Commands/DeleteCrudCommand.php:187-196 | the test file is gone, deleted and recorded only if it existed |
| DeleteCrud.DeleteCrudCommand.Handle | src/Commands/DeleteCrudCommand.php:18-57 | a no to the first question deletes nothing; otherwise all generated classes, views and the test are gone (and the migrations when confirmed), only the routes file may be rewritten, a path is recorded exactly when some artifact was found, and the summary reports deletions exactly then |
| DeleteCrud.DeleteCrudCommand.DeleteClasses | src/Commands/DeleteCrudCommand.php:32-39 | the model, controller and both requests are gone; a path is recorded exactly when one of them was there, and otherwise nothing changes |
| DeleteCrud.DeleteCrudCommand.DeleteBackend | src/Commands/DeleteCrudCommand.php:32-45 | the classes, the views and the confirmed migrations are gone; a path is recorded exactly when one of them was there, and otherwise nothing changes |
| DeleteCrud.DeleteCrudCommand.RemoveRoutesAndTests | src/Commands/DeleteCrudCommand.php:47-51 | the test is gone, a path is recorded exactly when it was there, and apart from that only the routes file is rewritten |

## Left out

- Console output is left out: `info`, `warn`, `error`, the summary tables and emoji. `make:crud`'s `displaySummary` only prints. `crud:delete`'s summary keeps the count of deleted paths.
- `exit(1)` in `parseFields` is the status `ExitedOne`. An exception from the model stub is the status `Threw`.
- `ensureDirectoryExists` and directories themselves are left out. A directory exists when a file lies below it, so empty directories are not represented. A directory standing at the routes file path is treated like a missing file.
- The English inflection rules of `Str` are not modelled; see the `Inflector` above.
- Timestamps, the configured view template and console answers are parameters. The storage path and page size appear only as the config calls in the generated text.
- The job and mailable generators are modelled, but `make:crud` never calls them. The configuration has no `job` or `mail` namespace, so they read as null (`Laravel.ConfiguredNamespace`). With a falsy namespace `getFullNamespace` then returns null through its `string` return type, which throws a `TypeError`; the model writes nothing and returns no outcome (`None`), as it does for the model stub's exception. The exception's message is not modelled.
- `DeleteCrud.DeleteCrudCommand.DeleteMigration` does not capture the order of the recorded migration paths. `glob` sorts them; the model records them in some order.
- `DeleteCrud.MigrationFiles` reads the table name literally. Glob metacharacters inside a table name are not interpreted, and a directory whose name matches the glob is not listed.
- Stored file keys are normal paths: the model assumes the file system collapses repeated `/`.
- `crud:delete` never removes the soft-delete routes or the auth group's wrapper lines, and never edits `routes/api.php`. The model keeps this behaviour, and `DeleteCrud.DeletionPathsMatch` states the API part.
- `DeleteCrud.ViewsDirMatches`: for the namespace `0` the deleter looks in another directory than the one written to. This is proved as stated, not corrected.
- `DeleteCrud.GeneratedFilesGone` assumes a namespace other than `0`, a table name without `/`, and a timestamp that has no `/` and does not begin with `.`.
- `DeleteCrud.RemovesRegisteredRoute` covers only the plain web registration. With soft deletes or auth, the source's own patterns leave the remaining lines behind.
- `CrudGeneratorServiceProvider` and the Blade stubs are not part of this model. The stubs are file contents read from the disk.

## Findings

| source | as written | input that shows it | evidently intended | confidence | as-written member | corrected member |
|---|---|---|---|---|---|---|
| src/Generators/RequestGenerator.php:70 | every rule list is put between single quotes | a unique field in the update request: its rule ends in `{$this->route('id')}`, whose quotes close the literal early | a rule literal that stays whole, with the route id interpolated | not executed | RequestGenerator.UpdateLineBreaksLiteral | RequestGenerator.RuleLineQuoted |
| src/Generators/ControllerGenerator.php:172-180 | the compact branch is taken whenever any relationship exists | `--hasMany=Comment` without `--belongsTo`: `create` renders with `compact()` and no argument | compact only when there is a belongsTo variable to pass | not executed | ControllerGenerator.HasManyOnlyEmptyCompact | ControllerGenerator.CreateCompact |

The generators write the text as the source writes it (`RequestGenerator.RuleLines`,
`ControllerGenerator.CreateTextAsWritten`), so the files on disk are the
source's files. The corrected definitions stand beside them as reference
definitions: `RequestGenerator.CorrectedRuleLines` and
`ControllerGenerator.CreateText`. `RequestGenerator.RuleLinesAgree` and
`ControllerGenerator.CreateDiffersOnlyForHasMany` state exactly where the
written text and the corrected text differ.
