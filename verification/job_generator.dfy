/**
 * The job generator: a queued job that mails the "record created"
 * mailable, to the record's first email field when it has one and to the
 * configured administrator address otherwise.
 */
module JobGenerator {
  import opened Wrappers
  import opened PhpStrings
  import opened Template
  import opened Laravel
  import opened FieldParser
  import opened FileSystem
  import opened BaseGenerator
  import MailableGenerator

  /**
   * The name of the first field whose type is exactly `email`, or None
   * when no field has that type.
   */
  function FirstEmail(fields: seq<Field>): (r: Option<string>)
    ensures r.None? <==> forall i :: 0 <= i < |fields| ==> fields[i].fieldType != "email"
    ensures r.Some? ==>
      exists i :: 0 <= i < |fields| && fields[i].fieldType == "email" && fields[i].name == r.value
        && forall j :: 0 <= j < i ==> fields[j].fieldType != "email"
    decreases |fields|
  {
    if |fields| == 0 then None
    else if fields[0].fieldType == "email" then Some(fields[0].name)
    else
      var r := FirstEmail(fields[1..]);
      assert forall i :: 1 <= i < |fields| ==> fields[i] == fields[1..][i - 1];
      r
  }

  /** `findEmailField`: the loop over the fields, returning at the first email field. */
  method FindEmailField(g: Generator) returns (r: Option<string>)
    ensures r == FirstEmail(g.options.fields)
  {
    var fields := g.options.fields;
    for i := 0 to |fields|
      invariant FirstEmail(fields) == FirstEmail(fields[i..])
    {
      assert fields[i..][1..] == fields[i + 1..];
      if fields[i].fieldType == "email" {
        return Some(fields[i].name);
      }
    }
    assert fields[|fields|..] == [];
    return None;
  }

  /** The job's class: `Send<Model>CreatedEmailJob`. */
  function ClassName(g: Generator): string
  {
    "Send" + g.options.modelName + "CreatedEmailJob"
  }

  /** The class of the mailable the job sends. */
  function MailableName(g: Generator): string
  {
    g.options.modelName + "CreatedMailable"
  }

  /** The job sends the very class the mailable generator writes. */
  lemma SendsGeneratedMailable(g: Generator)
    ensures MailableName(g) == MailableGenerator.ClassName(g)
    ensures ClassName(g) == "Send" + MailableGenerator.ClassName(g)[..|g.options.modelName|] + "CreatedEmailJob"
  {
  }

  /** The statement that builds the mailable from the job's record. */
  function NewMailable(mailable: string, variable: string): string
  {
    "$mailable = new " + mailable + "($this->" + variable + ");"
  }

  /** The statement that sends the built mailable to the recipient. */
  const SendMail: string := "Mail::to($recipientEmail)->send($mailable);"

  /** The statement that reads the recipient address from the record's email field. */
  function ReadRecipient(variable: string, email: string): string
  {
    "$recipientEmail = $this->" + variable + "->" + email + ";"
  }

  /** The fallback recipient: the configured administrator address, with its default. */
  const AdminRecipient: string := "config('crud-generator.admin_email', 'admin@example.com')"

  /** The warning logged instead of sending when the record's email field is empty. */
  function Warning(email: string, model: string, variable: string): string
  {
    "Log::warning(\"Email field '" + email + "' is empty for " + model + " ID: {$this->" + variable + "}->id.\");"
  }

  /** The indentation of the handle() body, kept by the heredoc. */
  const Indent: string := "            "

  /** The lines of the logic when the record has an email field. */
  function FieldRecipientLines(email: string, model: string, variable: string, mailable: string): (r: seq<string>)
    ensures |r| == 9
  {
    [ Indent + "// ডায়নামিকভাবে মডেলের '" + email + "' ফিল্ড থেকে ইমেল নেওয়া হচ্ছে",
      Indent + ReadRecipient(variable, email),
      Indent,
      Indent + "if ($recipientEmail) {",
      Indent + "    " + NewMailable(mailable, variable),
      Indent + "    " + SendMail,
      Indent + "} else {",
      Indent + "    " + Warning(email, model, variable),
      Indent + "}" ]
  }

  /** The lines of the logic when it has none. */
  function AdminRecipientLines(variable: string, mailable: string): (r: seq<string>)
    ensures |r| == 5
  {
    [ Indent + "// কোনো ইমেল ফিল্ড পাওয়া যায়নি, অ্যাডমিন ইমেলে পাঠানো হচ্ছে",
      Indent + "$recipientEmail = " + AdminRecipient + ";",
      Indent,
      Indent + NewMailable(mailable, variable),
      Indent + SendMail ]
  }

  /**
   * `generateRecipientLogic`, given what `findEmailField` found: the
   * field branch when the name is non-empty in PHP's sense, the
   * administrator branch otherwise; the heredoc's last line break is not
   * part of the text.
   */
  function RecipientLogic(g: Generator, email: Option<string>): string
  {
    var variable := g.ModelVariable();
    var mailable := MailableName(g);
    if email.Some? && Truthy(email.value)
    then Join(FieldRecipientLines(email.value, g.options.modelName, variable, mailable), "\n")
    else Join(AdminRecipientLines(variable, mailable), "\n")
  }

  /** A statement on a line of its own, after the indentation, occurs in the line. */
  lemma StatementInLine(indent: string, statement: string)
    ensures Contains(indent + statement, statement)
  {
    ContainsAt(indent, statement, "");
    assert indent + statement + "" == indent + statement;
  }

  /**
   * With an email field, the logic reads the recipient from that field
   * of the record, builds the mailable from the record and sends it, and
   * otherwise logs a warning naming the field.
   */
  lemma FieldRecipient(g: Generator)
    requires FirstEmail(g.options.fields).Some? && Truthy(FirstEmail(g.options.fields).value)
    ensures var logic := RecipientLogic(g, FirstEmail(g.options.fields));
      var email := FirstEmail(g.options.fields).value;
      && Contains(logic, ReadRecipient(g.ModelVariable(), email))
      && Contains(logic, NewMailable(MailableName(g), g.ModelVariable()))
      && Contains(logic, SendMail)
      && Contains(logic, Warning(email, g.options.modelName, g.ModelVariable()))
  {
    var email := FirstEmail(g.options.fields).value;
    var variable := g.ModelVariable();
    var lines := FieldRecipientLines(email, g.options.modelName, variable, MailableName(g));
    StatementInLine(Indent, ReadRecipient(variable, email));
    ContainsJoin(lines, "\n", 1, ReadRecipient(variable, email));
    StatementInLine(Indent + "    ", NewMailable(MailableName(g), variable));
    ContainsJoin(lines, "\n", 4, NewMailable(MailableName(g), variable));
    StatementInLine(Indent + "    ", SendMail);
    ContainsJoin(lines, "\n", 5, SendMail);
    StatementInLine(Indent + "    ", Warning(email, g.options.modelName, variable));
    ContainsJoin(lines, "\n", 7, Warning(email, g.options.modelName, variable));
  }

  /**
   * Without one (or when its name is empty in PHP's sense), the logic
   * sends the mailable built from the record to the configured
   * administrator address.
   */
  lemma AdminFallback(g: Generator)
    requires FirstEmail(g.options.fields).None? || !Truthy(FirstEmail(g.options.fields).value)
    ensures var logic := RecipientLogic(g, FirstEmail(g.options.fields));
      && Contains(logic, "$recipientEmail = " + AdminRecipient + ";")
      && Contains(logic, NewMailable(MailableName(g), g.ModelVariable()))
      && Contains(logic, SendMail)
  {
    var variable := g.ModelVariable();
    var lines := AdminRecipientLines(variable, MailableName(g));
    StatementInLine(Indent, "$recipientEmail = " + AdminRecipient + ";");
    assert lines[1] == Indent + ("$recipientEmail = " + AdminRecipient + ";");
    ContainsJoin(lines, "\n", 1, "$recipientEmail = " + AdminRecipient + ";");
    StatementInLine(Indent, NewMailable(MailableName(g), variable));
    ContainsJoin(lines, "\n", 3, NewMailable(MailableName(g), variable));
    StatementInLine(Indent, SendMail);
    ContainsJoin(lines, "\n", 4, SendMail);
  }

  /** The use-line of the queue trait, after which the `Log` import goes. */
  const SerializesUse: string := "use Illuminate\\Queue\\SerializesModels;"

  /** The `Log` facade's import line. */
  const LogUse: string := "use Illuminate\\Support\\Facades\\Log;"

  /** The namespace the job is declared in; None when `getFullNamespace` throws. */
  function JobNamespace(g: Generator): Option<string>
  {
    g.FullNamespace(JobKind)
  }

  /**
   * The stub with the eight tokens replaced, in order, before any `Log`
   * import; only reached when the namespace is non-empty, since otherwise
   * `getFullNamespace('job')` throws first.
   */
  function SubstitutedText(g: Generator, files: map<string, string>): string
    requires Truthy(g.options.namespace)
  {
    var s := Stub(files, "job");
    var s := ReplaceAll(s, "{{namespace}}", JobNamespace(g).value);
    var s := ReplaceAll(s, "{{class}}", ClassName(g));
    var s := ReplaceAll(s, "{{modelImport}}", "use " + g.FullNamespace(ModelKind).value + "\\" + g.options.modelName + ";");
    var s := ReplaceAll(s, "{{mailableImport}}", "use " + g.FullNamespace(MailKind).value + "\\" + MailableName(g) + ";");
    var s := ReplaceAll(s, "{{mailableName}}", MailableName(g));
    var s := ReplaceAll(s, "{{modelName}}", g.options.modelName);
    var s := ReplaceAll(s, "{{modelVariable}}", g.ModelVariable());
    ReplaceAll(s, "{{recipientLogic}}", RecipientLogic(g, FirstEmail(g.options.fields)))
  }

  /** Whether the `Log` import is added: exactly when the field branch of the logic is taken. */
  predicate UsesLog(g: Generator)
  {
    var email := FirstEmail(g.options.fields);
    email.Some? && Truthy(email.value)
  }

  /** The job's text: the substituted stub, with the `Log` import put after the queue trait's use-line when the logic logs. */
  function JobText(g: Generator, files: map<string, string>): string
    requires Truthy(g.options.namespace)
  {
    var s := SubstitutedText(g, files);
    if UsesLog(g) then ReplaceAll(s, SerializesUse, SerializesUse + "\n" + LogUse) else s
  }

  /**
   * The `Log` import is there whenever the logic logs and the stub has
   * the queue trait's use-line; without an email field the text is the
   * substituted stub, with nothing inserted.
   */
  lemma LogImportedWhenUsed(g: Generator, files: map<string, string>)
    requires Truthy(g.options.namespace)
    ensures UsesLog(g) && Contains(SubstitutedText(g, files), SerializesUse) ==>
      Contains(JobText(g, files), SerializesUse + "\n" + LogUse)
      && Contains(JobText(g, files), LogUse)
    ensures !UsesLog(g) ==> JobText(g, files) == SubstitutedText(g, files)
  {
    var s := SubstitutedText(g, files);
    if UsesLog(g) && Contains(s, SerializesUse) {
      ReplacePresent(s, SerializesUse, SerializesUse + "\n" + LogUse);
      ContainsTail(JobText(g, files), SerializesUse + "\n", LogUse);
    }
  }

  /**
   * Neither the job nor the mailable namespace has a configured base, so
   * both are the model's own namespace behind a lone `\`, and without a
   * namespace neither exists: asking for it throws.
   */
  lemma JobAndMailNamespaces(g: Generator)
    ensures JobNamespace(g) == g.FullNamespace(MailKind)
    ensures Truthy(g.options.namespace) ==> JobNamespace(g) == Some("\\" + g.options.namespace)
    ensures !Truthy(g.options.namespace) <==> JobNamespace(g).None?
  {
    var ns := g.options.namespace;
    if Truthy(ns) {
      var r := JobNamespace(g).value;
      assert r[|r| - |"\\" + ns|..] == "\\" + ns;
      assert r[|r| - |"\\" + ns|..] == r;
    }
  }

  /** The job's file: `app/Jobs/<namespace path>/<class>.php`. */
  function JobPath(g: Generator): (r: string)
    ensures StartsWith(r, AppPath("Jobs/")) && EndsWith(r, "/" + ClassName(g) + ".php")
  {
    PathShape("app/", "Jobs/", g.NamespacePath(), "/" + ClassName(g) + ".php");
    AppPath("Jobs/" + g.NamespacePath() + ("/" + ClassName(g) + ".php"))
  }

  /**
   * `generate`: without a namespace, asking for the job's namespace throws
   * before anything is written (None); otherwise it succeeds, writing the
   * job and nothing else.
   */
  method Generate(g: Generator, disk: Disk) returns (o: Option<Outcome>)
    modifies disk
    ensures !Truthy(g.options.namespace) ==> o.None? && disk.files == old(disk.files)
    ensures Truthy(g.options.namespace) ==>
      o == Some(Success([JobPath(g)]))
      && disk.files == old(disk.files)[Normalize(JobPath(g)) := JobText(g, old(disk.files))]
  {
    ghost var before := disk.files;
    var stub := Stub(disk.files, "job");
    var jobNamespace := JobNamespace(g);
    if jobNamespace.None? {
      return None;
    }
    var mailableNamespace := g.FullNamespace(MailKind);
    var logicEmail := FindEmailField(g);
    var recipientLogic := RecipientLogic(g, logicEmail);
    var emailFieldFound := FindEmailField(g);
    stub := ReplaceAll(stub, "{{namespace}}", jobNamespace.value);
    stub := ReplaceAll(stub, "{{class}}", ClassName(g));
    stub := ReplaceAll(stub, "{{modelImport}}", "use " + g.FullNamespace(ModelKind).value + "\\" + g.options.modelName + ";");
    stub := ReplaceAll(stub, "{{mailableImport}}", "use " + mailableNamespace.value + "\\" + MailableName(g) + ";");
    stub := ReplaceAll(stub, "{{mailableName}}", MailableName(g));
    stub := ReplaceAll(stub, "{{modelName}}", g.options.modelName);
    stub := ReplaceAll(stub, "{{modelVariable}}", g.ModelVariable());
    stub := ReplaceAll(stub, "{{recipientLogic}}", recipientLogic);
    assert stub == SubstitutedText(g, before);
    if emailFieldFound.Some? && Truthy(emailFieldFound.value) {
      stub := ReplaceAll(stub, SerializesUse, SerializesUse + "\n" + LogUse);
    }
    var path := JobPath(g);
    disk.Put(path, stub);
    o := Some(Success([path]));
  }
}
