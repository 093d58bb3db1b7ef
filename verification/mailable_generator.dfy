/**
 * The mailable generator: the "record created" mailable class and the
 * email view it renders.
 */
module MailableGenerator {
  import opened Wrappers
  import opened PhpStrings
  import opened Template
  import opened Laravel
  import opened FileSystem
  import opened BaseGenerator

  /** The mailable's class: `<Model>CreatedMailable`. */
  function ClassName(g: Generator): string
  {
    g.options.modelName + "CreatedMailable"
  }

  /** The import line of the model class. */
  function ModelImport(g: Generator): string
  {
    "use " + g.FullNamespace(ModelKind).value + "\\" + g.options.modelName + ";"
  }

  /**
   * `getEmailViewPath`: `emails.` and the snake-cased model name, singular,
   * with the lower-cased, slash-separated namespace and a `.` in between
   * when the namespace is non-empty.
   */
  function EmailViewName(g: Generator): string
  {
    var viewName := g.str.snake(g.options.modelName);
    var path := if Truthy(g.NamespacePrefix()) then g.NamespacePrefix() + "." + viewName else viewName;
    "emails." + path
  }

  /** The email view's file: the same components under `resources/views/`, joined by `/`. */
  function EmailViewFile(g: Generator): string
  {
    var viewName := g.str.snake(g.options.modelName);
    var path := if Truthy(g.NamespacePrefix()) then g.NamespacePrefix() + "/" + viewName else viewName;
    ResourcePath("views/emails/" + path + ".blade.php")
  }

  /** The view name begins with `emails.` and ends with the snake-cased model name. */
  lemma EmailViewNameShape(g: Generator)
    ensures StartsWith(EmailViewName(g), "emails.") && EndsWith(EmailViewName(g), g.str.snake(g.options.modelName))
  {
    var viewName := g.str.snake(g.options.modelName);
    var prefix := g.NamespacePrefix();
    var dotted := if Truthy(prefix) then prefix + "." + viewName else viewName;
    StartsWithAppend("emails.", dotted);
    if Truthy(prefix) {
      assert EmailViewName(g) == ("emails." + prefix + ".") + viewName;
      EndsWithAppend("emails." + prefix + ".", viewName);
    } else {
      EndsWithAppend("emails.", viewName);
    }
  }

  /** The view file's components, `/`-separated, against the view name's, `.`-separated. */
  lemma SeparatedAlike(prefix: string, viewName: string)
    ensures var slashed := "emails/" + (if Truthy(prefix) then prefix + "/" + viewName else viewName);
      var dotted := "emails." + (if Truthy(prefix) then prefix + "." + viewName else viewName);
      && |slashed| == |dotted|
      && forall i :: 0 <= i < |dotted| ==>
           slashed[i] == (if i == 6 || (Truthy(prefix) && i == 7 + |prefix|) then '/' else dotted[i])
  {
  }

  /** A text placed between a root and an extension keeps its characters, shifted by the root's length. */
  lemma Enclosed(root: string, middle: string, ext: string)
    ensures StartsWith(root + middle + ext, root) && EndsWith(root + middle + ext, ext)
    ensures |root + middle + ext| == |root| + |middle| + |ext|
    ensures forall i :: 0 <= i < |middle| ==> (root + middle + ext)[|root| + i] == middle[i]
  {
    StartsWithAppend(root, middle + ext);
    assert root + middle + ext == root + (middle + ext);
    EndsWithAppend(root + middle, ext);
  }

  /**
   * The email view is written where Laravel resolves the view name the
   * mailable renders: the name under `resources/views/`, with each `.`
   * separator it added read as a `/`, and the Blade extension.
   */
  lemma EmailViewFileMatchesName(g: Generator)
    ensures var name := EmailViewName(g);
      var file := EmailViewFile(g);
      var root := "resources/views/";
      var separator := |"emails."| + |g.NamespacePrefix()|;
      && StartsWith(file, root) && EndsWith(file, ".blade.php")
      && |file| == |root| + |name| + |".blade.php"|
      && (forall i :: 0 <= i < |name| ==>
            file[|root| + i] == (if i == 6 || (Truthy(g.NamespacePrefix()) && i == separator) then '/' else name[i]))
  {
    var viewName := g.str.snake(g.options.modelName);
    var prefix := g.NamespacePrefix();
    var slashed := if Truthy(prefix) then prefix + "/" + viewName else viewName;
    var middle := "emails/" + slashed;
    assert EmailViewFile(g) == "resources/views/" + middle + ".blade.php";
    assert EmailViewName(g) == "emails." + (if Truthy(prefix) then prefix + "." + viewName else viewName);
    Enclosed("resources/views/", middle, ".blade.php");
    SeparatedAlike(prefix, viewName);
  }

  /**
   * `generateMailable`'s substitutions, in order; only reached when the
   * namespace is non-empty, since otherwise `getFullNamespace('mail')` throws.
   */
  function MailableText(g: Generator, files: map<string, string>): string
    requires Truthy(g.options.namespace)
  {
    var s := Stub(files, "mailable");
    var s := ReplaceAll(s, "{{namespace}}", g.FullNamespace(MailKind).value);
    var s := ReplaceAll(s, "{{class}}", ClassName(g));
    var s := ReplaceAll(s, "{{modelImport}}", ModelImport(g));
    var s := ReplaceAll(s, "{{modelName}}", g.options.modelName);
    var s := ReplaceAll(s, "{{modelVariable}}", g.ModelVariable());
    ReplaceAll(s, "{{viewPath}}", EmailViewName(g))
  }

  /** The mailable's file: `app/Mail/<namespace path>/<class>.php`. */
  function MailablePath(g: Generator): (r: string)
    ensures StartsWith(r, AppPath("Mail/")) && EndsWith(r, "/" + ClassName(g) + ".php")
  {
    PathShape("app/", "Mail/", g.NamespacePath(), "/" + ClassName(g) + ".php");
    AppPath("Mail/" + g.NamespacePath() + ("/" + ClassName(g) + ".php"))
  }

  /** `generateEmailView`'s substitutions, in order. */
  function EmailViewText(g: Generator, files: map<string, string>): string
  {
    var s := Stub(files, "views/mail/email");
    var s := ReplaceAll(s, "{{modelName}}", g.options.modelName);
    var s := ReplaceAll(s, "{{modelVariable}}", g.ModelVariable());
    ReplaceAll(s, "{{routePath}}", g.RoutePath())
  }

  /**
   * `generateMailable`: without a namespace, asking for the mail namespace
   * throws before the file is written (None); otherwise it writes the
   * mailable and gives its path.
   */
  method GenerateMailable(g: Generator, disk: Disk) returns (path: Option<string>)
    modifies disk
    ensures !Truthy(g.options.namespace) ==> path.None? && disk.files == old(disk.files)
    ensures Truthy(g.options.namespace) ==>
      path == Some(MailablePath(g))
      && disk.files == old(disk.files)[Normalize(MailablePath(g)) := MailableText(g, old(disk.files))]
  {
    var stub := Stub(disk.files, "mailable");
    var mailableNamespace := g.FullNamespace(MailKind);
    if mailableNamespace.None? {
      return None;
    }
    stub := ReplaceAll(stub, "{{namespace}}", mailableNamespace.value);
    stub := ReplaceAll(stub, "{{class}}", ClassName(g));
    stub := ReplaceAll(stub, "{{modelImport}}", ModelImport(g));
    stub := ReplaceAll(stub, "{{modelName}}", g.options.modelName);
    stub := ReplaceAll(stub, "{{modelVariable}}", g.ModelVariable());
    stub := ReplaceAll(stub, "{{viewPath}}", EmailViewName(g));
    disk.Put(MailablePath(g), stub);
    path := Some(MailablePath(g));
  }

  /** `generateEmailView`: writes the email view and gives its path. */
  method GenerateEmailView(g: Generator, disk: Disk) returns (path: string)
    modifies disk
    ensures path == EmailViewFile(g)
    ensures disk.files == old(disk.files)[Normalize(EmailViewFile(g)) := EmailViewText(g, old(disk.files))]
  {
    var stub := Stub(disk.files, "views/mail/email");
    stub := ReplaceAll(stub, "{{modelName}}", g.options.modelName);
    stub := ReplaceAll(stub, "{{modelVariable}}", g.ModelVariable());
    stub := ReplaceAll(stub, "{{routePath}}", g.RoutePath());
    path := EmailViewFile(g);
    disk.Put(path, stub);
  }

  /**
   * `generate`: without a namespace the mailable step throws and nothing
   * is written (None); otherwise it succeeds with both paths, the view
   * built from the stubs as they were.
   */
  method Generate(g: Generator, disk: Disk) returns (o: Option<Outcome>)
    modifies disk
    ensures !Truthy(g.options.namespace) ==> o.None? && disk.files == old(disk.files)
    ensures Truthy(g.options.namespace) ==>
      o == Some(Success([MailablePath(g), EmailViewFile(g)]))
      && var before := old(disk.files);
         disk.files == before[Normalize(MailablePath(g)) := MailableText(g, before)]
                             [Normalize(EmailViewFile(g)) := EmailViewText(g, before)]
  {
    ghost var before := disk.files;
    var mailablePath := GenerateMailable(g, disk);
    if mailablePath.None? {
      return None;
    }
    StubFrame(before, MailablePath(g), MailableText(g, before), "views/mail/email");
    var viewPath := GenerateEmailView(g, disk);
    o := Some(Success([mailablePath.value, viewPath]));
  }
}
