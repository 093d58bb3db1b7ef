/**
 * The framework services the generators call but whose code is not part
 * of this model: the `Str` inflection helpers, the package configuration
 * and the application path helpers.
 */
module Laravel {
  import opened Wrappers

  /**
   * `Str::plural`, `Str::snake`, `Str::camel`, `Str::studly` and
   * `Str::title`, taken as arbitrary total functions: nothing below
   * depends on how English words are inflected.
   */
  datatype Inflector = Inflector(
    plural: string -> string,
    snake: string -> string,
    camel: string -> string,
    studly: string -> string,
    title: string -> string)

  /** The artifact kinds `getFullNamespace` is asked about. */
  datatype NamespaceKind = ModelKind | ControllerKind | RequestKind | JobKind | MailKind

  /**
   * `config("crud-generator.namespace.<kind>")`: the package configuration
   * defines the model, controller and request bases only; the job and
   * mail keys are absent and read as null.
   */
  function ConfiguredNamespace(kind: NamespaceKind): (r: Option<string>)
    ensures r.None? <==> kind == JobKind || kind == MailKind
  {
    match kind
    case ModelKind => Some("App\\Models")
    case ControllerKind => Some("App\\Http\\Controllers")
    case RequestKind => Some("App\\Http\\Requests")
    case JobKind => None
    case MailKind => None
  }

  /** `app_path($p)`, relative to the application root. */
  function AppPath(p: string): string { "app/" + p }

  /** `base_path($p)`: the application root itself. */
  function BasePath(p: string): string { p }

  /** `resource_path($p)`. */
  function ResourcePath(p: string): string { "resources/" + p }

  /** `database_path($p)`. */
  function DatabasePath(p: string): string { "database/" + p }

  /** The directory the package itself is installed in (its built-in stubs live below it). */
  const PackageDir: string := "vendor/sndpbag/crud-generator/"
}
