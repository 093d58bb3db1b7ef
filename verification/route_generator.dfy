/**
 * The route generator: one resource registration (with the soft-delete
 * routes and the auth group in web mode) appended to the routes file,
 * unless the file already holds that exact text.
 */
module RouteGenerator {
  import opened Wrappers
  import opened PhpStrings
  import opened Laravel
  import opened FileSystem
  import opened BaseGenerator

  /** The routes file the registration goes to: `api` in API mode, `web` otherwise. */
  function RouteFileName(g: Generator): (r: string)
    ensures r == "api" <==> g.options.api
  {
    if g.options.api then "api" else "web"
  }

  /** `base_path("routes/<file>.php")`. */
  function RouteFilePath(g: Generator): (r: string)
    ensures g.options.api ==> r == "routes/api.php"
    ensures !g.options.api ==> r == "routes/web.php"
  {
    BasePath("routes/" + RouteFileName(g) + ".php")
  }

  /** The controller class reference: `\<controller namespace>\<Model>Controller::class`. */
  function ControllerRef(g: Generator): string
  {
    "\\" + g.FullNamespace(ControllerKind).value + "\\" + g.options.modelName + "Controller" + "::class"
  }

  /** The registration method: `apiResource` exactly in API mode, `resource` otherwise. */
  function Verb(g: Generator): (r: string)
    ensures r == "apiResource" <==> g.options.api
    ensures r == "resource" <==> !g.options.api
  {
    if g.options.api then "apiResource" else "resource"
  }

  /** The resource registration of the route path to the controller. */
  function ResourceRoute(g: Generator): string
  {
    "Route::" + Verb(g) + "('" + g.RoutePath() + "', " + ControllerRef(g) + ");"
  }

  /** The named `GET <path>/trashed` route. */
  function TrashedRoute(path: string, controller: string): string
  {
    "    Route::get('" + path + "/trashed', [" + controller + ", 'trashed'])->name('" + path + ".trashed');"
  }

  /** The named `POST <path>/{id}/restore` route. */
  function RestoreRoute(path: string, controller: string): string
  {
    "    Route::post('" + path + "/{id}/restore', [" + controller + ", 'restore'])->name('" + path + ".restore');"
  }

  /** The named `DELETE <path>/{id}/force` route. */
  function ForceDeleteRoute(path: string, controller: string): string
  {
    "    Route::delete('" + path + "/{id}/force', [" + controller + ", 'forceDelete'])->name('" + path + ".forceDelete');"
  }

  /** Whether the soft-delete routes follow the resource: soft deletes on and not in API mode. */
  predicate WithSoftDeleteRoutes(g: Generator)
  {
    g.options.softDelete && !g.options.api
  }

  /** Whether the registration is wrapped in the auth middleware group: auth on and not in API mode. */
  predicate WithAuthGroup(g: Generator)
  {
    g.options.auth && !g.options.api
  }

  /** The opening line of the auth middleware group. */
  const GroupOpen: string := "Route::middleware(['auth'])" + "->group(function () {"

  /** The closing line of the auth middleware group. */
  const GroupClose: string := "});"

  /**
   * `generateRouteLine`: the resource registration, then in web mode with
   * soft deletes the three extra routes, each on a new line; with auth in
   * web mode the whole of it is put inside the middleware group.
   */
  function RouteLine(g: Generator): string
  {
    var path := g.RoutePath();
    var controller := ControllerRef(g);
    var route := ResourceRoute(g);
    var route := if WithSoftDeleteRoutes(g) then
        route + "\n" + TrashedRoute(path, controller)
        + "\n" + RestoreRoute(path, controller)
        + "\n" + ForceDeleteRoute(path, controller)
      else route;
    if WithAuthGroup(g) then GroupOpen + "\n" + "    " + route + "\n" + GroupClose else route
  }

  /** The route lines of the registration before any auth group: the resource, then the soft-delete routes. */
  function BlockLines(g: Generator): (r: seq<string>)
    ensures |r| == (if WithSoftDeleteRoutes(g) then 4 else 1)
  {
    var path := g.RoutePath();
    var controller := ControllerRef(g);
    [ResourceRoute(g)]
    + (if WithSoftDeleteRoutes(g)
       then [TrashedRoute(path, controller), RestoreRoute(path, controller), ForceDeleteRoute(path, controller)]
       else [])
  }

  /**
   * Read line by line, the registration is the resource line followed by
   * the soft-delete routes (only with soft deletes in web mode); with auth
   * in web mode the group's opening line comes first, every route line
   * sits inside the group, indented, and the closing line comes last.
   */
  lemma RouteLineLines(g: Generator)
    requires '\n' !in g.RoutePath() && '\n' !in ControllerRef(g)
    ensures !WithAuthGroup(g) ==> Split(RouteLine(g), '\n') == BlockLines(g)
    ensures WithAuthGroup(g) ==>
      Split(RouteLine(g), '\n') == [GroupOpen, "    " + BlockLines(g)[0]] + BlockLines(g)[1..] + [GroupClose]
  {
    var path := g.RoutePath();
    var controller := ControllerRef(g);
    var lines := BlockLines(g);
    var route := if WithSoftDeleteRoutes(g) then
        ResourceRoute(g) + "\n" + TrashedRoute(path, controller)
        + "\n" + RestoreRoute(path, controller)
        + "\n" + ForceDeleteRoute(path, controller)
      else ResourceRoute(g);
    ResourceRouteClean(g);
    if WithSoftDeleteRoutes(g) {
      SoftDeleteRoutesClean(path, controller);
      FourLines(lines[0], lines[1], lines[2], lines[3]);
    } else {
      SplitWithoutDelimiter(route, '\n');
    }
    assert Split(route, '\n') == lines;
    if WithAuthGroup(g) {
      GroupClean();
      GroupLines(GroupOpen, "    ", route, GroupClose, lines);
    }
  }

  /** Four lines joined by line breaks split back into those lines. */
  lemma FourLines(a: string, b: string, c: string, d: string)
    requires '\n' !in a && '\n' !in b && '\n' !in c && '\n' !in d
    ensures Split(a + "\n" + b + "\n" + c + "\n" + d, '\n') == [a, b, c, d]
  {
    SplitWithoutDelimiter(a, '\n');
    SplitAddLine(a, b);
    SplitAddLine(a + "\n" + b, c);
    SplitAddLine(a + "\n" + b + "\n" + c, d);
  }

  /** A block put on its own lines between an opening and a closing line, its first line indented. */
  lemma GroupLines(open: string, indent: string, block: string, close: string, lines: seq<string>)
    requires '\n' !in open && '\n' !in indent && '\n' !in close
    requires Split(block, '\n') == lines
    ensures Split(open + "\n" + indent + block + "\n" + close, '\n') == [open, indent + lines[0]] + lines[1..] + [close]
  {
    var p := open + "\n" + indent;
    SplitWithoutDelimiter(open, '\n');
    SplitAddBreak(open, '\n');
    assert open + ['\n'] == open + "\n";
    SplitAddText(open + "\n", indent, '\n');
    assert "" + indent == indent;
    assert Split(p, '\n') == [open, indent];
    SplitAppend(p, block, '\n');
    assert Split(p + block, '\n') == [open, indent + lines[0]] + lines[1..];
    SplitAddBreak(p + block, '\n');
    assert p + block + ['\n'] == p + block + "\n";
    SplitAddText(p + block + "\n", close, '\n');
    assert "" + close == close;
  }

  lemma ResourceRouteClean(g: Generator)
    requires '\n' !in g.RoutePath() && '\n' !in ControllerRef(g)
    ensures '\n' !in ResourceRoute(g)
  {
  }

  lemma SoftDeleteRoutesClean(path: string, controller: string)
    requires '\n' !in path && '\n' !in controller
    ensures '\n' !in TrashedRoute(path, controller)
    ensures '\n' !in RestoreRoute(path, controller)
    ensures '\n' !in ForceDeleteRoute(path, controller)
  {
    TrashedClean(path, controller);
    RestoreClean(path, controller);
    ForceDeleteClean(path, controller);
  }

  lemma TrashedClean(path: string, controller: string)
    requires '\n' !in path && '\n' !in controller
    ensures '\n' !in TrashedRoute(path, controller)
  {
  }

  lemma RestoreClean(path: string, controller: string)
    requires '\n' !in path && '\n' !in controller
    ensures '\n' !in RestoreRoute(path, controller)
  {
  }

  lemma ForceDeleteClean(path: string, controller: string)
    requires '\n' !in path && '\n' !in controller
    ensures '\n' !in ForceDeleteRoute(path, controller)
  {
  }

  lemma GroupClean()
    ensures '\n' !in GroupOpen && '\n' !in "    " && '\n' !in GroupClose
  {
  }

  /**
   * The guarded append of `generate`: nothing (None) when the content
   * already holds the route text anywhere; otherwise the content with its
   * trailing whitespace cut, a blank line, the route text and a line break.
   */
  function Registered(content: string, routeLine: string): (r: Option<string>)
    ensures r.None? <==> Contains(content, routeLine)
  {
    if Contains(content, routeLine) then None
    else Some(RTrim(content) + "\n\n" + routeLine + "\n")
  }

  /**
   * The appended content keeps everything of the old content up to its
   * trailing whitespace, and ends with the route text and a line break.
   */
  lemma RegisteredKeepsContent(content: string, routeLine: string)
    requires !Contains(content, routeLine)
    ensures var c := Registered(content, routeLine).value;
      && StartsWith(c, RTrim(content)) && content[..|RTrim(content)|] == RTrim(content)
      && EndsWith(c, routeLine + "\n")
  {
    var t := RTrim(content);
    var tail := routeLine + "\n";
    var c := t + "\n\n" + routeLine + "\n";
    assert Registered(content, routeLine).value == c;
    assert c == t + ("\n\n" + tail);
    StartsWithAppend(t, "\n\n" + tail);
    assert c == (t + "\n\n") + tail;
    EndsWithAppend(t + "\n\n", tail);
  }

  /**
   * Idempotence: after a registration the content holds the route text,
   * so registering the same text again is refused and changes nothing.
   */
  lemma RegisterTwice(content: string, routeLine: string)
    requires !Contains(content, routeLine)
    ensures Registered(Registered(content, routeLine).value, routeLine).None?
  {
    ContainsAt(RTrim(content) + "\n\n", routeLine, "\n");
  }

  /** The result array of `generate`: its success flag, and the message or the file name it carries. */
  datatype RouteResult = RouteResult(success: bool, message: Option<string>, file: Option<string>)

  /**
   * `generate`: fails without writing when the routes file is missing or
   * already holds the route text; otherwise rewrites it with the route
   * text appended.
   */
  method Generate(g: Generator, disk: Disk) returns (o: RouteResult)
    modifies disk
    ensures var path := RouteFilePath(g);
      && (!old(disk.IsFile(path)) ==>
            o == RouteResult(false, Some("Route file not found: " + path), None) && disk.files == old(disk.files))
      && (old(disk.IsFile(path)) && Contains(old(disk.Get(path)), RouteLine(g)) ==>
            o == RouteResult(false, Some("Route already exists"), Some(RouteFileName(g))) && disk.files == old(disk.files))
      && (old(disk.IsFile(path)) && !Contains(old(disk.Get(path)), RouteLine(g)) ==>
            o == RouteResult(true, None, Some(RouteFileName(g)))
            && disk.files == old(disk.files)[Normalize(path) := Registered(old(disk.Get(path)), RouteLine(g)).value])
  {
    var routeFile := RouteFileName(g);
    var routePath := RouteFilePath(g);
    if !disk.IsFile(routePath) {
      return RouteResult(false, Some("Route file not found: " + routePath), None);
    }
    var content := disk.Get(routePath);
    var routeLine := RouteLine(g);
    if Contains(content, routeLine) {
      return RouteResult(false, Some("Route already exists"), Some(routeFile));
    }
    content := RTrim(content) + "\n\n" + routeLine + "\n";
    disk.Put(routePath, content);
    o := RouteResult(true, None, Some(routeFile));
  }
}
