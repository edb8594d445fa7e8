/** The HTTP server's construction and route registration. The underlying
    router is a recorder of what it is asked to register; the structured
    logger is a recorder of the entries the server writes. */
module HttpServer {
  import opened Wrappers
  import opened RoutePath
  import Config

  datatype Level = Info | Warn | Error

  /** One structured log entry: level, message and string fields. */
  datatype LogEntry = LogEntry(level: Level, message: string, fields: seq<(string, string)>)

  /** The logger handed to the server; it only accumulates entries. */
  class Logger {
    var entries: seq<LogEntry>

    constructor ()
      ensures entries == []
    {
      entries := [];
    }

    method Log(level: Level, message: string, fields: seq<(string, string)>)
      modifies this
      ensures entries == old(entries) + [LogEntry(level, message, fields)]
    {
      entries := entries + [LogEntry(level, message, fields)];
    }
  }

  /** A string variable passed by reference, so that it can be fixed up in place. */
  class StringCell {
    var value: string

    constructor (value: string)
      ensures this.value == value
    {
      this.value := value;
    }
  }

  /** A route handler as the router receives it: a handler set's method bound
      to its receiver, which may be missing (a nil handler set). */
  datatype Handler = Handler(name: string, receiver: Option<nat>)

  /** The handler sets the server mounts, each possibly missing. */
  datatype RouteGroup = RouteGroup(order: Option<nat>, product: Option<nat>)

  /** A route a group registrar attaches to its group. */
  datatype RouteSpec = RouteSpec(httpMethod: string, path: string, handler: Handler)

  /** What the router is asked to register: a sub-group of the API group, or
      a route on the API group itself (`group` None) or on one of its
      sub-groups. Paths are relative, as the router composes them itself. */
  datatype Registration =
    | GroupAt(prefix: string)
    | RouteAt(group: Option<string>, httpMethod: string, path: string, handler: Handler)

  /** The route a registration on a group asks for, forgetting the group. */
  function SpecOf(r: Registration): RouteSpec
    requires r.RouteAt?
  {
    RouteSpec(r.httpMethod, r.path, r.handler)
  }

  /** The routes a registrar attaches to the group `prefix`: every entry is a
      route on that group, and forgetting the group gives back the
      registrar's routes, in order. */
  function Attached(prefix: string, specs: seq<RouteSpec>): (rs: seq<Registration>)
    ensures |rs| == |specs|
    ensures forall i :: 0 <= i < |rs| ==> rs[i].RouteAt? && rs[i].group == Some(prefix)
    ensures forall i :: 0 <= i < |rs| ==> SpecOf(rs[i]) == specs[i]
  {
    seq(|specs|, i requires 0 <= i < |specs| => RouteAt(Some(prefix), specs[i].httpMethod, specs[i].path, specs[i].handler))
  }

  const EmptyPrefixWarning := "baseApiPrefix is empty, API routes will be registered at the root."
  const PrependedWarning := "baseApiPrefix did not start with '/', prepended it."
  const InitializedMessage := "Fiber HTTP server core initialized with middleware."
  const SetupFailedMessage := "Failed to set up route"
  const GroupRegisteredMessage := "Registered API group"
  const RouteAddedMessage := "Adding HTTP route"

  /** The warnings the fix-up of a raw base prefix writes. */
  function PrefixWarnings(raw: string): seq<LogEntry>
  {
    if raw == "" then [LogEntry(Warn, EmptyPrefixWarning, [])]
    else if !StartsWithSlash(raw) then [LogEntry(Warn, PrependedWarning, [("newPrefix", "/" + raw)])]
    else []
  }

  /** Fixes the caller's base prefix up in place and warns about it; the
      configuration and the logger are present by construction here. */
  method ValidateArguments(logger: Logger, baseApiPrefix: StringCell)
    modifies logger, baseApiPrefix
    ensures baseApiPrefix.value == WithLeadingSlash(old(baseApiPrefix.value))
    ensures logger.entries == old(logger.entries) + PrefixWarnings(old(baseApiPrefix.value))
  {
    if baseApiPrefix.value == "" {
      logger.Log(Warn, EmptyPrefixWarning, []);
    } else if !StartsWithSlash(baseApiPrefix.value) {
      baseApiPrefix.value := "/" + baseApiPrefix.value;
      logger.Log(Warn, PrependedWarning, [("newPrefix", baseApiPrefix.value)]);
    }
  }

  class Server {
    const cfg: Config.AppEnvConfig
    const log: Logger
    /** The application name the listening app is created with. */
    const appName: string
    /** The prefix of the API group the app was asked to create. */
    const apiPrefix: string
    /** The base path used to compute logged full paths. */
    const basePath: string
    /** Everything registered on the API group so far, in order. */
    var routes: seq<Registration>

    /** Builds the server under the fixed-up base prefix. The middleware
        stack is not part of this model. */
    constructor (cfg: Config.AppEnvConfig, zapLogger: Logger, baseApiPrefix: string)
      modifies zapLogger
      ensures this.cfg == cfg && log == zapLogger && appName == cfg.GetServerName()
      ensures basePath == WithLeadingSlash(baseApiPrefix) && apiPrefix == basePath
      ensures routes == []
      ensures log.entries == old(zapLogger.entries) + PrefixWarnings(baseApiPrefix) +
                             [LogEntry(Info, InitializedMessage, [("baseApiPrefix", basePath)])]
    {
      var prefix := new StringCell(baseApiPrefix);
      ValidateArguments(zapLogger, prefix);
      this.cfg := cfg;
      appName := cfg.GetServerName();
      apiPrefix := prefix.value;
      zapLogger.Log(Info, InitializedMessage, [("baseApiPrefix", prefix.value)]);
      log := zapLogger;
      basePath := prefix.value;
      routes := [];
    }

    /** Mounts the order and product groups, each with `GET /:id`. A missing
        handler set is reported but does not stop the registration. */
    method SetupRoute(routeGroup: RouteGroup)
      modifies this, log
      ensures routes == old(routes) + [
        GroupAt("/orders"), RouteAt(Some("/orders"), "GET", "/:id", Handler("GetOrderByID", routeGroup.order)),
        GroupAt("/products"), RouteAt(Some("/products"), "GET", "/:id", Handler("GetProductByID", routeGroup.product))]
      ensures log.entries == old(log.entries) +
        (if routeGroup.order.None? || routeGroup.product.None? then [LogEntry(Error, SetupFailedMessage, [])] else []) +
        [LogEntry(Info, GroupRegisteredMessage, [("fullPrefix", FullPath(basePath, "/orders"))]),
         LogEntry(Info, GroupRegisteredMessage, [("fullPrefix", FullPath(basePath, "/products"))])]
    {
      if routeGroup.order.None? || routeGroup.product.None? {
        log.Log(Error, SetupFailedMessage, []);
      }
      var order := routeGroup.order;
      var product := routeGroup.product;
      RegisterAPIGroup("/orders", [RouteSpec("GET", "/:id", Handler("GetOrderByID", order))]);
      RegisterAPIGroup("/products", [RouteSpec("GET", "/:id", Handler("GetProductByID", product))]);
    }

    /** Mounts a sub-group (its registrar attaches `attach`) and logs its
        full prefix. The router receives the fixed-up relative prefix, never
        the full one. */
    method RegisterAPIGroup(subPrefix: string, attach: seq<RouteSpec>)
      modifies this, log
      ensures routes == old(routes) + [GroupAt(WithLeadingSlash(subPrefix))] +
                        Attached(WithLeadingSlash(subPrefix), attach)
      ensures log.entries == old(log.entries) +
                             [LogEntry(Info, GroupRegisteredMessage, [("fullPrefix", FullPath(basePath, subPrefix))])]
    {
      var sub := subPrefix;
      if !StartsWithSlash(sub) && sub != "" {
        sub := "/" + sub;
      }
      var fullPrefix := basePath + sub;
      if basePath == "/" && sub == "" {
        fullPrefix := "/";
      } else if basePath == "/" && StartsWithSlash(sub) {
        fullPrefix := sub;
      } else if basePath != "" && sub == "" {
        fullPrefix := basePath;
      }
      routes := routes + [GroupAt(sub)];
      routes := routes + Attached(sub, attach);
      log.Log(Info, GroupRegisteredMessage, [("fullPrefix", fullPrefix)]);
    }

    /** Adds one route to the API group and logs its full path, computed by
        the same rule as a group's full prefix. */
    method AddHttpRoute(httpMethod: string, relativePath: string, handler: Handler)
      modifies this, log
      ensures routes == old(routes) + [RouteAt(None, httpMethod, WithLeadingSlash(relativePath), handler)]
      ensures log.entries == old(log.entries) +
        [LogEntry(Info, RouteAddedMessage, [("method", httpMethod), ("fullPath", FullPath(basePath, relativePath))])]
    {
      var path := relativePath;
      if !StartsWithSlash(path) && path != "" {
        path := "/" + path;
      }
      var fullPath := basePath + path;
      if basePath == "/" && path == "" {
        fullPath := "/";
      } else if basePath == "/" && StartsWithSlash(path) {
        fullPath := path;
      } else if basePath != "" && path == "" {
        fullPath := basePath;
      }
      log.Log(Info, RouteAddedMessage, [("method", httpMethod), ("fullPath", fullPath)]);
      routes := routes + [RouteAt(None, httpMethod, path, handler)];
    }
  }

  /** Construction followed by route setup on a fresh logger: both groups are
      mounted, in order, whatever handler sets are missing, and their logged
      full prefixes sit under the fixed-up base. */
  method SetUpServer(cfg: Config.AppEnvConfig, baseApiPrefix: string, routeGroup: RouteGroup)
    returns (routes: seq<Registration>, fullPrefixes: seq<string>, reportedFailure: bool)
    ensures routes == [
      GroupAt("/orders"), RouteAt(Some("/orders"), "GET", "/:id", Handler("GetOrderByID", routeGroup.order)),
      GroupAt("/products"), RouteAt(Some("/products"), "GET", "/:id", Handler("GetProductByID", routeGroup.product))]
    ensures reportedFailure <==> routeGroup.order.None? || routeGroup.product.None?
    ensures var base := WithLeadingSlash(baseApiPrefix);
            fullPrefixes == if base == "/" then ["/orders", "/products"] else [base + "/orders", base + "/products"]
  {
    var logger := new Logger();
    var server := new Server(cfg, logger, baseApiPrefix);
    var before := |logger.entries|;
    server.SetupRoute(routeGroup);
    routes := server.routes;
    var n := |logger.entries|;
    fullPrefixes := [logger.entries[n - 2].fields[0].1, logger.entries[n - 1].fields[0].1];
    reportedFailure := logger.entries[before].level == Error;
  }
}
