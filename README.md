# Service bootstrap: route paths and the configuration singleton

This project models the two pieces of real logic in a small Go service
bootstrap built on Fiber.

- **The HTTP server's route namespace** (`internal/adapter/primary/http/server.go`).
  When the server is built, it fixes up the base API prefix in place: an
  empty prefix stays empty, and a prefix without a leading `/` gains one.
  The fixed-up prefix becomes both the prefix of the API group and the
  server's stored `basePath`. Registering a group (`registerAPIGroup`) or a
  single route (`addHttpRoute`) fixes up the sub-path the same way. The router
  receives that relative sub-path. The server only logs a "full path", built
  from the base and the sub-path, with a special case for the root base `/`.
  `SetupRoute` mounts `/orders` and `/products`, each with `GET /:id`. It does
  this even when a handler set is missing, in which case it only logs an error.
- **The configuration loader** (`internal/adapter/secondary/infrastructure/config/dotenv_config.go`).
  `getEnv` treats a variable that is present but empty as absent. `LoadConfig`
  may load an env file, and a failure to load it is not fatal. It then
  resolves twelve settings with fixed defaults and validates `DB_USER`. It
  runs its body once per process and stores the result in a package
  variable. The getters and the connection descriptor `GetDBDSN` read that
  stored configuration.

Modules:

- `RoutePath` (route_path.dfy) holds the pure path rules and their lemmas.
- `HttpServer` (http_server.dfy) holds the server:
  - `Server` is a class. It holds `basePath`, the API group prefix and a
    `routes` sequence that records what the router is asked to register.
  - `Logger` is a recorder of structured log entries.
  - `StringCell` is the `*string` that `validateArguments` fixes up in place.
- `Config` (config.dfy) holds the loader:
  - `GetEnv` and the settings table (`Key`, `Default`).
  - `AppEnvConfig` is a class with constant fields and the getters.
  - `ConfigLoader` is the once-guard (`done`) plus the package variable
    (`loadedConfig`). Its method `LoadConfig` runs the body once.
  - The descriptor is given a meaning as a list of `key=value` pairs.
- `Text` (text.dfy) splits and joins strings. `Wrappers` (wrappers.dfy)
  holds `Option` and `Result`.

The process environment is a `map<string, string>` parameter. Loading the
env file is a parameter too: `Some(the file's variables)` when it succeeds,
`None` when it fails. As the env-file library documents for its `Load`, the
file's variables are added to the process environment without overriding a
variable the process already has, even one set to `""`.

Where the system's documented behaviour and its code differ, the model follows the code:

- The documented behaviour is that repeated loads return "the same instance or the same
  error". In the code the error is a local of each call, so a call after a
  failed first call would report "configuration was not loaded" instead.
  `ConfigLoader.LoadConfig` states this.
- The documented behaviour is that an empty `DB_USER` yields a configuration error. In the
  code an empty `DB_USER` counts as unset, so it resolves to `postgres`. The
  validation branch can never fire, and the first load always succeeds
  (`ResolveDatabase`, `LoadConfig`, `LoadTwice`).
- The composition rules special-case only the root base. A base that ends
  in `/`, such as `SERVER_BASEAPIPREFIX=/api/v1/`, is not trimmed, so the
  logged full path doubles the separator (`TrailingSlashBaseDoubles`).

## Model

| member | source | states |
|---|---|---|
| RoutePath.WithLeadingSlash | internal/adapter/primary/http/server.go:180-187 | the fixed-up prefix is empty exactly when the input is; otherwise it starts with `/`; a prefix that already starts with `/` is unchanged; one without gains exactly one leading `/` (the same rule as the sub-path fix-up at lines 139-141 and 157-159) |
| RoutePath.WithLeadingSlashIdempotent | internal/adapter/primary/http/server.go:183-185 | fixing up a prefix twice gives the same result as fixing it up once |
| RoutePath.FullPath | internal/adapter/primary/http/server.go:138-149 | for base `/`: an empty sub-path gives `/`, any other sub-path gives the fixed-up sub-path, so there is no `//` join; for every other base: base followed by the fixed-up sub-path; so base `""` gives the sub-path and an empty sub-path gives the base |
| RoutePath.FullPathUnderFixedBase | internal/adapter/primary/http/server.go:142-149 | under a base the server fixed up, the full path is empty only when base and sub-path are both empty; otherwise it starts with `/`; it always ends with the fixed-up sub-path |
| RoutePath.FullPathNoDoubleSlash | internal/adapter/primary/http/server.go:143-146 | for a base that is `/` or does not end in `/`, the full path has no `//` unless the base or the sub-path already had one |
| RoutePath.TrailingSlashBaseDoubles | internal/adapter/primary/http/server.go:142 | a base ending in `/` is not special-cased: `/api/v1/` with `orders` logs `/api/v1//orders` |
| RoutePath.CompositionTable | internal/adapter/primary/http/server.go:138-149 | the full paths for the bases `""`, `/`, `api`, `/api/v1` (as stored after the fix-up) and the sub-paths `""`, `x`, `/x` |
| HttpServer.ValidateArguments | internal/adapter/primary/http/server.go:173-188 | the caller's prefix is replaced in place by its fixed-up form; an empty prefix logs one warning; a prefix that gets a `/` prepended logs one warning that names the new prefix; otherwise nothing is logged |
| HttpServer.Server.constructor | internal/adapter/primary/http/server.go:44-85 | the stored `basePath` and the prefix given to the API group both equal the fixed-up prefix, not the raw argument; the app name comes from the configuration; no routes are registered yet; the log gains the fix-up warnings, then one entry that names the fixed-up prefix |
| HttpServer.Attached | internal/adapter/primary/http/server.go:151-152 | every registration the registrar adds is a route on the new group, and forgetting the group gives back exactly the registrar's routes, in order |
| HttpServer.Server.RegisterAPIGroup | internal/adapter/primary/http/server.go:138-154 | the router receives the group under the fixed-up relative prefix, never the full prefix, followed by the routes the registrar attaches; one log entry carries `FullPath(basePath, subPrefix)` |
| HttpServer.Server.AddHttpRoute | internal/adapter/primary/http/server.go:156-171 | the router receives the route under the fixed-up relative path; the logged full path comes from the same `FullPath` rule as a group's full prefix, so both compute the same path for the same base and sub-path |
| HttpServer.Server.SetupRoute | internal/adapter/primary/http/server.go:101-116 | exactly the groups `/orders` and `/products` are registered, in that order, each with one `GET /:id` route bound to its handler set; this happens even when a handler set is missing; an error is logged exactly when one is missing; the two full prefixes are logged |
| HttpServer.SetUpServer | internal/adapter/primary/http/server.go:101-116 | after construction and route setup the router holds exactly `/orders` with its `GET /:id` route bound to the order handler set, then `/products` with its `GET /:id` route bound to the product handler set; a failure is reported exactly when a handler set is missing; the logged full prefixes are the fixed-up base followed by `/orders` and `/products`, or just `/orders` and `/products` under the root |
| Config.GetEnv | internal/adapter/secondary/infrastructure/config/dotenv_config.go:95-100 | a present, non-empty value wins; an absent or empty variable yields the default; so the result is never empty when the default is not |
| Config.DefaultApplication | internal/adapter/secondary/infrastructure/config/dotenv_config.go:56-72 | for each of the twelve settings: an unset variable gives the fixed default; a variable set to `""` also gives the default; a non-empty value overrides the default |
| Config.LookupNeverEmpty | internal/adapter/secondary/infrastructure/config/dotenv_config.go:56-72 | every default is non-empty, so no resolved setting is ever empty |
| Config.KeysDistinct | internal/adapter/secondary/infrastructure/config/dotenv_config.go:56-72 | the twelve settings read twelve different variables |
| Config.LookupLocal | internal/adapter/secondary/infrastructure/config/dotenv_config.go:56-72 | changing a variable other than a setting's own key leaves that setting unchanged |
| Config.ResolveDatabase | internal/adapter/secondary/infrastructure/config/dotenv_config.go:64-77 | the resolved `DB_USER` is never empty, so the "DB_USER cannot be empty" branch cannot fire; it is `postgres` exactly when the variable is unset, empty or `postgres` |
| Config.ResolutionEnv | internal/adapter/secondary/infrastructure/config/dotenv_config.go:49-54 | without a non-empty path, or when loading the file fails, settings are resolved from the process environment unchanged, so the failure is not fatal; a loaded file adds every variable the process does not have, with the file's value, and every process variable keeps its value |
| Config.ProcessEmptyShadowsFile | internal/adapter/secondary/infrastructure/config/dotenv_config.go:49-67 | a `DB_USER` set to `""` in the process hides the file's value and then counts as unset, so the user resolves to the default `postgres` |
| Config.AppEnvConfig.constructor | internal/adapter/secondary/infrastructure/config/dotenv_config.go:79-82 | the configuration holds exactly the resolved server and database settings; its fields are constants, so nothing writes them later |
| Config.GettersServeResolved | internal/adapter/secondary/infrastructure/config/dotenv_config.go:102-138 | each getter of a configuration built from an environment returns exactly that setting's resolved value |
| Config.DsnIsJoin | internal/adapter/secondary/infrastructure/config/dotenv_config.go:140-150 | the descriptor is the seven words `host=`, `port=`, `user=`, `password=`, `dbname=`, `sslmode=`, `TimeZone=` (with the stored fields), in that order, separated by single spaces |
| Config.DsnRoundTrip | internal/adapter/secondary/infrastructure/config/dotenv_config.go:140-150 | reading the descriptor back as space-separated `key=value` words yields the seven stored database settings in order, provided no value contains a space |
| Config.DsnNotInjective | internal/adapter/secondary/infrastructure/config/dotenv_config.go:140-150 | values are not quoted: two different database settings whose values contain spaces produce the same descriptor |
| Config.ConfigLoader.constructor | internal/adapter/secondary/infrastructure/config/dotenv_config.go:41-44 | the process starts with the once-guard unused and no stored configuration |
| Config.ConfigLoader.LoadConfig | internal/adapter/secondary/infrastructure/config/dotenv_config.go:46-93 | the body runs only on the first call, and that call stores a fresh configuration resolved from the environment after the env-file step; later calls never change the stored configuration, whatever their path and environment; every call returns the stored configuration, or "configuration was not loaded" when none is stored (not the original error) |
| Config.LoadTwice | internal/adapter/secondary/infrastructure/config/dotenv_config.go:41-93 | the first load succeeds even when the env file fails, with the resolved settings; a second load with any arguments returns the very same configuration object |

## Left out

- `Start` and `gracefulShutdown` (server.go:87-136) are left out. They run a listener goroutine, wait for an OS signal and shut down with a 15-second timeout. That is concurrency and I/O.
- The middleware stack (server.go:51-73) is left out: recover, access logger, CORS and rate limiter. These are configured library components, and the rate limiter's counters live inside the library.
- The nil checks in `validateArguments` (server.go:174-179) are left out. They terminate the process. In the model the configuration and the logger are non-null references, so both checks always pass.
- `addHttpRoute` returns the router, an opaque library object. `AddHttpRoute` returns nothing.
- The router's own prefix composition and request dispatch are left out. The recorder keeps the relative prefixes and paths that the router receives.
- The handlers' JSON responses are left out. So are the domain services, the repositories and the DTOs.
- `cmd/main.go` is left out. It only wires the pieces together; `SetUpServer` shows the part of that wiring that is construction and route setup.
- internal/adapter/secondary/infrastructure/database/postgres_database.go is not part of this model. It connects, pings and calls `log.Fatalf`, which is all I/O. It builds its own descriptor in a different field order.
- Parsing of the env file and `os.LookupEnv` are library calls. The parsed file is the parameter `dotenv`. The model does not carry the file's variables over into later calls, because later calls do not read the environment.
- HttpServer.Server.SetupRoute: the route group is taken by value. In the source a nil `*RouteGroup` panics at server.go:102, where its fields are read without a nil check; the entry point in cmd/main.go:41-44 always passes a non-nil group.
- The loader's informational `log.Printf` and `log.Println` messages are left out.
- Config.ConfigLoader.LoadConfig: calls are sequential. The model does not capture how `sync.Once` blocks concurrent callers until the first call finishes.
- HttpServer.Server.RegisterAPIGroup: the registrar callback is modelled by the list of routes it attaches. The model does not capture a registrar that does anything other than attach routes.
