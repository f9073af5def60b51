# wp-webhooks in Dafny

A model of the core of the LiftUX "WordPress Webhooks" plugin. It has two parts.

- The `WP_Webhooks` class is the send-event registry and dispatcher. Its `send_events` table maps a WordPress hook name to the ordered list of target URLs registered for it. Each `register_send_event` also adds one entry to the shared hook catalog. When the hook fires, that entry's callback runs `send_event`. `send_event` builds a non-blocking `wp_remote_post` request with the `X-WordPress-Event` header. The body is the formatter's output, or `{action: hook}` when there is no formatter. The static `factory` keeps a singleton and has a "force new" flag.
- The REST integration `WP_Webhooks_Route` registers three routes under `webhooks/v1`: `/list`, `/ping` and `/ping/(?P<source>\w+)`. It also holds the fail-closed permission gate of the ping routes and the filterable 405 ping response.

Files:

- `values.dfy` (module `Values`): PHP values, arrays keyed by index or name, REST responses, and the value form of the listing table with its read-back.
- `registry.dfy` (module `Registry`): the registry and dispatcher as values. It holds catalog entries and the listing they induce (`Listing`), the request `send_event` builds (`BuildArgs`), and the posts that one occurrence of a hook produces (`Dispatches`).
- `route_logic.dfy` (module `RouteLogic`): the permission check, the ping and list responses, the route table and the `source` path parameter.
- `plugin.dfy` (module `Plugin`): the objects that change in place. These are `WebHooks` (`WP_Webhooks`), `Runtime` (the static singleton), `WebhooksRoute`, the shared `HookCatalog`, and `Host`. `Host` is the WordPress state the plugin changes: the outbox of `wp_remote_post`, the actions fired, and the registered routes.

WordPress is represented as follows:

- Each filter (`apply_filters`) is a function parameter. The identity function means "no filter registered".
- `wp_remote_post` appends a `Post(target, args)` record to `Host.outbox`.
- `do_action` appends the action's name and the instance it passes to `Host.actions`. Its listeners are not run.
- `register_rest_route` appends a `RouteDef` to `Host.routes`.
- The catalog is a sequence of `(hook, callback)` entries.

The invariant of `WebHooks` is that `send_events` is exactly the listing the catalog's send-event entries induce. So the listing always shows each registered target, and only those. `Registry.DispatchMatchesListing` states the consequence: one occurrence of a hook posts to exactly the listed targets of that hook, in registration order.

Some behaviour of the code worth stating plainly:

- The event header is `X-WordPress-Event` (src/classes/class-wp-webhooks.php:194).
- `register_send_event` accepts any hook name and any target, including empty ones (src/classes/class-wp-webhooks.php:175-180).
- `send_event` sets no timeout of its own (src/classes/class-wp-webhooks.php:191-199). The host's default applies.
- `list` reads the registry through `factory()`, which creates the singleton when none exists (src/classes/integrations/class-wp-webhooks-route.php:100).
- The ping response goes through one `apply_filters` call (src/classes/integrations/class-wp-webhooks-route.php:115). The model takes whatever that call returns, and how several filters combine is left to WordPress.

## Model

| member | source | states |
|---|---|---|
| `Registry.Appended` | src/classes/class-wp-webhooks.php:179 | the hook's list gains the target at its end, and an absent hook gets a new list; every other hook's list is unchanged; the key set grows by the hook only |
| `Registry.ListingSnoc` | src/classes/class-wp-webhooks.php:176-179 | adding a send-event entry to the catalog appends its target to the listing; any other entry leaves the listing unchanged |
| `Registry.ListingLookup` | src/classes/class-wp-webhooks.php:175-180 | a hook's listed targets are exactly its registered targets, in registration order; a hook is listed iff it has at least one registration |
| `Registry.NoDeduplication` | src/classes/class-wp-webhooks.php:176-179 | registering the same (hook, target) twice keeps both copies |
| `Registry.BuildArgs` | src/classes/class-wp-webhooks.php:191-198 | the request has `blocking = false` and headers exactly `{X-WordPress-Event: hook}`; the body is `{action: hook}` without a formatter, else the formatter applied to the args after `blocking` and `headers` were written; all other keys are kept |
| `Registry.DispatchTargets` | src/classes/class-wp-webhooks.php:176-178 | one occurrence of a hook posts once per send-event entry of that hook, in catalog order; each post is non-blocking, carries the event header, and keeps the hook's positional arguments |
| `Registry.SendEventArgsPhp8` | src/classes/class-wp-webhooks.php:196-199 | under PHP 8, a post is made exactly when there is no formatter or the formatter can bind the named arguments `blocking` and `headers`; when it is made, it carries the intended request |
| `Registry.NamedArgumentsDropPost` | src/classes/class-wp-webhooks.php:196 | under PHP 8, a formatter that is neither variadic nor declares `$blocking` (for example `function( $post_id )`) throws, so nothing is posted; the intended request carries its body |
| `Registry.DispatchMatchesListing` | src/classes/class-wp-webhooks.php:176-179 | the targets one occurrence posts to are exactly the hook's listed targets, in the same order |
| `Values.Positional` | src/classes/class-wp-webhooks.php:177 | the callback's `func_get_args()` array has exactly the indices 0..n-1, each holding the matching argument |
| `Values.TableRoundTrip` | src/classes/integrations/class-wp-webhooks-route.php:100 | the value form of the listing table reads back as exactly that table |
| `RouteLogic.ListResponse` | src/classes/integrations/class-wp-webhooks-route.php:99-101 | `list` answers with status 200, and its data is exactly the given listing table |
| `RouteLogic.WebhookPermissionCheck` | src/classes/integrations/class-wp-webhooks-route.php:126-129 | a boolean filter result is returned unchanged; any other value gives `false` |
| `RouteLogic.PermissionOpenByDefault` | src/classes/integrations/class-wp-webhooks-route.php:127 | with no filter registered, the check passes |
| `RouteLogic.PermissionFailsClosed` | src/classes/integrations/class-wp-webhooks-route.php:128 | access is granted iff the filter yields the boolean `true`; values such as `"yes"`, `1` or `null` deny |
| `RouteLogic.Ping` | src/classes/integrations/class-wp-webhooks-route.php:110-117 | a response returned by the `webhook_ping` filter is the reply; plain data returned by it is sent with status 200 |
| `RouteLogic.PingWithoutHandler` | src/classes/integrations/class-wp-webhooks-route.php:111-116 | with no handler, a ping gets status 405 and the body `{success: false, message: "Error Method Not Allowed: No handler configured to accept pings from this source."}` |
| `RouteLogic.RouteGates` | src/classes/integrations/class-wp-webhooks-route.php:61-87 | three routes, all in the namespace; only the list route is open; both ping routes pass iff the permission check does; only `/ping/(source)` accepts all methods |
| `RouteLogic.Respond` | src/classes/integrations/class-wp-webhooks-route.php:64-84 | the list callback answers 200 with the given listing table; the `/ping` closure answers 200 with `{message: "listening"}`; the source route answers with `ping` |
| `RouteLogic.RouteResponses` | src/classes/integrations/class-wp-webhooks-route.php:61-87 | the list route answers 200 with the table; the read-only `/ping` route answers 200 with `{message: "listening"}`; with no ping handler the source route answers 405 |
| `RouteLogic.PingSource` | src/classes/integrations/class-wp-webhooks-route.php:81 | a captured `source` is a non-empty run of word characters, and the path is `/ping/` followed by it |
| `RouteLogic.PingSourceMatches` | src/classes/integrations/class-wp-webhooks-route.php:81 | `/ping/s` routes with source `s` exactly when `s` matches `\w+` |
| `Plugin.WebHooks.constructor` | src/classes/class-wp-webhooks.php:48 | a new instance has an empty `send_events` table and an empty catalog |
| `Plugin.WebHooks.RegisterSendEvent` | src/classes/class-wp-webhooks.php:175-180 | adds exactly one catalog entry for the hook, bound to the target and formatter; the target is appended to the hook's list; the listing invariant is kept |
| `Plugin.WebHooks.SendEvent` | src/classes/class-wp-webhooks.php:191-200 | appends exactly one post, to `target`, with the arguments `BuildArgs` describes; nothing else on the host changes |
| `Plugin.WebHooks.RegisterSendEvents` | src/classes/class-wp-webhooks.php:163-165 | fires `wp_webhooks_register`, passing this instance; posts and routes are unchanged |
| `Plugin.WebHooks.AddSubscriptions` | src/classes/class-wp-webhooks.php:151-154 | subscribes `register_send_events` to `init`; the listing is unchanged |
| `Plugin.WebHooks.RegisterRestIntegration` | src/classes/class-wp-webhooks.php:138-142 | a new route integration that shares this instance's hook catalog |
| `Plugin.WebHooks.Setup` | src/classes/class-wp-webhooks.php:126-131 | subscribes `register_routes` to `rest_api_init`, then `register_send_events` to `init`, then fires `wp_webhooks_setup` with no argument; its own steps leave the listing unchanged |
| `Plugin.Runtime.constructor` | src/classes/class-wp-webhooks.php:55 | the singleton starts absent |
| `Plugin.Runtime.Factory` | src/classes/class-wp-webhooks.php:75-80 | without `forceNew`, an existing singleton is returned as it is; with `forceNew`, or with no singleton, a fresh empty instance is stored and returned |
| `Plugin.WebhooksRoute.constructor` | src/classes/integrations/class-wp-webhooks-route.php:37-39 | the integration uses the catalog it is given; namespace and base are not yet set |
| `Plugin.WebhooksRoute.AddSubscriptions` | src/classes/integrations/class-wp-webhooks-route.php:46-49 | subscribes `register_routes` to `rest_api_init` |
| `Plugin.WebhooksRoute.RegisterRoutes` | src/classes/integrations/class-wp-webhooks-route.php:56-88 | namespace and base are the filtered defaults `webhooks/v1` and `list`; the three routes are registered in order and nothing else changes |
| `Plugin.WebhooksRoute.List` | src/classes/integrations/class-wp-webhooks-route.php:99-101 | status 200, and the data is the current singleton's `send_events`; with no singleton, a fresh one is created and the table is empty |

## Left out

- The bootstrap in `wp-webhooks.php` is not modelled. It covers autoloading, constant definitions, `ready()` with its `wp_die` on an exception, and the `plugins_loaded` registration.
- The network send of `wp_remote_post` is not modelled. It is fire-and-forget with no response handling, so each call is only a record in `Host.outbox`.
- `Dependency_Injector` is not modelled. This covers `inject`, `register_dependency` (including the registration of the route as `wp_webhooks_route`) and the `$injector` argument of `factory`. `inject` and `register_dependency` are aliases over the injector.
- `__invoke` is not modelled separately. It is `return self::factory()`, which is `Plugin.Runtime.Factory` with `forceNew` false. Every new instance gets a fresh, empty hook catalog. An injector that hands a used catalog to a new instance is not modelled.
- WordPress internals are not modelled: `do_action`, `apply_filters` chains, `Hook_Catalog`, `Hook_Definition` and `Integration_Decorator::subscribe`. Firing a hook is the function `Registry.Dispatches`, which takes the arguments the host passes to the callback as given. WordPress's `accepted_args` limit is not modelled.
- `rest_ensure_response` is modelled only for a response object and for plain data. Its `WP_Error` case is left out.
- The REST server's route matching is left out, beyond `RouteLogic.PingSource`, which models the `\w+` capture of `source`.
- `RouteLogic.PingSource`: `\w` is taken as ASCII letters, digits and `_`. Locale-dependent word characters are not modelled.
- `Registry.BuildArgs`: the formatter receives the whole `$args` array. PHP's `call_user_func_array` instead spreads it into parameters: by position under PHP 7, and as positional plus named arguments under PHP 8. Under PHP 8 the named `blocking` and `headers` arguments make most formatters throw, and then nothing is posted. `Registry.SendEventArgsPhp8` models that error path (see Findings). Errors from missing required parameters are not modelled.
- JSON serialisation is left out. For example, PHP encodes an empty array as `[]`. `list`'s data is modelled as a string-keyed array of string lists.
- Key order is not modelled. `send_events` keeps its hooks in first-registration order, so `/list` shows them in that order. `Registry.Table` is a map and has no order. The order of targets within a hook is modelled.
- PHP's conversion of numeric-string array keys to integers is not modelled.
- Formatter internals are not modelled: a formatter is an arbitrary total function.
- Concurrency is not modelled; the code has none.
- `Plugin.WebHooks.RegisterSendEvents`: listeners of `wp_webhooks_register` are not run. Registering send events is their purpose; in the model that is the caller's later `RegisterSendEvent` calls on the instance recorded with the action.
- `Plugin.WebHooks.Setup`: listeners of `wp_webhooks_setup` are not run. They can register send events too, so "the listing is unchanged" covers only `setup`'s own steps.

## Findings

| source | as written | input that shows it | evidently intended | confidence | as-written member | corrected member |
|---|---|---|---|---|---|---|
| src/classes/class-wp-webhooks.php:196 | `call_user_func_array( $formatter, $args )` runs while `$args` holds the string keys `blocking` and `headers`. Under PHP 8 these become named arguments. | PHP 8; a send event registered with the formatter `function( $post_id ) { … }`, fired with one argument. `$blocking` is an unknown named parameter, so PHP throws an `Error` and `wp_remote_post` is never reached. | every registered formatter is called with the event's arguments, and the webhook is posted with its body | medium; depends on the PHP version; not executed | `Registry.NamedArgumentsDropPost` | `Registry.BuildArgs` |
