/** The objects of the plugin and the WordPress state they change:
    `WP_Webhooks` (the registry instance), its static singleton, the REST
    integration `WP_Webhooks_Route`, the shared hook catalog, and the host. */
module Plugin {
  import opened Values
  import opened Registry
  import opened RouteLogic

  /** The hook catalog shared by the plugin and its REST integration. */
  class HookCatalog {
    var entries: seq<HookEntry>

    constructor ()
      ensures entries == []
    {
      entries := [];
    }

    method AddEntry(e: HookEntry)
      modifies this
      ensures entries == old(entries) + [e]
    {
      entries := entries + [e];
    }
  }

  /** A `do_action` call: the action's name and the instance passed to its
      listeners, if any. */
  datatype Action = Action(name: string, instance: Option<WebHooks>)

  /** What the plugin does to WordPress: outbound posts (`wp_remote_post`),
      fired actions (`do_action`) and registered REST routes. */
  class Host {
    var outbox: seq<Post>
    var actions: seq<Action>
    var routes: seq<RouteDef>

    constructor ()
      ensures outbox == [] && actions == [] && routes == []
    {
      outbox, actions, routes := [], [], [];
    }
  }

  /** `WP_Webhooks`. */
  class WebHooks {
    var sendEvents: Table
    var hookCatalog: HookCatalog

    /** The listing is the one the catalog's send-event entries induce. */
    ghost predicate Valid()
      reads this, hookCatalog
    {
      sendEvents == Listing(hookCatalog.entries)
    }

    constructor ()
      ensures Valid() && fresh(hookCatalog)
      ensures sendEvents == map[] && hookCatalog.entries == []
    {
      sendEvents := map[];
      hookCatalog := new HookCatalog();
    }

    /** `register_send_event`: one catalog entry bound to the target and
        formatter, and the target appended under the hook. */
    method RegisterSendEvent(hook: string, target: string, formatter: Option<Formatter>)
      requires Valid()
      modifies this, hookCatalog
      ensures Valid() && hookCatalog == old(hookCatalog)
      ensures hookCatalog.entries == old(hookCatalog.entries) + [HookEntry(hook, SendEventCallback(target, formatter))]
      ensures sendEvents == Appended(old(sendEvents), hook, target)
    {
      ListingSnoc(hookCatalog.entries, HookEntry(hook, SendEventCallback(target, formatter)));
      hookCatalog.AddEntry(HookEntry(hook, SendEventCallback(target, formatter)));
      sendEvents := Appended(sendEvents, hook, target);
    }

    /** `send_event`: set `blocking` and `headers`, compute `body`, post. */
    method SendEvent(hook: string, target: string, formatter: Option<Formatter>, args: Args, host: Host)
      modifies host
      ensures host.outbox == old(host.outbox) + [Post(target, BuildArgs(hook, formatter, args))]
      ensures host.actions == old(host.actions) && host.routes == old(host.routes)
    {
      var a := args;
      a := a[Name("blocking") := Bool(false)];
      a := a[Name("headers") := Headers(hook)];
      var body := if formatter.Some? then formatter.value(a) else DefaultBody(hook);
      a := a[Name("body") := body];
      host.outbox := host.outbox + [Post(target, a)];
    }

    /** `register_send_events`: fires `wp_webhooks_register`, passing this
        instance to the listeners that register send events on it. */
    method RegisterSendEvents(host: Host)
      modifies host
      ensures host.actions == old(host.actions) + [Action("wp_webhooks_register", Some(this))]
      ensures host.outbox == old(host.outbox) && host.routes == old(host.routes)
    {
      host.actions := host.actions + [Action("wp_webhooks_register", Some(this))];
    }

    /** `add_subscriptions`: `register_send_events` on `init`. */
    method AddSubscriptions()
      requires Valid()
      modifies hookCatalog
      ensures Valid() && sendEvents == old(sendEvents)
      ensures hookCatalog.entries == old(hookCatalog.entries) + [HookEntry("init", RegisterSendEventsCallback)]
    {
      ListingSnoc(hookCatalog.entries, HookEntry("init", RegisterSendEventsCallback));
      hookCatalog.AddEntry(HookEntry("init", RegisterSendEventsCallback));
    }

    /** `register_rest_integration`: a route integration on the same catalog. */
    method RegisterRestIntegration() returns (route: WebhooksRoute)
      ensures fresh(route) && route.hookCatalog == hookCatalog
      ensures route.namespace == None && route.restBase == None
    {
      route := new WebhooksRoute(hookCatalog);
    }

    /** `setup`: subscribe the routes, then `register_send_events`, then
        fire `wp_webhooks_setup`. */
    method Setup(host: Host)
      requires Valid()
      modifies hookCatalog, host
      ensures Valid() && sendEvents == old(sendEvents)
      ensures hookCatalog.entries == old(hookCatalog.entries) +
        [HookEntry("rest_api_init", RegisterRoutesCallback), HookEntry("init", RegisterSendEventsCallback)]
      ensures host.actions == old(host.actions) + [Action("wp_webhooks_setup", None)]
      ensures host.outbox == old(host.outbox) && host.routes == old(host.routes)
    {
      var route := RegisterRestIntegration();
      ListingSnoc(hookCatalog.entries, HookEntry("rest_api_init", RegisterRoutesCallback));
      route.AddSubscriptions();
      AddSubscriptions();
      host.actions := host.actions + [Action("wp_webhooks_setup", None)];
    }
  }

  /** The static `WP_Webhooks::$singleton` and its `factory`. */
  class Runtime {
    var singleton: WebHooks?

    ghost predicate Valid()
      reads this, singleton, if singleton != null then {singleton.hookCatalog} else {}
    {
      singleton != null ==> singleton.Valid()
    }

    constructor ()
      ensures Valid() && singleton == null
    {
      singleton := null;
    }

    /** `factory( null, $new )`: the existing singleton unless `forceNew` or
        there is none, in which case a fresh, empty instance replaces it. */
    method Factory(forceNew: bool) returns (w: WebHooks)
      requires Valid()
      modifies this
      ensures Valid() && singleton == w && w.Valid()
      ensures !forceNew && old(singleton) != null ==> w == old(singleton)
      ensures forceNew || old(singleton) == null ==>
        fresh(w) && fresh(w.hookCatalog) && w.sendEvents == map[] && w.hookCatalog.entries == []
    {
      if forceNew || singleton == null {
        singleton := new WebHooks();
      }
      w := singleton;
    }
  }

  /** `WP_Webhooks_Route`. */
  class WebhooksRoute {
    var hookCatalog: HookCatalog
    var namespace: Option<string>
    var restBase: Option<string>

    constructor (catalog: HookCatalog)
      ensures hookCatalog == catalog && namespace == None && restBase == None
    {
      hookCatalog := catalog;
      namespace, restBase := None, None;
    }

    /** `add_subscriptions`: `register_routes` on `rest_api_init`. */
    method AddSubscriptions()
      modifies hookCatalog
      ensures hookCatalog.entries == old(hookCatalog.entries) + [HookEntry("rest_api_init", RegisterRoutesCallback)]
    {
      hookCatalog.AddEntry(HookEntry("rest_api_init", RegisterRoutesCallback));
    }

    /** `register_routes`: namespace and base come through their filters
        (`wp_webhooks_namespace`, `wp_webhooks_rest_base`); then the list,
        ping and ping-source routes are registered in that order. */
    method RegisterRoutes(namespaceFilter: string -> string, restBaseFilter: string -> string, host: Host)
      modifies this, host
      ensures namespace == Some(namespaceFilter("webhooks/v1"))
      ensures restBase == Some(restBaseFilter("list"))
      ensures host.routes == old(host.routes) + RouteTable(namespaceFilter("webhooks/v1"), restBaseFilter("list"))
      ensures hookCatalog == old(hookCatalog)
      ensures host.outbox == old(host.outbox) && host.actions == old(host.actions)
    {
      assert DefaultNamespace == "webhooks/v1";
      var ns := namespaceFilter(DefaultNamespace);
      var base := restBaseFilter(DefaultRestBase);
      namespace, restBase := Some(ns), Some(base);
      host.routes := host.routes + [RouteDef(ns, "/" + base, Readable, ListHandler, ReturnTrue)];
      host.routes := host.routes + [RouteDef(ns, PingPath, Readable, PingStatusHandler, PermissionCheck)];
      host.routes := host.routes + [RouteDef(ns, PingSourcePath, AllMethods, PingHandler, PermissionCheck)];
    }

    /** `list`: the current singleton's listing with status 200; like
        `factory()`, it creates the singleton when there is none. */
    method List(rt: Runtime, request: Request) returns (r: Response)
      requires rt.Valid()
      modifies rt
      ensures rt.Valid() && rt.singleton != null
      ensures r.status == 200
      ensures old(rt.singleton) != null ==> rt.singleton == old(rt.singleton) && TableOf(r.data) == Some(old(rt.singleton.sendEvents))
      ensures old(rt.singleton) == null ==> fresh(rt.singleton) && TableOf(r.data) == Some(map[])
    {
      var w := rt.Factory(false);
      r := ListResponse(w.sendEvents);
    }
  }

  /** Two registrations on one hook, then one occurrence of it: two posts,
      in registration order, each with the default body. */
  method RegisterTwiceAndFire()
  {
    var w := new WebHooks();
    w.RegisterSendEvent("order.created", "https://a.test/hook", None);
    w.RegisterSendEvent("order.created", "https://b.test/hook", None);
    assert w.sendEvents["order.created"] == ["https://a.test/hook", "https://b.test/hook"];
    var eventArgs := [Dict(map["id" := Int(42)])];
    var posts := Dispatches(w.hookCatalog.entries, "order.created", eventArgs);
    DispatchMatchesListing(w.hookCatalog.entries, "order.created", eventArgs);
    assert |posts| == 2;
    assert posts[0].target == "https://a.test/hook" && posts[1].target == "https://b.test/hook";
    assert posts[0].args[Name("body")] == Dict(map["action" := Str("order.created")]);
  }
}
