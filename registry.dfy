/** The send-event registry and dispatcher of `WP_Webhooks` as values: the
    hook catalog's entries, the `send_events` listing they induce, the
    request `send_event` builds, and the posts one occurrence of a hook
    produces. The class that updates these in place is in module Plugin. */
module Registry {
  import opened Values

  /** A user formatter: it receives the request arguments, returns the body. */
  type Formatter = Args -> Value

  /** What a hook-catalog entry runs when its hook fires. */
  datatype Callback =
    | SendEventCallback(target: string, formatter: Option<Formatter>)  // closure built by register_send_event
    | RegisterRoutesCallback                                          // WP_Webhooks_Route::register_routes
    | RegisterSendEventsCallback                                      // WP_Webhooks::register_send_events

  datatype HookEntry = HookEntry(hook: string, callback: Callback)

  /** `send_events`: hook name -> targets. */
  type Table = map<string, seq<string>>

  /** One outbound `wp_remote_post( $target, $args )`. */
  datatype Post = Post(target: string, args: Args)

  const EventHeader := "X-WordPress-Event"

  /** The targets of `hook`; an absent hook has none. */
  function Lookup(t: Table, hook: string): seq<string>
  {
    if hook in t then t[hook] else []
  }

  /** `$send_events[$hook][] = $target`. */
  function Appended(t: Table, hook: string, target: string): (r: Table)
    ensures Lookup(r, hook) == Lookup(t, hook) + [target]
    ensures forall h :: h != hook ==> Lookup(r, h) == Lookup(t, h)
    ensures r.Keys == t.Keys + {hook}
  {
    t[hook := Lookup(t, hook) + [target]]
  }

  /** The listing a sequence of catalog entries induces: every send-event
      entry appends its target under its hook; other entries add nothing. */
  function Listing(entries: seq<HookEntry>): Table
  {
    if entries == [] then map[]
    else
      var last := entries[|entries| - 1];
      var prev := Listing(entries[..|entries| - 1]);
      match last.callback
      case SendEventCallback(target, _) => Appended(prev, last.hook, target)
      case _ => prev
  }

  /** The targets of the send-event entries for `hook`, in catalog order. */
  function CatalogTargets(entries: seq<HookEntry>, hook: string): seq<string>
  {
    if entries == [] then []
    else
      var last := entries[|entries| - 1];
      var prev := CatalogTargets(entries[..|entries| - 1], hook);
      if last.hook == hook && last.callback.SendEventCallback? then prev + [last.callback.target] else prev
  }

  lemma ListingSnoc(entries: seq<HookEntry>, e: HookEntry)
    ensures Listing(entries + [e]) ==
      if e.callback.SendEventCallback? then Appended(Listing(entries), e.hook, e.callback.target)
      else Listing(entries)
  {
    assert (entries + [e])[..|entries|] == entries;
  }

  /** The listing of a hook is exactly the targets registered for it, in
      registration order, and a hook is listed iff it has a target. */
  lemma {:induction false} ListingLookup(entries: seq<HookEntry>, hook: string)
    ensures Lookup(Listing(entries), hook) == CatalogTargets(entries, hook)
    ensures hook in Listing(entries) <==> CatalogTargets(entries, hook) != []
  {
    if entries != [] {
      ListingLookup(entries[..|entries| - 1], hook);
    }
  }

  /** Registering the same (hook, target) twice keeps both copies. */
  lemma NoDeduplication(t: Table, hook: string, target: string)
    ensures Lookup(Appended(Appended(t, hook, target), hook, target), hook) == Lookup(t, hook) + [target, target]
  {
  }

  /** The `headers` entry: exactly one header naming the hook. */
  function Headers(hook: string): Value
  {
    Dict(map[EventHeader := Str(hook)])
  }

  /** The body sent when no formatter is given. */
  function DefaultBody(hook: string): Value
  {
    Dict(map["action" := Str(hook)])
  }

  /** The keys `send_event` writes into `$args`. */
  predicate Reserved(k: Key)
  {
    k == Name("blocking") || k == Name("headers") || k == Name("body")
  }

  /** `$args` as the formatter sees it: `blocking` and `headers` already set. */
  function FormatterInput(hook: string, args: Args): Args
  {
    args[Name("blocking") := Bool(false)][Name("headers") := Headers(hook)]
  }

  /** The arguments `send_event` hands to `wp_remote_post`. */
  function BuildArgs(hook: string, formatter: Option<Formatter>, args: Args): (r: Args)
    ensures r.Keys == args.Keys + {Name("blocking"), Name("headers"), Name("body")}
    ensures r[Name("blocking")] == Bool(false)
    ensures r[Name("headers")] == Dict(map[EventHeader := Str(hook)])
    ensures formatter.None? ==> r[Name("body")] == Dict(map["action" := Str(hook)])
    ensures formatter.Some? ==>
      r[Name("body")] == formatter.value(args[Name("blocking") := Bool(false)][Name("headers") := Dict(map[EventHeader := Str(hook)])])
    ensures forall k :: k in args && !Reserved(k) ==> r[k] == args[k]
  {
    var input := FormatterInput(hook, args);
    input[Name("body") := match formatter case Some(f) => f(input) case None => DefaultBody(hook)]
  }

  /** A request as `send_event` always makes it: non-blocking, with the one
      event header. */
  predicate IsEventRequest(p: Post, hook: string)
  {
    && Name("blocking") in p.args && p.args[Name("blocking")] == Bool(false)
    && Name("headers") in p.args && p.args[Name("headers")] == Headers(hook)
    && Name("body") in p.args
  }

  /** The posts one occurrence of `hook`, fired with `eventArgs`, produces:
      one per send-event entry of that hook, in catalog order. */
  function Dispatches(entries: seq<HookEntry>, hook: string, eventArgs: seq<Value>): seq<Post>
  {
    if entries == [] then []
    else
      var last := entries[|entries| - 1];
      var prev := Dispatches(entries[..|entries| - 1], hook, eventArgs);
      match last.callback
      case SendEventCallback(target, formatter) =>
        if last.hook == hook then prev + [Post(target, BuildArgs(hook, formatter, Positional(eventArgs)))] else prev
      case _ => prev
  }

  /** Each occurrence posts once per registered target, in catalog order,
      and every post is a non-blocking event request carrying the event's
      arguments unchanged. */
  lemma {:induction false} DispatchTargets(entries: seq<HookEntry>, hook: string, eventArgs: seq<Value>)
    ensures |Dispatches(entries, hook, eventArgs)| == |CatalogTargets(entries, hook)|
    ensures forall i :: 0 <= i < |Dispatches(entries, hook, eventArgs)| ==>
      Dispatches(entries, hook, eventArgs)[i].target == CatalogTargets(entries, hook)[i]
    ensures forall i :: 0 <= i < |Dispatches(entries, hook, eventArgs)| ==>
      IsEventRequest(Dispatches(entries, hook, eventArgs)[i], hook)
    ensures forall i, j :: 0 <= i < |Dispatches(entries, hook, eventArgs)| && 0 <= j < |eventArgs| ==>
      Index(j) in Dispatches(entries, hook, eventArgs)[i].args &&
      Dispatches(entries, hook, eventArgs)[i].args[Index(j)] == eventArgs[j]
  {
    if entries != [] {
      DispatchTargets(entries[..|entries| - 1], hook, eventArgs);
    }
  }

  /** What one occurrence posts to is exactly what the listing shows for
      the hook, in the same order. */
  lemma DispatchMatchesListing(entries: seq<HookEntry>, hook: string, eventArgs: seq<Value>)
    ensures |Dispatches(entries, hook, eventArgs)| == |Lookup(Listing(entries), hook)|
    ensures forall i :: 0 <= i < |Dispatches(entries, hook, eventArgs)| ==>
      Dispatches(entries, hook, eventArgs)[i].target == Lookup(Listing(entries), hook)[i]
  {
    ListingLookup(entries, hook);
    DispatchTargets(entries, hook, eventArgs);
  }

  // ---------------------------------------------------------------------
  // The formatter call as PHP 8 performs it

  /** The declared parameters of a formatter, in order, and whether it ends
      in a variadic parameter. */
  datatype Signature = Signature(params: seq<string>, variadic: bool)

  /** Whether PHP 8 can bind the named argument `name` after `positional`
      positional arguments: it must name a parameter not already filled by
      position, or else be collected by a variadic parameter. */
  predicate AcceptsNamed(sig: Signature, positional: nat, name: string)
  {
    if name in sig.params then name !in sig.params[..if positional < |sig.params| then positional else |sig.params|]
    else sig.variadic
  }

  /** The arguments that reach `wp_remote_post` when a hook occurrence runs
      `send_event` as written, under PHP 8. `call_user_func_array` turns the
      string keys `blocking` and `headers` into named arguments; a formatter
      that cannot bind both throws, and nothing is posted (`None`). */
  function SendEventArgsPhp8(hook: string, formatter: Option<Formatter>, sig: Signature, eventArgs: seq<Value>): (r: Option<Args>)
    ensures r.Some? <==>
      formatter.None? || (AcceptsNamed(sig, |eventArgs|, "blocking") && AcceptsNamed(sig, |eventArgs|, "headers"))
    ensures r.Some? ==> r.value == BuildArgs(hook, formatter, Positional(eventArgs))
  {
    if formatter.Some? && !(AcceptsNamed(sig, |eventArgs|, "blocking") && AcceptsNamed(sig, |eventArgs|, "headers"))
    then None
    else Some(BuildArgs(hook, formatter, Positional(eventArgs)))
  }

  /** Any formatter that is not variadic and declares no `$blocking`
      parameter loses every post under PHP 8; for instance one declared
      `function( $post_id )` and fired with one argument. The intended
      request, `BuildArgs`, carries that formatter's body. */
  lemma NamedArgumentsDropPost(hook: string, f: Formatter, sig: Signature, eventArgs: seq<Value>)
    requires !sig.variadic && "blocking" !in sig.params
    ensures SendEventArgsPhp8(hook, Some(f), sig, eventArgs) == None
    ensures SendEventArgsPhp8(hook, Some(f), Signature(["post_id"], false), [Int(42)]) == None
    ensures BuildArgs(hook, Some(f), Positional(eventArgs))[Name("body")] == f(FormatterInput(hook, Positional(eventArgs)))
  {
  }
}
