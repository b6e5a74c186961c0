/** sw.js: the service worker. A fetch is classified in a fixed order (the AI API host,
    then navigations, then application assets and images, then everything else) and
    answered by the strategy of its class; stale-while-revalidate stores a network
    response only when it is a 200 answer to a GET; activation deletes every cache but
    the current one.

    The cache storage is a list of cache names (in creation order, the order
    `caches.match` searches) and a map from each name to its entries, keyed by request
    URL. URL parsing and the network are inputs. */
module ServiceWorker {
  import opened Wrappers
  import Types
  import Text

  const CacheName: string := "autoarchitect-v2.6.9-production"
  const ApiHostname: string := "googleapis.com"
  const OfflineMessage: string := "AI Synthesis Engine is currently disconnected. Please re-establish network connection to generate new blueprints."
  const OfflineCode: string := "SYNC_OFFLINE_ERR"

  datatype Url = Url(hostname: string, pathname: string)

  datatype Request = Request(url: string, verb: string, mode: string, destination: string)

  datatype Response = Response(status: int, body: string, contentType: Option<string>)

  /** How the fetch handler answers a request. */
  datatype Strategy =
    | Unhandled              // no `respondWith`: the browser fetches as usual
    | ApiNetwork             // network, with an offline JSON answer on failure
    | NavigationNetwork      // network, with the cached app shell on failure
    | StaleWhileRevalidate   // cached answer first, network refreshes the cache
    | NetworkFirst           // network, with any cached answer on failure

  /** What `respondWith` is given: nothing, or a response promise that settles with a
      response or with none (a network error for the page). */
  datatype FetchReply = NotHandled | Respond(response: Option<Response>)

  // ---------------------------------------------------------------------------------
  // Classification

  /** `isApplicationAsset`. */
  predicate IsApplicationAsset(url: Url) {
    || Text.EndsWith(url.pathname, ".js")
    || Text.EndsWith(url.pathname, ".css")
    || Text.Contains(url.hostname, "fonts.googleapis.com")
    || Text.Contains(url.hostname, "fonts.gstatic.com")
    || Text.Contains(url.hostname, "cdn.tailwindcss.com")
    || Text.Contains(url.hostname, "esm.sh")
    || Text.Contains(url.pathname, "icons")
  }

  /** The fetch handler's decision, `url` being the parse of `request.url` (`None` when
      `new URL` throws). The first matching rule wins. */
  function Classify(url: Option<Url>, req: Request): (s: Strategy)
    ensures s == Unhandled <==> url.None?
    ensures s == ApiNetwork <==> url.Some? && Text.Contains(url.value.hostname, ApiHostname)
    ensures s == NavigationNetwork <==>
      url.Some? && !Text.Contains(url.value.hostname, ApiHostname) && req.mode == "navigate"
    ensures s == StaleWhileRevalidate <==>
      && url.Some? && !Text.Contains(url.value.hostname, ApiHostname) && req.mode != "navigate"
      && (IsApplicationAsset(url.value) || req.destination == "image")
  {
    match url
    case None => Unhandled
    case Some(u) =>
      if Text.Contains(u.hostname, ApiHostname) then ApiNetwork
      else if req.mode == "navigate" then NavigationNetwork
      else if IsApplicationAsset(u) || req.destination == "image" then StaleWhileRevalidate
      else NetworkFirst
  }

  /** Every host containing `fonts.googleapis.com` contains `googleapis.com`, so it takes the
      API route: the font clause of `isApplicationAsset` never decides anything. */
  lemma GoogleFontsTakeApiRoute(url: Url, req: Request)
    requires Text.Contains(url.hostname, "fonts.googleapis.com")
    ensures Classify(Some(url), req) == ApiNetwork
  {
    assert Text.OccursAt("fonts.googleapis.com", ApiHostname, 6);
    Text.ContainsTransitive(url.hostname, "fonts.googleapis.com", ApiHostname);
  }

  /** The asset predicate without its unreachable font clause. */
  predicate IsReachableAsset(url: Url) {
    || Text.EndsWith(url.pathname, ".js")
    || Text.EndsWith(url.pathname, ".css")
    || Text.Contains(url.hostname, "fonts.gstatic.com")
    || Text.Contains(url.hostname, "cdn.tailwindcss.com")
    || Text.Contains(url.hostname, "esm.sh")
    || Text.Contains(url.pathname, "icons")
  }

  /** Dropping the font clause classifies every request the same way. */
  lemma FontClauseUnreachable(url: Url, req: Request)
    ensures Classify(Some(url), req) == StaleWhileRevalidate <==>
      && !Text.Contains(url.hostname, ApiHostname) && req.mode != "navigate"
      && (IsReachableAsset(url) || req.destination == "image")
  {
    if Text.Contains(url.hostname, "fonts.googleapis.com") {
      GoogleFontsTakeApiRoute(url, req);
    }
  }

  // ---------------------------------------------------------------------------------
  // Responses

  /** The offline answer of the API route. */
  function OfflineResponse(): (r: Response)
    ensures r.status == 503 && r.contentType == Some("application/json")
    ensures Text.Contains(r.body, "\"code\":\"" + OfflineCode + "\"")
    ensures Text.Contains(r.body, "\"status\":\"offline\"")
  {
    var status := "\"status\":\"offline\"";
    var code := "\"code\":\"" + OfflineCode + "\"";
    var message := ",\"message\":\"" + OfflineMessage + "\",";
    var body := "{" + status + (message + code + "}");
    Text.ContainsMiddle("{", status, message + code + "}");
    assert body == ("{" + status + message) + code + "}";
    Text.ContainsMiddle("{" + status + message, code, "}");
    Response(503, body, Some("application/json"))
  }

  /** The API route: the network answer, or the offline answer when the network fails. */
  function ApiReply(network: Types.Outcome<Response>): (r: Response)
    ensures network.Resolved? ==> r == network.value
    ensures network.Rejected? ==> r.status == 503
  {
    match network
    case Resolved(resp) => resp
    case Rejected(_) => OfflineResponse()
  }

  /** Whether stale-while-revalidate stores the network response. */
  predicate MayCache(req: Request, resp: Response) {
    resp.status == 200 && req.verb == "GET"
  }

  /** `cachedResponse || networkFetch`: the cached answer whenever there is one, else the
      network answer, else nothing (the failed fetch is caught as `null`). */
  function RevalidateReply(cached: Option<Response>, network: Types.Outcome<Response>): (r: Option<Response>)
    ensures cached.Some? ==> r == cached
    ensures cached.None? && network.Resolved? ==> r == Some(network.value)
    ensures r.None? <==> cached.None? && network.Rejected?
  {
    if cached.Some? then cached
    else if network.Resolved? then Some(network.value)
    else None
  }

  /** What `staleWhileRevalidate` finds in the current cache: its entry for the request,
      and only for a GET (a lookup never matches another method). */
  function CachedCopy(store: map<string, map<string, Response>>, req: Request): (r: Option<Response>)
    ensures r.Some? <==> req.verb == "GET" && CacheName in store && req.url in store[CacheName]
    ensures r.Some? ==> r.value == store[CacheName][req.url]
  {
    if req.verb == "GET" && CacheName in store && req.url in store[CacheName]
    then Some(store[CacheName][req.url]) else None
  }

  /** The current cache after `staleWhileRevalidate`: opened, so empty if it did not exist,
      then holding the network answer when that may be cached. */
  function RevalidatedCache(store: map<string, map<string, Response>>, req: Request, network: Types.Outcome<Response>): (r: map<string, Response>)
    ensures network.Resolved? && MayCache(req, network.value) ==> req.url in r && r[req.url] == network.value
    ensures !(network.Resolved? && MayCache(req, network.value)) ==>
      r == if CacheName in store then store[CacheName] else map[]
    ensures forall u :: u != req.url ==> (u in r <==> CacheName in store && u in store[CacheName])
    ensures forall u :: u in r && u != req.url ==> CacheName in store && u in store[CacheName] && r[u] == store[CacheName][u]
  {
    var before := if CacheName in store then store[CacheName] else map[];
    if network.Resolved? && MayCache(req, network.value) then before[req.url := network.value] else before
  }

  /** The cache at index `i` of `names` exists and holds `key`. */
  predicate HoldsAt(names: seq<string>, store: map<string, map<string, Response>>, key: string, i: int) {
    0 <= i < |names| && names[i] in store && key in store[names[i]]
  }

  /** `caches.match(key)`: the first cache, in creation order, holding the key. */
  function MatchAny(names: seq<string>, store: map<string, map<string, Response>>, key: string): (r: Option<Response>)
    ensures r.Some? <==> exists i :: HoldsAt(names, store, key, i)
    ensures r.Some? ==> exists i :: HoldsAt(names, store, key, i) && r.value == store[names[i]][key]
                                    && forall j :: 0 <= j < i ==> !HoldsAt(names, store, key, j)
  {
    if names == [] then None
    else if HoldsAt(names, store, key, 0) then Some(store[names[0]][key])
    else
      var r := MatchAny(names[1..], store, key);
      ShiftHolds(names, store, key);
      if r.Some? then
        var i :| HoldsAt(names[1..], store, key, i) && r.value == store[names[1..][i]][key]
                 && forall j :: 0 <= j < i ==> !HoldsAt(names[1..], store, key, j);
        assert HoldsAt(names, store, key, i + 1) && names[i + 1] == names[1..][i];
        r
      else r
  }

  /** Dropping the first name shifts every index down by one. */
  lemma ShiftHolds(names: seq<string>, store: map<string, map<string, Response>>, key: string)
    requires names != []
    ensures forall i | 1 <= i :: HoldsAt(names, store, key, i) <==> HoldsAt(names[1..], store, key, i - 1)
  {
    forall i | 1 <= i
      ensures HoldsAt(names, store, key, i) <==> HoldsAt(names[1..], store, key, i - 1)
    {
      if i < |names| {
        assert names[1..][i - 1] == names[i];
      }
    }
  }


  /** The navigation fallback as written: `caches.match('index.html') || caches.match('./')`
      tests a promise, which is always truthy, so only `index.html` is looked up. */
  function NavigationFallbackAsWritten(names: seq<string>, store: map<string, map<string, Response>>): (r: Option<Response>)
    ensures r.None? <==> forall i :: !HoldsAt(names, store, "index.html", i)
    ensures r.Some? ==> exists i :: HoldsAt(names, store, "index.html", i) && r.value == store[names[i]]["index.html"]
  {
    MatchAny(names, store, "index.html")
  }

  /** The navigation fallback intended: `index.html`, or else the cached root `./`. */
  function NavigationFallback(names: seq<string>, store: map<string, map<string, Response>>): (r: Option<Response>)
    ensures r.None? <==> MatchAny(names, store, "index.html").None? && MatchAny(names, store, "./").None?
  {
    match MatchAny(names, store, "index.html")
    case Some(resp) => Some(resp)
    case None => MatchAny(names, store, "./")
  }

  /** With the shell cached only under `./`, the written fallback answers nothing while the
      intended one answers the shell. */
  lemma NavigationFallbackDiffers(shell: Response)
    ensures var store := map[CacheName := map["./" := shell]];
      && NavigationFallbackAsWritten([CacheName], store).None?
      && NavigationFallback([CacheName], store) == Some(shell)
  {
    var store := map[CacheName := map["./" := shell]];
    assert MatchAny([CacheName], store, "./") == Some(shell);
    assert [CacheName][1..] == [];
  }

  // ---------------------------------------------------------------------------------
  // Cache pruning

  /** The cache names activation keeps. */
  function Prune(names: seq<string>): (kept: seq<string>)
    ensures forall k | k in kept :: k == CacheName
    ensures |kept| <= |names|
  {
    if names == [] then []
    else if names[0] == CacheName then [names[0]] + Prune(names[1..])
    else Prune(names[1..])
  }

  /** `names` without `key`. */
  function Remove(names: seq<string>, key: string): seq<string> {
    if names == [] then []
    else if names[0] == key then Remove(names[1..], key)
    else [names[0]] + Remove(names[1..], key)
  }

  predicate Distinct(names: seq<string>) {
    forall i, j | 0 <= i < j < |names| :: names[i] != names[j]
  }

  /** Activation keeps the current cache exactly when it existed, and nothing else. */
  lemma {:induction false} PruneKeepsCurrent(names: seq<string>)
    ensures CacheName in Prune(names) <==> CacheName in names
    ensures forall k :: k in names && k != CacheName ==> k !in Prune(names)
  {
    if names != [] {
      PruneKeepsCurrent(names[1..]);
      assert names == [names[0]] + names[1..];
    }
  }

  lemma {:induction false} RemoveAppend(a: seq<string>, b: seq<string>, key: string)
    ensures Remove(a + b, key) == Remove(a, key) + Remove(b, key)
  {
    if a != [] {
      RemoveAppend(a[1..], b, key);
      assert (a + b)[0] == a[0] && (a + b)[1..] == a[1..] + b;
    } else {
      assert a + b == b;
    }
  }

  lemma {:induction false} RemoveAbsent(names: seq<string>, key: string)
    requires key !in names
    ensures Remove(names, key) == names
  {
    if names != [] {
      RemoveAbsent(names[1..], key);
    }
  }

  lemma {:induction false} PruneAppend(a: seq<string>, k: string)
    ensures Prune(a + [k]) == Prune(a) + (if k == CacheName then [k] else [])
  {
    if a != [] {
      PruneAppend(a[1..], k);
      assert (a + [k])[1..] == a[1..] + [k];
    }
  }

  lemma {:induction false} DistinctRemove(names: seq<string>, key: string)
    requires Distinct(names)
    ensures Distinct(Remove(names, key))
    ensures forall k :: k in Remove(names, key) <==> k in names && k != key
  {
    if names != [] {
      var rest := Remove(names[1..], key);
      assert Distinct(names[1..]) by {
        forall i, j | 0 <= i < j < |names[1..]| ensures names[1..][i] != names[1..][j] {
          assert names[1..][i] == names[i + 1] && names[1..][j] == names[j + 1];
        }
      }
      DistinctRemove(names[1..], key);
      assert names[0] !in names[1..] by {
        forall i | 0 <= i < |names[1..]| ensures names[1..][i] != names[0] {
          assert names[1..][i] == names[i + 1];
        }
      }
      if names[0] != key {
        var r := [names[0]] + rest;
        forall i, j | 0 <= i < j < |r| ensures r[i] != r[j] {
          if i == 0 {
            assert r[j] == rest[j - 1] && r[j] in rest;
          } else {
            assert r[i] == rest[i - 1] && r[j] == rest[j - 1];
          }
        }
      }
    }
  }

  lemma RemoveLast(a: seq<string>, key: string)
    requires key !in a
    ensures Remove(a + [key], key) == a
  {
    RemoveAppend(a, [key], key);
    RemoveAbsent(a, key);
    assert Remove([key], key) == [];
  }

  /** Deleting a name that occurs once, between `a` and `b`, leaves `a + b`. */
  lemma RemoveMiddle(a: seq<string>, key: string, b: seq<string>)
    requires key !in a && key !in b
    ensures Remove(a + [key] + b, key) == a + b
  {
    RemoveAppend(a + [key], b, key);
    RemoveLast(a, key);
    RemoveAbsent(b, key);
  }

  lemma DistinctAfter(a: seq<string>, key: string, b: seq<string>)
    requires Distinct(a + [key] + b)
    ensures key !in b
  {
    var names := a + [key] + b;
    forall j | 0 <= j < |b| ensures b[j] != key {
      assert names[|a|] == key && names[|a| + 1 + j] == b[j];
    }
  }

  /** One step of activation: deleting the next name (when it is not the current cache)
      turns the names into the kept prefix followed by the rest. */
  lemma PruneStep(keys: seq<string>, i: nat)
    requires i < |keys| && Distinct(Prune(keys[..i]) + keys[i..])
    ensures keys[i] != CacheName ==> Remove(Prune(keys[..i]) + keys[i..], keys[i]) == Prune(keys[..i + 1]) + keys[i + 1..]
    ensures keys[i] == CacheName ==> Prune(keys[..i]) + keys[i..] == Prune(keys[..i + 1]) + keys[i + 1..]
  {
    var key, kept, rest := keys[i], Prune(keys[..i]), keys[i + 1..];
    assert keys[..i + 1] == keys[..i] + [key];
    assert keys[i..] == [key] + rest;
    PruneAppend(keys[..i], key);
    assert kept + keys[i..] == kept + [key] + rest;
    if key != CacheName {
      DistinctAfter(kept, key, rest);
      RemoveMiddle(kept, key, rest);
    }
  }

  /** Activating twice prunes nothing more. */
  lemma {:induction false} PruneIdempotent(names: seq<string>)
    ensures Prune(Prune(names)) == Prune(names)
  {
    if names != [] {
      PruneIdempotent(names[1..]);
      if names[0] == CacheName {
        assert ([names[0]] + Prune(names[1..]))[1..] == Prune(names[1..]);
      }
    }
  }

  // ---------------------------------------------------------------------------------
  // The worker

  class Worker {
    var names: seq<string>
    var store: map<string, map<string, Response>>

    ghost predicate Valid()
      reads this
    {
      Distinct(names) && (forall k :: k in store <==> k in names)
    }

    constructor(existing: seq<string>, entries: map<string, map<string, Response>>)
      requires Distinct(existing) && forall k :: k in entries <==> k in existing
      ensures Valid() && names == existing && store == entries
    {
      names, store := existing, entries;
    }

    /** `caches.delete(key)`. */
    method Delete(key: string)
      requires Valid()
      modifies this
      ensures Valid()
      ensures names == Remove(old(names), key) && store == old(store) - {key}
    {
      DistinctRemove(names, key);
      names := Remove(names, key);
      store := store - {key};
    }

    /** `activate`: delete every cache whose name is not `CACHE_NAME`. */
    method Activate()
      requires Valid()
      modifies this
      ensures Valid()
      ensures names == Prune(old(names))
      ensures forall k :: k in store <==> k == CacheName && CacheName in old(store)
      ensures CacheName in store ==> store[CacheName] == old(store)[CacheName]
    {
      var keys := names;
      for i := 0 to |keys|
        invariant Valid()
        invariant names == Prune(keys[..i]) + keys[i..]
        invariant forall k :: k in store ==> k in old(store) && store[k] == old(store)[k]
      {
        var key := keys[i];
        PruneStep(keys, i);
        if key != CacheName {
          Delete(key);
        }
      }
      assert keys[..|keys|] == keys;
      PruneKeepsCurrent(keys);
    }

    /** `caches.open(CACHE_NAME)`: creates the cache when it does not exist. */
    method OpenCurrent()
      requires Valid()
      modifies this
      ensures Valid() && CacheName in store
      ensures CacheName in old(store) ==> names == old(names) && store == old(store)
      ensures CacheName !in old(store) ==> names == old(names) + [CacheName] && store == old(store)[CacheName := map[]]
    {
      if CacheName !in store {
        names := names + [CacheName];
        store := store[CacheName := map[]];
      }
    }

    /** `staleWhileRevalidate`: answer from the current cache when it holds the request (a
        lookup only matches a GET), and store a 200 answer to a GET. */
    method Revalidate(req: Request, network: Types.Outcome<Response>) returns (reply: Option<Response>)
      requires Valid()
      modifies this
      ensures Valid() && CacheName in store
      ensures reply == RevalidateReply(CachedCopy(old(store), req), network)
      ensures store == old(store)[CacheName := RevalidatedCache(old(store), req, network)]
      ensures names == if CacheName in old(store) then old(names) else old(names) + [CacheName]
      ensures forall k :: k in store && k != CacheName ==> k in old(store) && store[k] == old(store)[k]
    {
      OpenCurrent();
      var cache := store[CacheName];
      var cached: Option<Response> := None;
      if req.verb == "GET" && req.url in cache {
        cached := Some(cache[req.url]);
      }
      if network.Resolved? && network.value.status == 200 && req.verb == "GET" {
        store := store[CacheName := cache[req.url := network.value]];
      }
      reply := RevalidateReply(cached, network);
    }

    /** The `fetch` handler, `url` being the parse of the request URL and `network` how
        `fetch(request)` settled. A failed navigation is answered as written: only
        `index.html` is looked up. */
    method HandleFetch(req: Request, url: Option<Url>, network: Types.Outcome<Response>) returns (reply: FetchReply)
      requires Valid()
      modifies this
      ensures Valid()
      ensures reply.NotHandled? <==> url.None?
      ensures Classify(url, req) == ApiNetwork ==> reply == Respond(Some(ApiReply(network)))
      ensures Classify(url, req) == NavigationNetwork ==>
        reply == Respond(if network.Resolved? then Some(network.value) else NavigationFallbackAsWritten(old(names), old(store)))
      ensures Classify(url, req) == NetworkFirst ==>
        reply == Respond(if network.Resolved? then Some(network.value)
                         else if req.verb == "GET" then MatchAny(old(names), old(store), req.url) else None)
      ensures Classify(url, req) != StaleWhileRevalidate ==> names == old(names) && store == old(store)
      ensures Classify(url, req) == StaleWhileRevalidate ==>
        && reply == Respond(RevalidateReply(CachedCopy(old(store), req), network))
        && store == old(store)[CacheName := RevalidatedCache(old(store), req, network)]
        && names == if CacheName in old(store) then old(names) else old(names) + [CacheName]
    {
      reply := Route(req, url, network, NavigationFallbackAsWritten(names, store));
    }

    /** The handler with the navigation fallback evidently intended: `index.html`, or else
        the cached root `./`. */
    method HandleFetchIntended(req: Request, url: Option<Url>, network: Types.Outcome<Response>) returns (reply: FetchReply)
      requires Valid()
      modifies this
      ensures Valid()
      ensures reply.NotHandled? <==> url.None?
      ensures Classify(url, req) == ApiNetwork ==> reply == Respond(Some(ApiReply(network)))
      ensures Classify(url, req) == NavigationNetwork ==>
        reply == Respond(if network.Resolved? then Some(network.value) else NavigationFallback(old(names), old(store)))
      ensures Classify(url, req) == NetworkFirst ==>
        reply == Respond(if network.Resolved? then Some(network.value)
                         else if req.verb == "GET" then MatchAny(old(names), old(store), req.url) else None)
      ensures Classify(url, req) != StaleWhileRevalidate ==> names == old(names) && store == old(store)
      ensures Classify(url, req) == StaleWhileRevalidate ==>
        && reply == Respond(RevalidateReply(CachedCopy(old(store), req), network))
        && store == old(store)[CacheName := RevalidatedCache(old(store), req, network)]
        && names == if CacheName in old(store) then old(names) else old(names) + [CacheName]
    {
      reply := Route(req, url, network, NavigationFallback(names, store));
    }

    /** The routes of the handler, `fallback` being what a failed navigation answers. */
    method Route(req: Request, url: Option<Url>, network: Types.Outcome<Response>, fallback: Option<Response>) returns (reply: FetchReply)
      requires Valid()
      modifies this
      ensures Valid()
      ensures reply.NotHandled? <==> url.None?
      ensures Classify(url, req) == ApiNetwork ==> reply == Respond(Some(ApiReply(network)))
      ensures Classify(url, req) == NavigationNetwork ==>
        reply == Respond(if network.Resolved? then Some(network.value) else fallback)
      ensures Classify(url, req) == NetworkFirst ==>
        reply == Respond(if network.Resolved? then Some(network.value)
                         else if req.verb == "GET" then MatchAny(names, store, req.url) else None)
      ensures Classify(url, req) != StaleWhileRevalidate ==> names == old(names) && store == old(store)
      ensures Classify(url, req) == StaleWhileRevalidate ==>
        && reply == Respond(RevalidateReply(CachedCopy(old(store), req), network))
        && store == old(store)[CacheName := RevalidatedCache(old(store), req, network)]
        && names == if CacheName in old(store) then old(names) else old(names) + [CacheName]
    {
      match Classify(url, req)
      case Unhandled =>
        return NotHandled;
      case ApiNetwork =>
        return Respond(Some(ApiReply(network)));
      case NavigationNetwork =>
        if network.Resolved? {
          return Respond(Some(network.value));
        }
        return Respond(fallback);
      case StaleWhileRevalidate =>
        var r := Revalidate(req, network);
        return Respond(r);
      case NetworkFirst =>
        if network.Resolved? {
          return Respond(Some(network.value));
        }
        if req.verb == "GET" {
          return Respond(MatchAny(names, store, req.url));
        }
        return Respond(None);
    }
  }
}
