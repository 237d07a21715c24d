/** service-worker.js: the precache on `install`, the cleanup on `activate`,
    the routing and caching decision of the `fetch` handler, and the drain of
    the SMS outbox run by the `sync` handler. The Cache Storage is a sequence
    of named caches in creation order; each cache maps a URL to a response. */
module ServiceWorker {
  import opened Wrappers
  import Text
  import Database

  const CacheName: string := "emergency-pwa-v1"

  const StaticAssets: seq<string> :=
    ["/", "/index.html", "/app.js", "/styles.css", "/manifest.json", "/images/logo512.ico", "/images/logo236.ico"]

  const OfflinePage: string := "/offline.html"
  const OfflineImage: string := "/images/offline-image.png"
  const SyncTag: string := "emergency-sms-outbox"

  /** Requests to the operator's network APIs bypass the worker. */
  const BypassFragment: string := "/camara/"
  /** Responses for these URLs change often and are never cached. */
  const ApiFragment: string := "/api/"

  datatype Response = Response(status: int, body: string, contentType: string)

  /** `response.ok`. */
  predicate Ok(r: Response) {
    200 <= r.status <= 299
  }

  /** The synthetic answer when the network fails and no fallback applies. */
  const NetworkErrorReply: Response := Response(408, "Network error occurred", "text/plain")

  datatype Mode = Navigate | OtherMode
  datatype Destination = Image | OtherDestination

  datatype Request = Request(url: string, verb: string, mode: Mode, destination: Destination)

  datatype NamedCache = NamedCache(name: string, entries: map<string, Response>)

  function Names(storage: seq<NamedCache>): (ns: seq<string>)
    ensures |ns| == |storage|
  {
    seq(|storage|, i requires 0 <= i < |storage| => storage[i].name)
  }

  /** The names of the caches. */
  function NameSet(storage: seq<NamedCache>): (ns: set<string>)
    ensures forall c | c in storage :: c.name in ns
    decreases |storage|
  {
    if storage == [] then {} else {storage[0].name} + NameSet(storage[1..])
  }

  /** Cache Storage holds at most one cache of each name. */
  predicate DistinctNames(storage: seq<NamedCache>)
    decreases |storage|
  {
    storage == [] || (storage[0].name !in NameSet(storage[1..]) && DistinctNames(storage[1..]))
  }

  /** The entries of the cache `caches.open(name)` returns; empty when there is
      none yet. */
  function Entries(storage: seq<NamedCache>, name: string): (m: map<string, Response>)
    ensures name !in Names(storage) ==> m == map[]
    ensures forall i | 0 <= i < |storage| && storage[i].name == name ::
      (forall j | 0 <= j < i :: storage[j].name != name) ==> m == storage[i].entries
  {
    if storage == [] then map[]
    else if storage[0].name == name then
      assert Names(storage)[0] == name;
      storage[0].entries
    else
      assert forall i | 1 <= i < |storage| :: storage[i] == storage[1..][i - 1];
      assert Names(storage) == [storage[0].name] + Names(storage[1..]);
      Entries(storage[1..], name)
  }

  /** `caches.open(name)` followed by `put` of every entry of `add`: the cache is
      created at the end when missing, and no other cache changes. */
  function UpdateCache(storage: seq<NamedCache>, name: string, add: map<string, Response>): (r: seq<NamedCache>)
    ensures name in Names(r)
    ensures Entries(r, name) == Entries(storage, name) + add
    ensures forall n | n != name :: Entries(r, n) == Entries(storage, n)
  {
    if storage == [] then
      var r := [NamedCache(name, add)];
      assert Names(r)[0] == name;
      r
    else if storage[0].name == name then
      var r := [NamedCache(name, storage[0].entries + add)] + storage[1..];
      assert r[1..] == storage[1..];
      assert Names(r)[0] == name;
      r
    else
      var rest := UpdateCache(storage[1..], name, add);
      var r := [storage[0]] + rest;
      assert r[1..] == rest;
      assert Names(r) == [storage[0].name] + Names(rest);
      r
  }

  /** Opening or filling a cache adds its name and never a second cache of a name. */
  lemma {:induction false} UpdateCacheKeepsNamesDistinct(storage: seq<NamedCache>, name: string, add: map<string, Response>)
    ensures NameSet(UpdateCache(storage, name, add)) == NameSet(storage) + {name}
    ensures DistinctNames(storage) ==> DistinctNames(UpdateCache(storage, name, add))
    decreases |storage|
  {
    var r := UpdateCache(storage, name, add);
    if storage == [] {
      assert r == [NamedCache(name, add)];
      assert r[1..] == [];
    } else if storage[0].name == name {
      assert r[1..] == storage[1..];
    } else {
      UpdateCacheKeepsNamesDistinct(storage[1..], name, add);
      assert r[1..] == UpdateCache(storage[1..], name, add);
    }
  }

  /** The response stored for `url` in the first cache (in creation order)
      holding it. */
  function FirstHit(storage: seq<NamedCache>, url: string): (r: Option<Response>)
    ensures r.None? <==> forall i | 0 <= i < |storage| :: url !in storage[i].entries
    ensures r.Some? ==> exists i | 0 <= i < |storage| ::
      url in storage[i].entries && r.value == storage[i].entries[url] &&
      forall j | 0 <= j < i :: url !in storage[j].entries
  {
    if storage == [] then None
    else if url in storage[0].entries then Some(storage[0].entries[url])
    else
      var r := FirstHit(storage[1..], url);
      assert forall i | 1 <= i < |storage| :: storage[i] == storage[1..][i - 1];
      r
  }

  /** `caches.match`: only GET requests can match. */
  function Match(storage: seq<NamedCache>, url: string, verb: string): Option<Response> {
    if verb == "GET" then FirstHit(storage, url) else None
  }

  /** How the worker answers one `fetch` event. */
  datatype Handling =
    | NotIntercepted
    | Respond(reply: Option<Response>, stored: Option<Response>)

  datatype NetOutcome = Received(response: Response) | NetworkError

  /** `cache.put` succeeds only for GET requests and a full (non-206) response;
      it is not attempted for non-ok responses or API URLs. */
  predicate Cacheable(req: Request, resp: Response) {
    Ok(resp) && !Text.Contains(req.url, ApiFragment) && req.verb == "GET" && resp.status != 206
  }

  /** The answer when the network fails. */
  function Fallback(storage: seq<NamedCache>, req: Request): (r: Option<Response>)
    ensures req.mode == Navigate ==> r == Match(storage, OfflinePage, "GET")
    ensures req.mode != Navigate && req.destination == Image ==> r == Match(storage, OfflineImage, "GET")
    ensures req.mode != Navigate && req.destination != Image ==> r == Some(NetworkErrorReply)
  {
    if req.mode == Navigate then Match(storage, OfflinePage, "GET")
    else if req.destination == Image then Match(storage, OfflineImage, "GET")
    else Some(NetworkErrorReply)
  }

  /** The `fetch` handler: bypass, then cache first, then network, then fallback. */
  function HandleFetch(storage: seq<NamedCache>, req: Request, net: NetOutcome): (h: Handling)
    ensures h.NotIntercepted? <==> Text.Contains(req.url, BypassFragment)
    ensures h.Respond? && Match(storage, req.url, req.verb).Some? ==>
      h == Respond(Match(storage, req.url, req.verb), None)
    ensures h.Respond? && Match(storage, req.url, req.verb).None? && net.Received? ==>
      h.reply == Some(net.response)
    ensures h.Respond? && h.stored.Some? ==>
      Match(storage, req.url, req.verb).None? && net.Received? && Cacheable(req, net.response) &&
      h.stored == h.reply
    ensures h.Respond? && Match(storage, req.url, req.verb).None? && net.Received? && Cacheable(req, net.response) ==>
      h.stored.Some?
    ensures h.Respond? && Match(storage, req.url, req.verb).None? && net.NetworkError? ==>
      h == Respond(Fallback(storage, req), None)
    ensures h.Respond? && h.reply.None? ==>
      net.NetworkError? && (req.mode == Navigate || req.destination == Image)
  {
    if Text.Contains(req.url, BypassFragment) then NotIntercepted
    else match Match(storage, req.url, req.verb)
      case Some(hit) => Respond(Some(hit), None)
      case None =>
        match net
        case Received(resp) => Respond(Some(resp), if Cacheable(req, resp) then Some(resp) else None)
        case NetworkError => Respond(Fallback(storage, req), None)
  }

  /** The Cache Storage after the handler's (unawaited) `cache.put`. */
  function AfterFetch(storage: seq<NamedCache>, req: Request, h: Handling): seq<NamedCache> {
    if h.Respond? && h.stored.Some? then UpdateCache(storage, CacheName, map[req.url := h.stored.value])
    else storage
  }

  /** A cache hit is answered without consulting the network. */
  lemma HitIgnoresNetwork(storage: seq<NamedCache>, req: Request, n1: NetOutcome, n2: NetOutcome)
    requires Match(storage, req.url, req.verb).Some?
    ensures HandleFetch(storage, req, n1) == HandleFetch(storage, req, n2)
  {
  }

  lemma {:induction false} PutMakesHit(storage: seq<NamedCache>, name: string, url: string, resp: Response)
    requires FirstHit(storage, url).None?
    ensures FirstHit(UpdateCache(storage, name, map[url := resp]), url) == Some(resp)
    decreases |storage|
  {
    if storage != [] && storage[0].name != name {
      PutMakesHit(storage[1..], name, url, resp);
    }
  }

  /** A response the handler stores answers the same request next time,
      whatever the network does then. */
  lemma StoredIsServedNext(storage: seq<NamedCache>, req: Request, net: NetOutcome, later: NetOutcome)
    requires HandleFetch(storage, req, net).Respond? && HandleFetch(storage, req, net).stored.Some?
    ensures HandleFetch(AfterFetch(storage, req, HandleFetch(storage, req, net)), req, later) ==
            Respond(HandleFetch(storage, req, net).stored, None)
  {
    var h := HandleFetch(storage, req, net);
    PutMakesHit(storage, CacheName, req.url, h.stored.value);
  }

  /** The caches `activate` keeps: those named `CacheName`, in order. */
  function Current(storage: seq<NamedCache>): (r: seq<NamedCache>)
    ensures forall c | c in r :: c.name == CacheName && c in storage
    ensures forall c | c in storage && c.name == CacheName :: c in r
  {
    if storage == [] then []
    else (if storage[0].name == CacheName then [storage[0]] else []) + Current(storage[1..])
  }

  /** With distinct names, activation leaves at most one cache: the current one. */
  lemma {:induction false} ActivateLeavesAtMostOneCache(storage: seq<NamedCache>)
    requires DistinctNames(storage)
    ensures |Current(storage)| <= 1 && DistinctNames(Current(storage))
    decreases |storage|
  {
    if storage != [] {
      ActivateLeavesAtMostOneCache(storage[1..]);
    }
  }

  lemma {:induction false} CurrentSnoc(storage: seq<NamedCache>, c: NamedCache)
    ensures Current(storage + [c]) == Current(storage) + (if c.name == CacheName then [c] else [])
    decreases |storage|
  {
    if storage == [] {
      assert storage + [c] == [c];
    } else {
      assert (storage + [c])[1..] == storage[1..] + [c];
      CurrentSnoc(storage[1..], c);
    }
  }

  /** Activation removes every other cache and leaves the current one as it
      was; running it again changes nothing. */
  lemma {:induction false} ActivateKeepsCurrentCache(storage: seq<NamedCache>)
    ensures Entries(Current(storage), CacheName) == Entries(storage, CacheName)
    ensures forall n | n != CacheName :: n !in Names(Current(storage))
    ensures Current(Current(storage)) == Current(storage)
    decreases |storage|
  {
    if storage != [] {
      ActivateKeepsCurrentCache(storage[1..]);
      var rest := Current(storage[1..]);
      if storage[0].name == CacheName {
        assert Current(storage) == [storage[0]] + rest;
        assert Current(storage)[1..] == rest;
        assert Names(Current(storage)) == [CacheName] + Names(rest);
      } else {
        assert Current(storage) == rest;
      }
    }
  }

  /** `cache.addAll(StaticAssets)` succeeds only when every asset fetch is ok. */
  predicate AddAllSucceeds(network: map<string, Response>) {
    forall a | a in StaticAssets :: a in network && Ok(network[a])
  }

  function AssetEntries(network: map<string, Response>): (m: map<string, Response>)
    requires AddAllSucceeds(network)
    ensures m.Keys == set a | a in StaticAssets
    ensures forall a | a in StaticAssets :: m[a] == network[a]
  {
    map a | a in StaticAssets :: network[a]
  }

  /** The `install` handler: the cache is opened (created if missing) and then
      filled with all the assets, or with none of them. */
  function Precache(storage: seq<NamedCache>, network: map<string, Response>): (r: (seq<NamedCache>, bool))
    ensures r.1 <==> AddAllSucceeds(network)
    ensures CacheName in Names(r.0)
    ensures Entries(r.0, CacheName) ==
      if r.1 then Entries(storage, CacheName) + AssetEntries(network) else Entries(storage, CacheName)
    ensures forall n | n != CacheName :: Entries(r.0, n) == Entries(storage, n)
  {
    if AddAllSucceeds(network) then (UpdateCache(storage, CacheName, AssetEntries(network)), true)
    else (UpdateCache(storage, CacheName, map[]), false)
  }

  /** Neither fallback URL is precached. */
  lemma FallbacksNotPrecached()
    ensures OfflinePage !in StaticAssets && OfflineImage !in StaticAssets
  {
  }

  /** On a fresh install the worker's cache holds exactly the static assets,
      so a navigation that misses the cache while the network is down gets no
      response at all. */
  lemma FreshInstallLeavesNavigationWithoutFallback(network: map<string, Response>, req: Request)
    requires AddAllSucceeds(network)
    requires req.mode == Navigate && req.url !in StaticAssets && !Text.Contains(req.url, BypassFragment)
    ensures Entries(Precache([], network).0, CacheName).Keys == set a | a in StaticAssets
    ensures HandleFetch(Precache([], network).0, req, NetworkError) == Respond(None, None)
  {
    var s := Precache([], network).0;
    assert s == [NamedCache(CacheName, AssetEntries(network))];
  }

  datatype Message = Message(url: string, headers: map<string, string>, body: string)

  /** A record of the `smsOutbox` store, keyed by `id`. */
  datatype Queued = Queued(id: int, message: Message)

  /** An object store returns its records in ascending key order. */
  predicate KeyOrdered(outbox: seq<Queued>) {
    forall i, j | 0 <= i < j < |outbox| :: outbox[i].id < outbox[j].id
  }

  function Ids(outbox: seq<Queued>): (ids: seq<int>)
    ensures |ids| == |outbox|
  {
    seq(|outbox|, i requires 0 <= i < |outbox| => outbox[i].id)
  }

  /** The outcome of one POST of a pending message: ok, not ok, or thrown. */
  datatype PostOutcome = PostOk | PostNotOk | PostThrew

  /** The outbox after one pass: a record leaves it exactly when its POST was
      ok; the others stay, unaltered and in order. */
  function Drained(outbox: seq<Queued>, post: int -> PostOutcome): (r: seq<Queued>)
    ensures forall q | q in r :: q in outbox && post(q.id) != PostOk
    ensures forall q | q in outbox && post(q.id) != PostOk :: q in r
    ensures KeyOrdered(outbox) ==> KeyOrdered(r)
  {
    if outbox == [] then []
    else
      var rest := Drained(outbox[1..], post);
      if post(outbox[0].id) == PostOk then rest
      else
        assert forall q | q in rest :: q in outbox[1..];
        [outbox[0]] + rest
  }

  lemma {:induction false} DrainedSnoc(outbox: seq<Queued>, q: Queued, post: int -> PostOutcome)
    ensures Drained(outbox + [q], post) == Drained(outbox, post) + (if post(q.id) == PostOk then [] else [q])
    decreases |outbox|
  {
    if outbox == [] {
      assert outbox + [q] == [q];
    } else {
      assert (outbox + [q])[1..] == outbox[1..] + [q];
      DrainedSnoc(outbox[1..], q, post);
    }
  }

  /** One message's failure does not decide another's fate. */
  lemma DrainIsPerMessage(outbox: seq<Queued>, p1: int -> PostOutcome, p2: int -> PostOutcome, q: Queued)
    requires q in outbox && p1(q.id) == p2(q.id)
    ensures q in Drained(outbox, p1) <==> q in Drained(outbox, p2)
  {
  }

  /** The outbox after several passes, oldest first. */
  function DrainedAll(outbox: seq<Queued>, passes: seq<int -> PostOutcome>): seq<Queued>
    decreases |passes|
  {
    if passes == [] then outbox else DrainedAll(Drained(outbox, passes[0]), passes[1..])
  }

  /** A message stays queued until a pass sends it. */
  lemma {:induction false} RepeatedPasses(outbox: seq<Queued>, passes: seq<int -> PostOutcome>, q: Queued)
    ensures q in DrainedAll(outbox, passes) <==>
      q in outbox && forall k | 0 <= k < |passes| :: passes[k](q.id) != PostOk
    decreases |passes|
  {
    if passes != [] {
      RepeatedPasses(Drained(outbox, passes[0]), passes[1..], q);
      assert forall k | 1 <= k < |passes| :: passes[k] == passes[1..][k - 1];
    }
  }

  /** The drain runs only when the database opens and holds the outbox store. */
  predicate DrainRuns(dbOpens: bool, db: Option<set<string>>) {
    dbOpens && Database.Open(Database.WorkerOpener, db).Some? &&
    Database.OutboxStore in Database.Open(Database.WorkerOpener, db).value
  }

  /** When the page created the database, the worker never drains. */
  lemma PageCreatedDatabaseNeverDrains(dbOpens: bool)
    ensures !DrainRuns(dbOpens, Database.AfterOpen(Database.PageOpener, None))
  {
  }

  class Worker {
    var storage: seq<NamedCache>
    var db: Option<set<string>>
    var outbox: seq<Queued>

    /** The worker's view of Cache Storage is well formed. */
    predicate Valid()
      reads this
    {
      DistinctNames(storage)
    }

    constructor(storage0: seq<NamedCache>, db0: Option<set<string>>, outbox0: seq<Queued>)
      requires DistinctNames(storage0)
      ensures Valid()
      ensures storage == storage0 && db == db0 && outbox == outbox0
    {
      storage := storage0;
      db := db0;
      outbox := outbox0;
    }

    /** `install`; `network` holds the responses of the asset fetches that
        did not fail. Returns whether the installation succeeded. */
    method Install(network: map<string, Response>) returns (installed: bool)
      requires Valid()
      modifies this
      ensures Valid()
      ensures (storage, installed) == Precache(old(storage), network)
      ensures db == old(db) && outbox == old(outbox)
    {
      var r := Precache(storage, network);
      if AddAllSucceeds(network) {
        UpdateCacheKeepsNamesDistinct(storage, CacheName, AssetEntries(network));
      } else {
        UpdateCacheKeepsNamesDistinct(storage, CacheName, map[]);
      }
      storage, installed := r.0, r.1;
    }

    /** `activate`: delete every cache whose name is not `CacheName`. */
    method Activate()
      requires Valid()
      modifies this
      ensures Valid()
      ensures storage == Current(old(storage))
      ensures db == old(db) && outbox == old(outbox)
    {
      var names := storage;
      var kept: seq<NamedCache> := [];
      var i := 0;
      while i < |names|
        invariant 0 <= i <= |names|
        invariant kept == Current(names[..i])
        invariant unchanged(this)
      {
        assert names[..i + 1] == names[..i] + [names[i]];
        CurrentSnoc(names[..i], names[i]);
        if names[i].name != CacheName {
          // caches.delete(names[i].name)
        } else {
          kept := kept + [names[i]];
        }
        i := i + 1;
      }
      assert names[..i] == names;
      ActivateLeavesAtMostOneCache(names);
      storage := kept;
    }

    /** `fetch`: answer the request and store the response when the handler does. */
    method OnFetch(req: Request, net: NetOutcome) returns (h: Handling)
      requires Valid()
      modifies this
      ensures Valid()
      ensures h == HandleFetch(old(storage), req, net)
      ensures storage == AfterFetch(old(storage), req, h)
      ensures db == old(db) && outbox == old(outbox)
    {
      h := HandleFetch(storage, req, net);
      if h.Respond? && h.stored.Some? {
        UpdateCacheKeepsNamesDistinct(storage, CacheName, map[req.url := h.stored.value]);
        storage := UpdateCache(storage, CacheName, map[req.url := h.stored.value]);
      }
    }

    /** `sendPendingSMS`: every queued message is attempted once and deleted
        exactly when its POST is ok. `dbOpens` is the outcome of opening the
        database; `post` gives each message's POST outcome. */
    method SendPendingSms(dbOpens: bool, post: int -> PostOutcome) returns (attempted: seq<int>)
      requires Valid()
      modifies this
      ensures Valid()
      ensures DrainRuns(dbOpens, old(db)) ==> attempted == Ids(old(outbox)) && outbox == Drained(old(outbox), post)
      ensures !DrainRuns(dbOpens, old(db)) ==> attempted == [] && outbox == old(outbox)
      ensures db == if dbOpens then Database.AfterOpen(Database.WorkerOpener, old(db)) else old(db)
      ensures storage == old(storage)
    {
      attempted := [];
      if !dbOpens {
        return;
      }
      db := Database.AfterOpen(Database.WorkerOpener, db);
      if db.None? || Database.OutboxStore !in db.value {
        return;
      }
      var pendingMessages := outbox;
      var kept: seq<Queued> := [];
      var i := 0;
      while i < |pendingMessages|
        invariant 0 <= i <= |pendingMessages|
        invariant kept == Drained(pendingMessages[..i], post)
        invariant attempted == Ids(pendingMessages[..i])
        invariant storage == old(storage) && db == Database.AfterOpen(Database.WorkerOpener, old(db))
        invariant Valid()
      {
        var message := pendingMessages[i];
        assert pendingMessages[..i + 1] == pendingMessages[..i] + [message];
        DrainedSnoc(pendingMessages[..i], message, post);
        if post(message.id) != PostOk {
          kept := kept + [message];
        }
        attempted := attempted + [message.id];
        i := i + 1;
      }
      assert pendingMessages[..i] == pendingMessages;
      outbox := kept;
    }

    /** `sync`: only the outbox tag triggers a drain. */
    method OnSync(tag: string, dbOpens: bool, post: int -> PostOutcome) returns (attempted: seq<int>)
      requires Valid()
      modifies this
      ensures Valid()
      ensures tag != SyncTag ==> attempted == [] && outbox == old(outbox) && db == old(db)
      ensures tag == SyncTag && DrainRuns(dbOpens, old(db)) ==>
        attempted == Ids(old(outbox)) && outbox == Drained(old(outbox), post)
      ensures tag == SyncTag && !DrainRuns(dbOpens, old(db)) ==> attempted == [] && outbox == old(outbox)
      ensures tag == SyncTag ==> db == if dbOpens then Database.AfterOpen(Database.WorkerOpener, old(db)) else old(db)
      ensures storage == old(storage)
    {
      attempted := [];
      if tag == SyncTag {
        attempted := SendPendingSms(dbOpens, post);
      }
    }
  }
}
