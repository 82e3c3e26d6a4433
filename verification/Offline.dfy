/**
 * src/pwa/sw.js: what the workers' caches are for. A load whose fetch fails, or whose put does, is looked
 * for in the store it opened and answered from there; an asset is looked for first; and what was kept
 * while the network was there is what answers once it is gone, whatever else runs in between.
 */
module Offline {
  import opened Paths
  import opened Strings
  import opened Wrappers
  import opened SwRules
  import opened Addresses
  import opened Precache
  import opened ServiceWorker

  /** Every page is kept and looked for under "/", anything else under its own address. */
  function KeyFor(site: Place, request: Request): Url
    requires request.url.Some?
  {
    if request.navigate then Url(site.origin, SLASH, []) else request.url.value
  }

  lemma LoadKeyIs(site: Place, load: Load)
    requires LoadOk(site, load)
    ensures load.request.url.Some? && LoadKey(site, load) == KeyFor(site, load.request)
  {
  }

  // --- What waits, and what is kept ---

  /** The event that ends the wait. */
  predicate EndsWait(e: Event, task: Task) {
    match task
    case Precaching(_, _) => e.Arrives? && e.task == task
    case Fetching(_, _) => e.Arrives? && e.task == task
    case Looking(_, _) => e == Matched(task)
    case FallingBack(_, _) => e == Matched(task)
    case Keeping(_, _, _, _) => e.PutEnds? && e.task == task
    case Clearing(_) => e.Deletes? && e.task == task
  }

  predicate Leaves(events: seq<Event>, task: Task) { forall e <- events :: !EndsWait(e, task) }

  lemma InstallKeepsTasks(site: Place, s: State, worker: Worker, task: Task)
    requires task in s.tasks
    ensures task in s.OnInstall(site, worker).tasks
  {
  }

  lemma EndingKeepsTasks(s: State, ended: Task, task: Task)
    requires task in s.tasks && ended != task
    ensures task in s.Ends(ended).tasks
  {
  }

  lemma ArrivalKeepsTasks(site: Place, s: State, ended: Task, response: Option<Response>, task: Task)
    requires task in s.tasks && !EndsWait(Arrives(ended, response), task)
    ensures task in s.OnArrival(site, ended, response).tasks
  {
    if ended.Precaching? || ended.Fetching? { EndingKeepsTasks(s, ended, task); }
  }

  lemma PutKeepsTasks(s: State, ended: Task, ok: bool, task: Task)
    requires task in s.tasks && !EndsWait(PutEnds(ended, ok), task)
    ensures task in s.OnPut(ended, ok).tasks
  {
  }

  lemma FetchKeepsTasks(site: Place, s: State, worker: Worker, request: Request, task: Task)
    requires task in s.tasks
    ensures task in s.OnFetch(site, worker, request).tasks
  {
  }

  lemma MatchKeepsTasks(site: Place, s: State, ended: Task, task: Task)
    requires task in s.tasks && !EndsWait(Matched(ended), task)
    ensures task in s.OnMatch(site, ended).tasks
  {
  }

  lemma DeleteKeepsTasks(s: State, ended: Task, name: Text, task: Task)
    requires task in s.tasks && !EndsWait(Deletes(ended, name), task)
    ensures task in s.OnDelete(ended, name).tasks
  {
  }

  lemma WorkerKeepsTasks(site: Place, s: State, e: Event, task: Task)
    requires task in s.tasks && (e.Installs? || e.Activates? || e.Fetches?)
    ensures task in s.Step(site, e).tasks
  {
    match e
    case Installs(worker) => InstallKeepsTasks(site, s, worker, task);
    case Fetches(worker, request) => FetchKeepsTasks(site, s, worker, request, task);
    case Activates(_) =>
  }

  lemma StepKeepsTasks(site: Place, s: State, e: Event, task: Task)
    requires task in s.tasks && !EndsWait(e, task)
    ensures task in s.Step(site, e).tasks
  {
    match e
    case Arrives(ended, response) => ArrivalKeepsTasks(site, s, ended, response, task);
    case PutEnds(ended, ok) => PutKeepsTasks(s, ended, ok, task);
    case Matched(ended) => MatchKeepsTasks(site, s, ended, task);
    case Deletes(ended, name) => DeleteKeepsTasks(s, ended, name, task);
    case _ => WorkerKeepsTasks(site, s, e, task);
  }

  /** What waits goes on waiting until its own event comes. */
  lemma {:induction false} StillWaits(site: Place, s: State, events: seq<Event>, task: Task)
    requires task in s.tasks && Leaves(events, task)
    ensures task in Run(site, s, events).tasks
  {
    if events != [] {
      StillWaits(site, s, events[..|events| - 1], task);
      assert events[|events| - 1] in events;
      StepKeepsTasks(site, Run(site, s, events[..|events| - 1]), events[|events| - 1], task);
    }
  }

  /** A put into a store under a key that succeeds. */
  predicate Puts(e: Event, at: nat, key: Url) {
    e.PutEnds? && e.ok && e.task.Keeping? && e.task.at == at && e.task.key == key
  }

  /** Nothing is put into the store under the key. */
  predicate Untouching(events: seq<Event>, at: nat, key: Url) { forall e <- events :: !Puts(e, at, key) }

  predicate Has(s: State, at: nat, key: Url, response: Response) {
    at < |s.stores| && key in s.stores[at].kept && s.stores[at].kept[key] == response
  }

  lemma PutKeepsStores(s: State, task: Task, ok: bool, at: nat)
    requires at < |s.stores|
    ensures at < |s.OnPut(task, ok).stores|
    ensures forall key | !Puts(PutEnds(task, ok), at, key) && key in s.stores[at].kept ::
      key in s.OnPut(task, ok).stores[at].kept && s.OnPut(task, ok).stores[at].kept[key] == s.stores[at].kept[key]
  {
  }

  lemma StepKeepsStores(site: Place, s: State, e: Event, at: nat)
    requires at < |s.stores|
    ensures at < |s.Step(site, e).stores|
    ensures !e.PutEnds? ==> s.Step(site, e).stores[at] == s.stores[at]
  {
    match e
    case PutEnds(task, ok) => PutKeepsStores(s, task, ok, at);
    case Arrives(_, _) =>
    case _ =>
  }

  lemma {:induction false} StoreStays(site: Place, s: State, events: seq<Event>, at: nat)
    requires at < |s.stores|
    ensures at < |Run(site, s, events).stores|
  {
    if events != [] {
      StoreStays(site, s, events[..|events| - 1], at);
      StepKeepsStores(site, Run(site, s, events[..|events| - 1]), events[|events| - 1], at);
    }
  }

  /** What is kept stays until something is put in its place, whether or not its cache is deleted by name. */
  lemma {:induction false} KeptStays(site: Place, s: State, events: seq<Event>, at: nat, key: Url, response: Response)
    requires Has(s, at, key, response) && Untouching(events, at, key)
    ensures Has(Run(site, s, events), at, key, response)
  {
    if events != [] {
      var before, e := Run(site, s, events[..|events| - 1]), events[|events| - 1];
      KeptStays(site, s, events[..|events| - 1], at, key, response);
      assert e in events;
      StepKeepsStores(site, before, e, at);
      if e.PutEnds? { PutKeepsStores(before, e.task, e.ok, at); }
    }
  }

  // --- When the network fails ---

  /** The fetch for a load fails, or the put of its response does. */
  predicate Fails(s: State, e: Event, at: nat, load: Load) {
    || (e == Arrives(Fetching(at, load), None) && Fetching(at, load) in s.tasks)
    || (e.PutEnds? && !e.ok && e.task.Keeping? && e.task.at == at && e.task.due == Some(load) && e.task in s.tasks)
  }

  lemma FailureFallsBack(site: Place, s: State, e: Event, at: nat, load: Load)
    requires !load.route.Asset? && Fails(s, e, at, load)
    ensures var failed := s.Step(site, e);
      failed.answers == s.answers && FallingBack(at, load) in failed.tasks && failed.stores == s.stores
  {
  }

  /** The answer a store gives: what it holds under the key, or an error. */
  function FromStore(site: Place, s: State, at: nat, load: Load): Answer
    requires at < |s.stores| && load.request.url.Some?
  {
    var key, kept := KeyFor(site, load.request), s.stores[at].kept;
    if key in kept then Answer(load, Some(kept[key]), Some(at)) else Answer(load, None, None)
  }

  lemma MatchAnswers(site: Place, s: State, at: nat, load: Load)
    requires LoadOk(site, load) && FallingBack(at, load) in s.tasks && at < |s.stores|
    ensures load.request.url.Some?
    ensures s.Step(site, Matched(FallingBack(at, load))).answers == s.answers + [FromStore(site, s, at, load)]
  {
    LoadKeyIs(site, load);
  }

  /**
   * A page load or a static file whose fetch or put fails is not answered yet; it is looked for, and when
   * that lookup runs, whatever ran before it, the answer is exactly what the store it opened then holds for
   * it. It is an error only where that store holds nothing.
   */
  lemma FailedLoadsAreLookedFor(site: Place, s: State, e: Event, at: nat, load: Load, between: seq<Event>)
    requires LoadOk(site, load) && !load.route.Asset? && at < |s.stores| && Fails(s, e, at, load)
    requires Leaves(between, FallingBack(at, load))
    ensures s.Step(site, e).answers == s.answers && load.request.url.Some?
    ensures
      var t := Run(site, s.Step(site, e), between);
      && FallingBack(at, load) in t.tasks && at < |t.stores|
      && t.Step(site, Matched(FallingBack(at, load))).answers == t.answers + [FromStore(site, t, at, load)]
  {
    var failed := s.Step(site, e);
    FailureFallsBack(site, s, e, at, load);
    StillWaits(site, failed, between, FallingBack(at, load));
    StoreStays(site, failed, between, at);
    MatchAnswers(site, Run(site, failed, between), at, load);
  }

  /** An asset's request is looked up in the worker's own cache. */
  lemma AssetsAreLookedUp(site: Place, s: State, worker: Worker, request: Request)
    requires NamesOk(s) && RouteFor(request, site.origin) == Asset
    ensures CacheName(worker) in s.Open(CacheName(worker)).names
    ensures
      var at := s.Open(CacheName(worker)).names[CacheName(worker)];
      var looking := s.Step(site, Fetches(worker, request));
      && at < |looking.stores| && looking.answers == s.answers
      && Looking(at, Load(CacheName(worker), request, Asset)) in looking.tasks
  {
  }

  lemma LookupAnswers(site: Place, s: State, at: nat, load: Load)
    requires LoadOk(site, load) && Looking(at, load) in s.tasks && at < |s.stores|
    ensures load.request.url.Some?
    ensures
      var key, kept := KeyFor(site, load.request), s.stores[at].kept;
      var looked := s.Step(site, Matched(Looking(at, load)));
      if key in kept then
        && looked.answers == s.answers + [Answer(load, Some(kept[key]), Some(at))]
        && looked.tasks == s.tasks - multiset{Looking(at, load)}
      else looked.answers == s.answers && Fetching(at, load) in looked.tasks
  {
    LoadKeyIs(site, load);
  }

  /**
   * An asset is answered from the worker's own cache, with no fetch, where that holds it when the lookup
   * runs; it is fetched only where it does not.
   */
  lemma AssetsComeFromTheCache(site: Place, s: State, worker: Worker, request: Request, between: seq<Event>)
    requires NamesOk(s) && RouteFor(request, site.origin) == Asset
    requires CacheName(worker) in s.Open(CacheName(worker)).names
    requires var at := s.Open(CacheName(worker)).names[CacheName(worker)];
      Leaves(between, Looking(at, Load(CacheName(worker), request, Asset)))
    ensures request.url.Some?
    ensures
      var at, load := s.Open(CacheName(worker)).names[CacheName(worker)], Load(CacheName(worker), request, Asset);
      var t := Run(site, s.Step(site, Fetches(worker, request)), between);
      at < |t.stores| && Looking(at, load) in t.tasks &&
      var key, kept := KeyFor(site, request), t.stores[at].kept;
      var looked := t.Step(site, Matched(Looking(at, load)));
      if key in kept then
        && looked.answers == t.answers + [Answer(load, Some(kept[key]), Some(at))]
        && looked.tasks == t.tasks - multiset{Looking(at, load)}
      else looked.answers == t.answers && Fetching(at, load) in looked.tasks
  {
    var at, load := s.Open(CacheName(worker)).names[CacheName(worker)], Load(CacheName(worker), request, Asset);
    var looking := s.Step(site, Fetches(worker, request));
    AssetsAreLookedUp(site, s, worker, request);
    StillWaits(site, looking, between, Looking(at, load));
    StoreStays(site, looking, between, at);
    LookupAnswers(site, Run(site, looking, between), at, load);
  }

  // --- While the network is there ---

  /** What the caches may take for a load: a cacheable response, and for a page an HTML one. */
  predicate MayKeep(load: Load, response: Response) {
    Cacheable(response) && (load.request.navigate ==> IsShell(response))
  }

  lemma ArrivalIsPut(site: Place, s: State, at: nat, load: Load, response: Response)
    requires LoadOk(site, load) && Fetching(at, load) in s.tasks && at < |s.stores|
    ensures load.request.url.Some?
    ensures
      var heard := s.Step(site, Arrives(Fetching(at, load), Some(response)));
      && heard.stores == s.stores
      && (if MayKeep(load, response)
          then
            && heard.answers == s.answers
            && Keeping(at, KeyFor(site, load.request), response, Some(load)) in heard.tasks
          else heard.answers == s.answers + [Answer(load, Some(response), None)])
  {
    LoadKeyIs(site, load);
  }

  lemma PutIsKept(site: Place, s: State, at: nat, key: Url, response: Response, due: Option<Load>)
    requires Keeping(at, key, response, due) in s.tasks && at < |s.stores|
    ensures
      var put := s.Step(site, PutEnds(Keeping(at, key, response, due), true));
      && Has(put, at, key, response)
      && put.answers == if due.Some? then s.answers + [Answer(due.value, Some(response), None)] else s.answers
  {
  }

  /**
   * What the network gives to a load is handed on. Where it may be kept it is kept first: when its put has
   * ended the store holds it, a page's under "/" and any other under its own address.
   */
  lemma ArrivalsAreKept(site: Place, s: State, at: nat, load: Load, response: Response, between: seq<Event>)
    requires LoadOk(site, load) && Fetching(at, load) in s.tasks && at < |s.stores| && load.request.url.Some?
    requires Leaves(between, Keeping(at, KeyFor(site, load.request), response, Some(load)))
    ensures
      var key, heard := KeyFor(site, load.request), s.Step(site, Arrives(Fetching(at, load), Some(response)));
      if !MayKeep(load, response) then heard.answers == s.answers + [Answer(load, Some(response), None)]
      else
        var t := Run(site, heard, between);
        var put := t.Step(site, PutEnds(Keeping(at, key, response, Some(load)), true));
        && heard.answers == s.answers && Keeping(at, key, response, Some(load)) in t.tasks
        && Has(put, at, key, response) && put.answers == t.answers + [Answer(load, Some(response), None)]
  {
    var key, heard := KeyFor(site, load.request), s.Step(site, Arrives(Fetching(at, load), Some(response)));
    ArrivalIsPut(site, s, at, load, response);
    if MayKeep(load, response) {
      StillWaits(site, heard, between, Keeping(at, key, response, Some(load)));
      StoreStays(site, heard, between, at);
      PutIsKept(site, Run(site, heard, between), at, key, response, Some(load));
    }
  }

  lemma FileWaits(s: State, at: nat, path: Text, key: Url, response: Response)
    requires Cacheable(response) && (path == SLASH ==> IsShell(response))
    ensures s.Precached(at, path, key, response) == s.Waits(Keeping(at, key, response, None))
  {
  }

  lemma FileArrives(site: Place, s: State, at: nat, path: Text, key: Url, response: Response)
    requires Precaching(at, path) in s.tasks && Resolved(site, path) == Some(key)
    ensures s.OnArrival(site, Precaching(at, path), Some(response))
         == s.Ends(Precaching(at, path)).Hears(key, response).Precached(at, path, key, response)
  {
  }

  lemma FileIsPut(site: Place, s: State, at: nat, path: Text, key: Url, response: Response)
    requires Precaching(at, path) in s.tasks && Resolved(site, path) == Some(key)
    requires Cacheable(response) && (path == SLASH ==> IsShell(response))
    ensures
      var heard := s.Step(site, Arrives(Precaching(at, path), Some(response)));
      Keeping(at, key, response, None) in heard.tasks && heard.stores == s.stores
  {
    FileArrives(site, s, at, path, key, response);
    FileWaits(s.Ends(Precaching(at, path)).Hears(key, response), at, path, key, response);
  }

  /** A listed file's cacheable answer is kept under the address its path names; the shell's if it is HTML. */
  lemma FilesAreKept(
    site: Place, s: State, at: nat, path: Text, key: Url, response: Response, between: seq<Event>)
    requires Precaching(at, path) in s.tasks && Resolved(site, path) == Some(key) && at < |s.stores|
    requires Cacheable(response) && (path == SLASH ==> IsShell(response))
    requires Leaves(between, Keeping(at, key, response, None))
    ensures
      var t := Run(site, s.Step(site, Arrives(Precaching(at, path), Some(response))), between);
      Has(t.Step(site, PutEnds(Keeping(at, key, response, None), true)), at, key, response)
  {
    var heard := s.Step(site, Arrives(Precaching(at, path), Some(response)));
    FileIsPut(site, s, at, path, key, response);
    StillWaits(site, heard, between, Keeping(at, key, response, None));
    StoreStays(site, heard, between, at);
    PutIsKept(site, Run(site, heard, between), at, key, response, None);
  }

  // --- From the one to the other ---

  predicate NamedAt(s: State, name: Text, at: nat) { name in s.names && s.names[name] == at }

  predicate Deleting(e: Event, name: Text) { e.Deletes? && e.name == name }

  lemma ArrivalKeepsName(site: Place, s: State, task: Task, response: Option<Response>, name: Text, at: nat)
    requires NamedAt(s, name, at)
    ensures NamedAt(s.OnArrival(site, task, response), name, at)
  {
  }

  lemma PutKeepsName(s: State, task: Task, ok: bool, name: Text, at: nat)
    requires NamedAt(s, name, at)
    ensures NamedAt(s.OnPut(task, ok), name, at)
  {
  }

  lemma MatchKeepsName(site: Place, s: State, task: Task, name: Text, at: nat)
    requires NamedAt(s, name, at)
    ensures NamedAt(s.OnMatch(site, task), name, at)
  {
  }

  lemma StepKeepsName(site: Place, s: State, e: Event, name: Text, at: nat)
    requires NamedAt(s, name, at) && !Deleting(e, name)
    ensures NamedAt(s.Step(site, e), name, at)
  {
    match e
    case Arrives(task, response) => ArrivalKeepsName(site, s, task, response, name, at);
    case PutEnds(task, ok) => PutKeepsName(s, task, ok, name, at);
    case Matched(task) => MatchKeepsName(site, s, task, name, at);
    case _ =>
  }

  lemma {:induction false} NameStays(site: Place, s: State, events: seq<Event>, name: Text, at: nat)
    requires NamedAt(s, name, at) && forall e <- events :: !Deleting(e, name)
    ensures NamedAt(Run(site, s, events), name, at)
  {
    if events != [] {
      NameStays(site, s, events[..|events| - 1], name, at);
      assert events[|events| - 1] in events;
      StepKeepsName(site, Run(site, s, events[..|events| - 1]), events[|events| - 1], name, at);
    }
  }

  lemma LoadIsFetched(site: Place, s: State, worker: Worker, request: Request, at: nat)
    requires NamedAt(s, CacheName(worker), at)
    requires RouteFor(request, site.origin) == Shell || RouteFor(request, site.origin) == Static
    ensures
      var asked := s.Step(site, Fetches(worker, request));
      && Fetching(at, Load(CacheName(worker), request, RouteFor(request, site.origin))) in asked.tasks
      && asked.stores == s.stores
  {
  }

  /**
   * What was kept answers once the network is gone: a page or a static file whose worker's cache holds a
   * response for it, asked for any time later while that cache is not deleted, its fetch failing, is
   * answered with exactly that response, unless another was put in its place meanwhile.
   */
  lemma KeptAnswersOffline(
    site: Place, s: State, worker: Worker, request: Request, at: nat, response: Response,
    since: seq<Event>, before: seq<Event>, between: seq<Event>)
    requires NamedAt(s, CacheName(worker), at)
    requires RouteFor(request, site.origin) == Shell || RouteFor(request, site.origin) == Static
    requires request.url.Some? && Has(s, at, KeyFor(site, request), response)
    requires Untouching(since + before + between, at, KeyFor(site, request))
    requires forall e <- since :: !Deleting(e, CacheName(worker))
    requires var load := Load(CacheName(worker), request, RouteFor(request, site.origin));
      Leaves(before, Fetching(at, load)) && Leaves(between, FallingBack(at, load))
    ensures
      var load := Load(CacheName(worker), request, RouteFor(request, site.origin));
      var asked := Run(site, s, since).Step(site, Fetches(worker, request));
      var failed := Run(site, asked, before).Step(site, Arrives(Fetching(at, load), None));
      var t := Run(site, failed, between);
      t.Step(site, Matched(FallingBack(at, load))).answers == t.answers + [Answer(load, Some(response), Some(at))]
  {
    var load, key := Load(CacheName(worker), request, RouteFor(request, site.origin)), KeyFor(site, request);
    forall e | e in since || e in before || e in between ensures !Puts(e, at, key) {
      assert e in since + before + between;
    }
    var asking := Run(site, s, since);
    KeptStays(site, s, since, at, key, response);
    NameStays(site, s, since, CacheName(worker), at);
    var asked := asking.Step(site, Fetches(worker, request));
    LoadIsFetched(site, asking, worker, request, at);
    var failing := Run(site, asked, before);
    KeptStays(site, asked, before, at, key, response);
    StillWaits(site, asked, before, Fetching(at, load));
    FailureFallsBack(site, failing, Arrives(Fetching(at, load), None), at, load);
    var failed := failing.Step(site, Arrives(Fetching(at, load), None));
    KeptStays(site, failed, between, at, key, response);
    FailedLoadsAreLookedFor(site, failing, Arrives(Fetching(at, load), None), at, load, between);
  }
}
