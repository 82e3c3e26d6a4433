/**
 * src/pwa/sw.js: the service workers' events over the browser's caches. Workers of several builds
 * install, activate and answer at once; every `await` is a point where any other step may run, and a
 * cache deleted by name goes on taking what a worker still holding it puts.
 */
module ServiceWorker {
  import opened Paths
  import opened Strings
  import opened Wrappers
  import opened SwRules
  import opened Precache
  import opened Addresses

  /** One opened cache, and the name it was opened under. */
  datatype Store = Store(name: Text, kept: map<Url, Response>)

  /** A request a worker has taken on: the worker's cache name, the request and its route. */
  datatype Load = Load(own: Text, request: Request, route: Route)

  /** What a handler is waiting for, with the store it opened. */
  datatype Task =
    | Precaching(at: nat, path: Text)     // a file to keep first
    | Looking(at: nat, load: Load)        // an asset, in the cache
    | Fetching(at: nat, load: Load)       // the network
    | FallingBack(at: nat, load: Load)    // the cache, the network having failed
    | Keeping(at: nat, key: Url, response: Response, due: Option<Load>)  // a put, then the answer if one is due
    | Clearing(left: set<Text>)           // deletions of older builds' caches

  /** How a request ended: a response or an error, and the store a kept one came from. */
  datatype Answer = Answer(load: Load, response: Option<Response>, from: Option<nat>)

  datatype Event =
    | Installs(worker: Worker)
    | Activates(worker: Worker)
    | Fetches(worker: Worker, request: Request)
    | Arrives(task: Task, response: Option<Response>)  // none when the fetch fails
    | PutEnds(task: Task, ok: bool)
    | Matched(task: Task)
    | Deletes(task: Task, name: Text)

  const PREFIX: Text := Ascii("boxpilot-")

  function CacheName(worker: Worker): Text { PREFIX + worker.version }

  function KeyOf(site: Place, path: Text): Url { Url(site.origin, path, []) }

  function ShellKey(site: Place): Url { KeyOf(site, SLASH) }

  /** The address a load asks for. */
  function Asked(site: Place, load: Load): Url {
    if load.request.url.None? then ShellKey(site) else load.request.url.value
  }

  /** Where a load's answer is kept and looked for. */
  function LoadKey(site: Place, load: Load): Url {
    if load.route.Shell? then ShellKey(site) else Asked(site, load)
  }

  /**
   * A path that, read as an address, names nothing guarded of this site's, and the shell only if it is the
   * shell's own. One that names another host's address gets an answer no cache may keep.
   */
  predicate SoundPath(site: Place, path: Text) {
    var url := Resolved(site, path);
    url.Some? ==> !Guarded(url.value.path) && (url.value == ShellKey(site) ==> path == SLASH)
  }

  predicate Sound(site: Place, paths: seq<Text>) { forall path <- paths :: SoundPath(site, path) }

  function Precachings(at: nat, paths: seq<Text>): multiset<Task> {
    if paths == [] then multiset{}
    else Precachings(at, paths[..|paths| - 1]) + multiset{Precaching(at, paths[|paths| - 1])}
  }

  /** A response the network gave, and the address it was asked for. */
  datatype Arrival = Arrival(url: Url, response: Response)

  /** `arrived` and `sound` are history: what the network gave, and whether every list installed was sound. */
  datatype State = State(
    names: map<Text, nat>, stores: seq<Store>, tasks: multiset<Task>, answers: seq<Answer>,
    arrived: set<Arrival>, sound: bool)
  {
    /** `caches.open`. */
    function Open(name: Text): State {
      if name in names then this
      else this.(names := names[name := |stores|], stores := stores + [Store(name, map[])])
    }

    function Waits(task: Task): State { this.(tasks := tasks + multiset{task}) }

    function Ends(task: Task): State { this.(tasks := tasks - multiset{task}) }

    function Answers(load: Load, response: Option<Response>, from: Option<nat>): State {
      this.(answers := answers + [Answer(load, response, from)])
    }

    function OnInstall(site: Place, worker: Worker): State {
      var s := Open(CacheName(worker));
      s.(tasks := s.tasks + Precachings(s.names[CacheName(worker)], worker.precache),
         sound := sound && Sound(site, worker.precache))
    }

    /** BoxPilot's caches but the worker's own. */
    function Older(worker: Worker): set<Text> { set name <- names | PREFIX <= name && name != CacheName(worker) }

    function OnActivate(worker: Worker): State { Waits(Clearing(Older(worker))) }

    function OnFetch(site: Place, worker: Worker, request: Request): State {
      var route := RouteFor(request, site.origin);
      if route.Network? then this
      else
        var s := Open(CacheName(worker));
        var at, load := s.names[CacheName(worker)], Load(CacheName(worker), request, route);
        s.Waits(if route.Asset? then Looking(at, load) else Fetching(at, load))
    }

    function Hears(url: Url, response: Response): State { this.(arrived := arrived + {Arrival(url, response)}) }

    /** A response for a load: kept where it may be, then handed on. */
    function Fetched(site: Place, at: nat, load: Load, response: Response): State {
      if Cacheable(response) && (load.route.Shell? ==> IsShell(response))
      then Waits(Keeping(at, LoadKey(site, load), response, Some(load)))
      else Answers(load, Some(response), None)
    }

    /** No response for a load, or none that could be kept: an asset fails, a page or a static file falls back. */
    function Failed(at: nat, load: Load): State {
      if load.route.Asset? then Answers(load, None, None) else Waits(FallingBack(at, load))
    }

    function Precached(at: nat, path: Text, key: Url, response: Response): State {
      if Cacheable(response) && (path != SLASH || IsShell(response))
      then Waits(Keeping(at, key, response, None))
      else this
    }

    function OnArrival(site: Place, task: Task, response: Option<Response>): State {
      if task !in tasks then this
      else if task.Precaching? then
        var key := Resolved(site, task.path);
        if response.None? || key.None? then Ends(task)
        else Ends(task).Hears(key.value, response.value).Precached(task.at, task.path, key.value, response.value)
      else if task.Fetching? then
        if response.None? then Ends(task).Failed(task.at, task.load)
        else
          Ends(task).Hears(Asked(site, task.load), response.value).Fetched(site, task.at, task.load, response.value)
      else this
    }

    function Stored(at: nat, key: Url, response: Response): State {
      if at >= |stores| then this
      else this.(stores := stores[at := stores[at].(kept := stores[at].kept[key := response])])
    }

    function OnPut(task: Task, ok: bool): State {
      if task !in tasks || !task.Keeping? then this
      else if ok then
        var s := Ends(task).Stored(task.at, task.key, task.response);
        if task.due.None? then s else s.Answers(task.due.value, Some(task.response), None)
      else if task.due.None? then Ends(task)
      else Ends(task).Failed(task.at, task.due.value)
    }

    function OnMatch(site: Place, task: Task): State {
      if task !in tasks || !(task.Looking? || task.FallingBack?) || task.at >= |stores| then this
      else
        var key, kept := LoadKey(site, task.load), stores[task.at].kept;
        if key in kept then Ends(task).Answers(task.load, Some(kept[key]), Some(task.at))
        else if task.Looking? then Ends(task).Waits(Fetching(task.at, task.load))
        else Ends(task).Answers(task.load, None, None)
    }

    function OnDelete(task: Task, name: Text): State {
      if task !in tasks || !task.Clearing? || name !in task.left then this
      else
        var s := this.(names := names - {name}).Ends(task);
        if task.left == {name} then s else s.Waits(Clearing(task.left - {name}))
    }

    function Step(site: Place, event: Event): State {
      match event
      case Installs(worker) => OnInstall(site, worker)
      case Activates(worker) => OnActivate(worker)
      case Fetches(worker, request) => OnFetch(site, worker, request)
      case Arrives(task, response) => OnArrival(site, task, response)
      case PutEnds(task, ok) => OnPut(task, ok)
      case Matched(task) => OnMatch(site, task)
      case Deletes(task, name) => OnDelete(task, name)
    }
  }

  function Run(site: Place, start: State, events: seq<Event>): State {
    if events == [] then start
    else Run(site, start, events[..|events| - 1]).Step(site, events[|events| - 1])
  }

  // --- What is kept, and what is answered from it ---

  /** The network gave this response to a request for this address; any page's will do for the shell's. */
  ghost predicate Given(site: Place, s: State, key: Url, response: Response) {
    if key == ShellKey(site) then exists url :: Arrival(url, response) in s.arrived
    else Arrival(key, response) in s.arrived
  }

  /** A response that may stand under a key. */
  ghost predicate MayStand(site: Place, s: State, key: Url, response: Response) {
    && key.origin == site.origin && Cacheable(response) && Given(site, s, key, response)
    && (s.sound ==> !Guarded(key.path) && (key == ShellKey(site) ==> IsShell(response)))
  }

  ghost predicate StoreOk(site: Place, s: State, store: Store) {
    PREFIX <= store.name ==> forall key <- store.kept :: MayStand(site, s, key, store.kept[key])
  }

  predicate LoadOk(site: Place, load: Load) {
    load.route == RouteFor(load.request, site.origin) && load.route != Network
  }

  predicate Holds(s: State, at: nat, own: Text) { at < |s.stores| && s.stores[at].name == own && PREFIX <= own }

  predicate LoadHeld(site: Place, s: State, at: nat, load: Load) { Holds(s, at, load.own) && LoadOk(site, load) }

  ghost predicate TaskOk(site: Place, s: State, task: Task) {
    match task
    case Precaching(at, path) => at < |s.stores| && PREFIX <= s.stores[at].name && (s.sound ==> SoundPath(site, path))
    case Looking(at, load) => LoadHeld(site, s, at, load)
    case Fetching(at, load) => LoadHeld(site, s, at, load)
    case FallingBack(at, load) => LoadHeld(site, s, at, load)
    case Keeping(at, key, response, due) =>
      && at < |s.stores| && PREFIX <= s.stores[at].name && MayStand(site, s, key, response)
      && (due.Some? ==> LoadHeld(site, s, at, due.value) && Arrival(Asked(site, due.value), response) in s.arrived)
    case Clearing(left) => forall name <- left :: PREFIX <= name
  }

  /**
   * An answer is what the network gave to this address, or a kept response that may stand where this
   * load looks, from the worker's own build.
   */
  ghost predicate AnswerOk(site: Place, s: State, answer: Answer) {
    && LoadOk(site, answer.load)
    && (answer.response.Some? && answer.from.None? ==>
      Arrival(Asked(site, answer.load), answer.response.value) in s.arrived)
    && (answer.from.Some? ==>
      && answer.response.Some?
      && Holds(s, answer.from.value, answer.load.own)
      && MayStand(site, s, LoadKey(site, answer.load), answer.response.value))
  }

  ghost predicate NamesOk(s: State) {
    forall name <- s.names :: s.names[name] < |s.stores| && s.stores[s.names[name]].name == name
  }

  ghost predicate Inv(site: Place, s: State) {
    && NamesOk(s)
    && (forall i | 0 <= i < |s.stores| :: StoreOk(site, s, s.stores[i]))
    && (forall task <- s.tasks :: TaskOk(site, s, task))
    && (forall i | 0 <= i < |s.answers| :: AnswerOk(site, s, s.answers[i]))
  }

  /** Stores keep their names and are only added to; another application's are left as they are. */
  ghost predicate Grown(s: State, t: State) {
    && |s.stores| <= |t.stores|
    && (forall i | 0 <= i < |s.stores| :: t.stores[i].name == s.stores[i].name)
    && (forall i | 0 <= i < |s.stores| :: !(PREFIX <= s.stores[i].name) ==> t.stores[i] == s.stores[i])
    && (forall name <- s.names :: !(PREFIX <= name) ==> name in t.names && t.names[name] == s.names[name])
    && s.arrived <= t.arrived && (t.sound ==> s.sound)
  }

  /** A step leads to a good state, and takes nothing back. */
  ghost predicate Leads(site: Place, s: State, t: State) { Inv(site, t) && Grown(s, t) }

  lemma GrownKeepsStanding(site: Place, s: State, t: State, key: Url, response: Response)
    requires Grown(s, t) && MayStand(site, s, key, response)
    ensures MayStand(site, t, key, response)
  {
  }

  lemma GrownKeepsTask(site: Place, s: State, t: State, task: Task)
    requires Grown(s, t) && TaskOk(site, s, task)
    ensures TaskOk(site, t, task)
  {
    if task.Keeping? { GrownKeepsStanding(site, s, t, task.key, task.response); }
  }

  lemma GrownKeepsAnswer(site: Place, s: State, t: State, answer: Answer)
    requires Grown(s, t) && AnswerOk(site, s, answer)
    ensures AnswerOk(site, t, answer)
  {
    if answer.from.Some? { GrownKeepsStanding(site, s, t, LoadKey(site, answer.load), answer.response.value); }
  }

  lemma GrownKeepsStore(site: Place, s: State, t: State, store: Store)
    requires Grown(s, t) && StoreOk(site, s, store)
    ensures StoreOk(site, t, store)
  {
    if PREFIX <= store.name {
      forall key | key in store.kept ensures MayStand(site, t, key, store.kept[key]) {
        GrownKeepsStanding(site, s, t, key, store.kept[key]);
      }
    }
  }

  /** Steps that leave what waits and what was answered as they are. */
  lemma GrownLeads(site: Place, s: State, t: State)
    requires Inv(site, s) && Grown(s, t) && t.tasks == s.tasks && t.answers == s.answers && NamesOk(t)
    requires forall i | 0 <= i < |t.stores| :: StoreOk(site, t, t.stores[i])
    ensures Leads(site, s, t)
  {
    forall task | task in t.tasks ensures TaskOk(site, t, task) {
      assert task in s.tasks;
      GrownKeepsTask(site, s, t, task);
    }
    forall i | 0 <= i < |t.answers| ensures AnswerOk(site, t, t.answers[i]) {
      GrownKeepsAnswer(site, s, t, s.answers[i]);
    }
  }

  lemma OpenLeads(site: Place, s: State, name: Text)
    requires Inv(site, s) && PREFIX <= name
    ensures Leads(site, s, s.Open(name))
  {
    var t := s.Open(name);
    forall i | 0 <= i < |t.stores| ensures StoreOk(site, t, t.stores[i]) {
      if i < |s.stores| { GrownKeepsStore(site, s, t, s.stores[i]); }
    }
    GrownLeads(site, s, t);
  }

  lemma OpenHolds(s: State, name: Text)
    requires NamesOk(s) && PREFIX <= name
    ensures name in s.Open(name).names && Holds(s.Open(name), s.Open(name).names[name], name)
  {
  }

  lemma HearsLeads(site: Place, s: State, url: Url, response: Response)
    requires Inv(site, s)
    ensures Leads(site, s, s.Hears(url, response))
  {
    var t := s.Hears(url, response);
    forall i | 0 <= i < |t.stores| ensures StoreOk(site, t, t.stores[i]) {
      GrownKeepsStore(site, s, t, s.stores[i]);
    }
    GrownLeads(site, s, t);
  }

  lemma SameFacts(site: Place, s: State, t: State)
    requires Inv(site, s) && t.names == s.names && t.stores == s.stores && t.arrived == s.arrived && t.sound == s.sound
    requires forall task <- t.tasks :: task in s.tasks || TaskOk(site, s, task)
    requires forall i | 0 <= i < |t.answers| :: AnswerOk(site, s, t.answers[i])
    ensures Leads(site, s, t)
  {
    assert Grown(s, t);
    forall task | task in t.tasks ensures TaskOk(site, t, task) { GrownKeepsTask(site, s, t, task); }
    forall i | 0 <= i < |t.answers| ensures AnswerOk(site, t, t.answers[i]) {
      GrownKeepsAnswer(site, s, t, t.answers[i]);
    }
    forall i | 0 <= i < |t.stores| ensures StoreOk(site, t, t.stores[i]) {
      GrownKeepsStore(site, s, t, s.stores[i]);
    }
  }

  lemma WaitsLeads(site: Place, s: State, task: Task)
    requires Inv(site, s) && TaskOk(site, s, task)
    ensures Leads(site, s, s.Waits(task))
  {
    SameFacts(site, s, s.Waits(task));
  }

  lemma EndsLeads(site: Place, s: State, task: Task)
    requires Inv(site, s)
    ensures Leads(site, s, s.Ends(task))
  {
    SameFacts(site, s, s.Ends(task));
  }

  lemma AnswersLeads(site: Place, s: State, load: Load, response: Option<Response>, from: Option<nat>)
    requires Inv(site, s) && AnswerOk(site, s, Answer(load, response, from))
    ensures Leads(site, s, s.Answers(load, response, from))
  {
    SameFacts(site, s, s.Answers(load, response, from));
  }

  lemma StoredLeads(site: Place, s: State, at: nat, key: Url, response: Response)
    requires Inv(site, s) && at < |s.stores| && PREFIX <= s.stores[at].name && MayStand(site, s, key, response)
    ensures Leads(site, s, s.Stored(at, key, response))
  {
    var t := s.Stored(at, key, response);
    assert Grown(s, t);
    assert StoreOk(site, s, s.stores[at]);
    forall i | 0 <= i < |t.stores| ensures StoreOk(site, t, t.stores[i]) {
      GrownKeepsStore(site, s, t, s.stores[i]);
      if i == at { GrownKeepsStore(site, s, t, t.stores[at]); }
    }
    GrownLeads(site, s, t);
  }

  lemma LeadsOn(site: Place, r: State, s: State, t: State)
    requires Leads(site, r, s) && Leads(site, s, t)
    ensures Leads(site, r, t)
  {
  }

  lemma {:induction false} PrecachingsOk(site: Place, s: State, at: nat, paths: seq<Text>)
    requires at < |s.stores| && PREFIX <= s.stores[at].name
    requires s.sound ==> Sound(site, paths)
    ensures forall task <- Precachings(at, paths) :: TaskOk(site, s, task)
  {
    if paths != [] { PrecachingsOk(site, s, at, paths[..|paths| - 1]); }
  }

  /** The history of sound lists may end. */
  lemma SoundLeads(site: Place, s: State, sound: bool)
    requires Inv(site, s)
    ensures Leads(site, s, s.(sound := s.sound && sound))
  {
    var t := s.(sound := s.sound && sound);
    forall i | 0 <= i < |t.stores| ensures StoreOk(site, t, t.stores[i]) {
      GrownKeepsStore(site, s, t, s.stores[i]);
    }
    GrownLeads(site, s, t);
  }

  lemma InstallLeads(site: Place, s: State, worker: Worker)
    requires Inv(site, s)
    ensures Leads(site, s, s.OnInstall(site, worker))
  {
    var name := CacheName(worker);
    OpenLeads(site, s, name);
    OpenHolds(s, name);
    var t := s.Open(name);
    SoundLeads(site, t, Sound(site, worker.precache));
    var u := t.(sound := t.sound && Sound(site, worker.precache));
    LeadsOn(site, s, t, u);
    PrecachingsOk(site, u, u.names[name], worker.precache);
    SameFacts(site, u, s.OnInstall(site, worker));
    LeadsOn(site, s, u, s.OnInstall(site, worker));
  }

  lemma ActivateLeads(site: Place, s: State, worker: Worker)
    requires Inv(site, s)
    ensures Leads(site, s, s.OnActivate(worker))
  {
    WaitsLeads(site, s, Clearing(s.Older(worker)));
  }

  lemma FetchLeads(site: Place, s: State, worker: Worker, request: Request)
    requires Inv(site, s)
    ensures Leads(site, s, s.OnFetch(site, worker, request))
  {
    var route := RouteFor(request, site.origin);
    if !route.Network? {
      OpenLeads(site, s, CacheName(worker));
      OpenHolds(s, CacheName(worker));
      var t := s.Open(CacheName(worker));
      var at, load := t.names[CacheName(worker)], Load(CacheName(worker), request, route);
      var task := if route.Asset? then Looking(at, load) else Fetching(at, load);
      WaitsLeads(site, t, task);
      LeadsOn(site, s, t, t.Waits(task));
    }
  }

  lemma KeyMayStand(site: Place, s: State, load: Load, response: Response)
    requires LoadOk(site, load) && Cacheable(response) && (load.route.Shell? ==> IsShell(response))
    requires Arrival(Asked(site, load), response) in s.arrived
    ensures MayStand(site, s, LoadKey(site, load), response)
  {
    AnsweredRequests(load.request, site.origin);
  }

  lemma FetchedLeads(site: Place, s: State, at: nat, load: Load, response: Response)
    requires Inv(site, s) && LoadHeld(site, s, at, load) && Arrival(Asked(site, load), response) in s.arrived
    ensures Leads(site, s, s.Fetched(site, at, load, response))
  {
    if Cacheable(response) && (load.route.Shell? ==> IsShell(response)) {
      KeyMayStand(site, s, load, response);
      WaitsLeads(site, s, Keeping(at, LoadKey(site, load), response, Some(load)));
    } else {
      AnswersLeads(site, s, load, Some(response), None);
    }
  }

  lemma FailedLeads(site: Place, s: State, at: nat, load: Load)
    requires Inv(site, s) && LoadHeld(site, s, at, load)
    ensures Leads(site, s, s.Failed(at, load))
  {
    if load.route.Asset? {
      AnswersLeads(site, s, load, None, None);
    } else {
      WaitsLeads(site, s, FallingBack(at, load));
    }
  }

  lemma PrecachedLeads(site: Place, s: State, at: nat, path: Text, response: Response)
    requires Inv(site, s) && TaskOk(site, s, Precaching(at, path)) && Resolved(site, path).Some?
    requires Arrival(Resolved(site, path).value, response) in s.arrived
    ensures Leads(site, s, s.Precached(at, path, Resolved(site, path).value, response))
  {
    var key := Resolved(site, path).value;
    if Cacheable(response) && (path != SLASH || IsShell(response)) {
      WaitsLeads(site, s, Keeping(at, key, response, None));
    }
  }

  /** A wait ends and a response comes: what was true of the wait still is. */
  lemma HeardLeads(site: Place, s: State, task: Task, url: Url, response: Response)
    requires Inv(site, s) && task in s.tasks
    ensures var t := s.Ends(task).Hears(url, response);
      Leads(site, s, t) && TaskOk(site, t, task) && Arrival(url, response) in t.arrived
  {
    EndsLeads(site, s, task);
    HearsLeads(site, s.Ends(task), url, response);
    LeadsOn(site, s, s.Ends(task), s.Ends(task).Hears(url, response));
    GrownKeepsTask(site, s, s.Ends(task).Hears(url, response), task);
  }

  lemma ArrivalLeads(site: Place, s: State, task: Task, response: Option<Response>)
    requires Inv(site, s)
    ensures Leads(site, s, s.OnArrival(site, task, response))
  {
    var key := if task.Precaching? then Resolved(site, task.path) else None;
    if task in s.tasks && key.Some? && response.Some? {
      var t := s.Ends(task).Hears(key.value, response.value);
      HeardLeads(site, s, task, key.value, response.value);
      PrecachedLeads(site, t, task.at, task.path, response.value);
      LeadsOn(site, s, t, t.Precached(task.at, task.path, key.value, response.value));
    } else if task in s.tasks && task.Fetching? && response.Some? {
      var t := s.Ends(task).Hears(Asked(site, task.load), response.value);
      HeardLeads(site, s, task, Asked(site, task.load), response.value);
      FetchedLeads(site, t, task.at, task.load, response.value);
      LeadsOn(site, s, t, t.Fetched(site, task.at, task.load, response.value));
    } else if task in s.tasks && (task.Fetching? || task.Precaching?) {
      EndedLeads(site, s, task);
      if task.Fetching? {
        FailedLeads(site, s.Ends(task), task.at, task.load);
        LeadsOn(site, s, s.Ends(task), s.Ends(task).Failed(task.at, task.load));
      }
    }
  }

  lemma EndedLeads(site: Place, s: State, task: Task)
    requires Inv(site, s) && task in s.tasks
    ensures Leads(site, s, s.Ends(task)) && TaskOk(site, s.Ends(task), task)
  {
    EndsLeads(site, s, task);
    GrownKeepsTask(site, s, s.Ends(task), task);
  }

  lemma StoredTaskLeads(site: Place, s: State, task: Task)
    requires Inv(site, s) && TaskOk(site, s, task) && task.Keeping?
    ensures var t := s.Stored(task.at, task.key, task.response);
      Leads(site, s, t) && TaskOk(site, t, task)
  {
    StoredLeads(site, s, task.at, task.key, task.response);
    GrownKeepsTask(site, s, s.Stored(task.at, task.key, task.response), task);
  }

  lemma PutLeads(site: Place, s: State, task: Task, ok: bool)
    requires Inv(site, s)
    ensures Leads(site, s, s.OnPut(task, ok))
  {
    if task in s.tasks && task.Keeping? {
      var t := s.Ends(task);
      EndedLeads(site, s, task);
      if ok {
        var u := t.Stored(task.at, task.key, task.response);
        StoredTaskLeads(site, t, task);
        LeadsOn(site, s, t, u);
        if task.due.Some? {
          AnswersLeads(site, u, task.due.value, Some(task.response), None);
          LeadsOn(site, s, u, u.Answers(task.due.value, Some(task.response), None));
        }
      } else if task.due.Some? {
        FailedLeads(site, t, task.at, task.due.value);
        LeadsOn(site, s, t, t.Failed(task.at, task.due.value));
      }
    }
  }

  lemma KeptStands(site: Place, s: State, at: nat, key: Url)
    requires Inv(site, s) && at < |s.stores| && PREFIX <= s.stores[at].name && key in s.stores[at].kept
    ensures MayStand(site, s, key, s.stores[at].kept[key])
  {
    assert StoreOk(site, s, s.stores[at]);
  }

  lemma MatchLeads(site: Place, s: State, task: Task)
    requires Inv(site, s)
    ensures Leads(site, s, s.OnMatch(site, task))
  {
    if task in s.tasks && (task.Looking? || task.FallingBack?) && task.at < |s.stores| {
      var t := s.Ends(task);
      EndedLeads(site, s, task);
      var key, kept := LoadKey(site, task.load), s.stores[task.at].kept;
      if key in kept {
        KeptStands(site, t, task.at, key);
        AnswersLeads(site, t, task.load, Some(kept[key]), Some(task.at));
        LeadsOn(site, s, t, t.Answers(task.load, Some(kept[key]), Some(task.at)));
      } else if task.Looking? {
        WaitsLeads(site, t, Fetching(task.at, task.load));
        LeadsOn(site, s, t, t.Waits(Fetching(task.at, task.load)));
      } else {
        AnswersLeads(site, t, task.load, None, None);
        LeadsOn(site, s, t, t.Answers(task.load, None, None));
      }
    }
  }

  lemma UnnamedLeads(site: Place, s: State, name: Text)
    requires Inv(site, s) && PREFIX <= name
    ensures Leads(site, s, s.(names := s.names - {name}))
  {
    var t := s.(names := s.names - {name});
    forall i | 0 <= i < |t.stores| ensures StoreOk(site, t, t.stores[i]) {
      GrownKeepsStore(site, s, t, s.stores[i]);
    }
    GrownLeads(site, s, t);
  }

  lemma DeleteLeads(site: Place, s: State, task: Task, name: Text)
    requires Inv(site, s)
    ensures Leads(site, s, s.OnDelete(task, name))
  {
    if task in s.tasks && task.Clearing? && name in task.left {
      assert TaskOk(site, s, task);
      var t := s.(names := s.names - {name});
      UnnamedLeads(site, s, name);
      EndsLeads(site, t, task);
      LeadsOn(site, s, t, t.Ends(task));
      if task.left != {name} {
        WaitsLeads(site, t.Ends(task), Clearing(task.left - {name}));
        LeadsOn(site, s, t.Ends(task), t.Ends(task).Waits(Clearing(task.left - {name})));
      }
    }
  }

  lemma StepLeads(site: Place, s: State, event: Event)
    requires Inv(site, s)
    ensures Leads(site, s, s.Step(site, event))
  {
    match event {
      case Installs(worker) => InstallLeads(site, s, worker);
      case Activates(worker) => ActivateLeads(site, s, worker);
      case Fetches(worker, request) => FetchLeads(site, s, worker, request);
      case _ => TaskStepLeads(site, s, event);
    }
  }

  /** What a task waited for has come. */
  lemma TaskStepLeads(site: Place, s: State, event: Event)
    requires Inv(site, s) && !event.Installs? && !event.Activates? && !event.Fetches?
    ensures Leads(site, s, s.Step(site, event))
  {
    match event {
      case Arrives(task, response) => ArrivalLeads(site, s, task, response);
      case PutEnds(task, ok) => PutLeads(site, s, task, ok);
      case Matched(task) => MatchLeads(site, s, task);
      case Deletes(task, name) => DeleteLeads(site, s, task, name);
    }
  }

  /** A browser no BoxPilot worker has run in; other applications' caches may hold anything. */
  ghost predicate Untouched(s: State) {
    && s.tasks == multiset{} && s.answers == [] && s.arrived == {} && s.sound
    && (forall i | 0 <= i < |s.stores| :: !(PREFIX <= s.stores[i].name))
    && NamesOk(s)
  }

  lemma {:induction false} EveryRunLeads(site: Place, start: State, events: seq<Event>)
    requires Untouched(start)
    ensures Leads(site, start, Run(site, start, events))
  {
    if events != [] {
      var before := Run(site, start, events[..|events| - 1]);
      EveryRunLeads(site, start, events[..|events| - 1]);
      StepLeads(site, before, events[|events| - 1]);
      LeadsOn(site, start, before, Run(site, start, events));
    }
  }

  ghost predicate InstallsSound(site: Place, event: Event) { event.Installs? ==> Sound(site, event.worker.precache) }

  lemma SoundStep(site: Place, s: State, event: Event)
    requires InstallsSound(site, event)
    ensures s.Step(site, event).sound == s.sound
  {
    match event
    case Arrives(task, response) =>
    case PutEnds(task, ok) =>
    case Matched(task) =>
    case Deletes(task, name) =>
    case _ =>
  }

  lemma {:induction false} SoundRun(site: Place, start: State, events: seq<Event>)
    requires start.sound && forall i | 0 <= i < |events| :: InstallsSound(site, events[i])
    ensures Run(site, start, events).sound
  {
    if events != [] {
      SoundRun(site, start, events[..|events| - 1]);
      SoundStep(site, Run(site, start, events[..|events| - 1]), events[|events| - 1]);
    }
  }

  /** Nothing guarded is kept in BoxPilot's caches, and under the shell's address stands a shell. */
  ghost predicate KeepsTheRules(site: Place, s: State) {
    forall at, key | 0 <= at < |s.stores| && PREFIX <= s.stores[at].name && key in s.stores[at].kept ::
      !Guarded(key.path) && (key == ShellKey(site) ==> IsShell(s.stores[at].kept[key]))
  }

  /**
   * In every run whose workers install sound lists: nothing under the API, sign-in, the well-known
   * addresses or the CA certificate is kept, and what stands under "/" is a shell.
   */
  lemma NothingPrivateIsKept(site: Place, start: State, events: seq<Event>)
    requires Untouched(start) && forall i | 0 <= i < |events| :: InstallsSound(site, events[i])
    ensures KeepsTheRules(site, Run(site, start, events))
  {
    EveryRunLeads(site, start, events);
    SoundRun(site, start, events);
    var s := Run(site, start, events);
    forall at, key | 0 <= at < |s.stores| && PREFIX <= s.stores[at].name && key in s.stores[at].kept
      ensures !Guarded(key.path) && (key == ShellKey(site) ==> IsShell(s.stores[at].kept[key]))
    {
      KeptStands(site, s, at, key);
    }
  }

  /**
   * In every run at all, what is kept was cacheable, and is what the network gave for that very address,
   * or, for the shell's, for some page.
   */
  lemma KeptIsWhatWasGiven(site: Place, start: State, events: seq<Event>, at: nat, key: Url)
    requires Untouched(start)
    requires var s := Run(site, start, events);
      at < |s.stores| && PREFIX <= s.stores[at].name && key in s.stores[at].kept
    ensures var s := Run(site, start, events);
      var kept := s.stores[at].kept[key];
      && key.origin == site.origin && Cacheable(kept)
      && (if key == ShellKey(site) then exists url :: Arrival(url, kept) in s.arrived
          else Arrival(key, kept) in s.arrived)
  {
    EveryRunLeads(site, start, events);
    KeptStands(site, Run(site, start, events), at, key);
  }

  // --- For which lists ---

  const EMPTY: State := State(map[], [], multiset{}, [], {}, true)

  /** A plain answer with no headers: cacheable, and no shell. */
  const BARE: Response := Response(200, Basic, None, None, [])

  lemma BareIsCacheable()
    ensures Cacheable(BARE) && !IsShell(BARE)
  {
  }

  lemma {:induction false} PrecachingsHas(at: nat, paths: seq<Text>, path: Text)
    requires path in paths
    ensures Precaching(at, path) in Precachings(at, paths)
  {
    if path in paths[..|paths| - 1] { PrecachingsHas(at, paths[..|paths| - 1], path); }
  }

  lemma OneMore(site: Place, worker: Worker, events: seq<Event>, event: Event)
    requires InstallsOnly(events, worker) && (event.Installs? ==> event.worker == worker)
    ensures InstallsOnly(events + [event], worker)
    ensures Run(site, EMPTY, events + [event]) == Run(site, EMPTY, events).Step(site, event)
  {
    assert (events + [event])[..|events|] == events;
  }

  /** In every run in which this worker, and no other, is installed. */
  ghost predicate AlwaysKeepsTheRules(site: Place, worker: Worker) {
    forall events: seq<Event> | InstallsOnly(events, worker) :: KeepsTheRules(site, Run(site, EMPTY, events))
  }

  ghost predicate InstallsOnly(events: seq<Event>, worker: Worker) {
    forall i | 0 <= i < |events| && events[i].Installs? :: events[i].worker == worker
  }

  lemma InstalledAlone(site: Place, worker: Worker, path: Text) returns (events: seq<Event>, s: State)
    requires path in worker.precache
    ensures InstallsOnly(events, worker) && Run(site, EMPTY, events) == s
    ensures s.stores == [Store(CacheName(worker), map[])] && Precaching(0, path) in s.tasks
  {
    PrecachingsHas(0, worker.precache, path);
    OneMore(site, worker, [], Installs(worker));
    events, s := [] + [Installs(worker)], EMPTY.Step(site, Installs(worker));
  }

  lemma PrecachedBare(s: State, path: Text, key: Url)
    requires path != SLASH
    ensures s.Precached(0, path, key, BARE) == s.Waits(Keeping(0, key, BARE, None))
  {
    BareIsCacheable();
  }

  lemma BareArrives(site: Place, s: State, path: Text, key: Url)
    requires Precaching(0, path) in s.tasks && path != SLASH && Resolved(site, path) == Some(key)
    ensures s.OnArrival(site, Precaching(0, path), Some(BARE))
         == s.Ends(Precaching(0, path)).Hears(key, BARE).Waits(Keeping(0, key, BARE, None))
  {
    PrecachedBare(s.Ends(Precaching(0, path)).Hears(key, BARE), path, key);
  }

  lemma AnsweredBare(site: Place, worker: Worker, before: seq<Event>, s: State, path: Text, key: Url)
    returns (events: seq<Event>, t: State)
    requires InstallsOnly(before, worker) && Run(site, EMPTY, before) == s
    requires Precaching(0, path) in s.tasks && path != SLASH && Resolved(site, path) == Some(key)
    ensures InstallsOnly(events, worker) && Run(site, EMPTY, events) == t
    ensures t.stores == s.stores && Keeping(0, key, BARE, None) in t.tasks
  {
    var event := Arrives(Precaching(0, path), Some(BARE));
    BareArrives(site, s, path, key);
    OneMore(site, worker, before, event);
    events, t := before + [event], s.Ends(Precaching(0, path)).Hears(key, BARE).Waits(Keeping(0, key, BARE, None));
  }

  lemma KeptBare(site: Place, worker: Worker, before: seq<Event>, s: State, key: Url)
    returns (events: seq<Event>, t: State)
    requires InstallsOnly(before, worker) && Run(site, EMPTY, before) == s
    requires Keeping(0, key, BARE, None) in s.tasks && |s.stores| == 1
    ensures InstallsOnly(events, worker) && Run(site, EMPTY, events) == t
    ensures |t.stores| == 1 && t.stores[0].name == s.stores[0].name
    ensures key in t.stores[0].kept && t.stores[0].kept[key] == BARE
  {
    var event := PutEnds(Keeping(0, key, BARE, None), true);
    OneMore(site, worker, before, event);
    events, t := before + [event], s.Step(site, event);
  }

  /** Installed, answered and kept. */
  lemma UnsoundIsKept(site: Place, worker: Worker, path: Text, key: Url) returns (events: seq<Event>, s: State)
    requires path in worker.precache && path != SLASH && Resolved(site, path) == Some(key)
    ensures InstallsOnly(events, worker) && Run(site, EMPTY, events) == s
    ensures |s.stores| == 1 && s.stores[0].name == CacheName(worker)
    ensures key in s.stores[0].kept && s.stores[0].kept[key] == BARE
  {
    events, s := InstalledAlone(site, worker, path);
    events, s := AnsweredBare(site, worker, events, s, path, key);
    events, s := KeptBare(site, worker, events, s, key);
  }

  lemma SoundKeepsTheRules(site: Place, worker: Worker)
    requires Sound(site, worker.precache)
    ensures AlwaysKeepsTheRules(site, worker)
  {
    forall events: seq<Event> | InstallsOnly(events, worker) ensures KeepsTheRules(site, Run(site, EMPTY, events)) {
      NothingPrivateIsKept(site, EMPTY, events);
    }
  }

  lemma UnsoundNames(site: Place, path: Text)
    requires !SoundPath(site, path)
    ensures path != SLASH && Resolved(site, path).Some?
    ensures Guarded(Resolved(site, path).value.path) || Resolved(site, path).value == ShellKey(site)
  {
    SlashIsSound(site);
  }

  lemma BareBreaksTheRules(site: Place, s: State, worker: Worker, key: Url)
    requires |s.stores| == 1 && s.stores[0].name == CacheName(worker)
    requires key in s.stores[0].kept && s.stores[0].kept[key] == BARE
    requires Guarded(key.path) || key == ShellKey(site)
    ensures !KeepsTheRules(site, s)
  {
    BareIsCacheable();
    assert 0 < |s.stores| && PREFIX <= s.stores[0].name && key in s.stores[0].kept;
  }

  lemma UnsoundBreaksTheRules(site: Place, worker: Worker, path: Text) returns (events: seq<Event>)
    requires path in worker.precache && !SoundPath(site, path)
    ensures InstallsOnly(events, worker) && !KeepsTheRules(site, Run(site, EMPTY, events))
  {
    UnsoundNames(site, path);
    var key := Resolved(site, path).value;
    var s: State;
    events, s := UnsoundIsKept(site, worker, path, key);
    BareBreaksTheRules(site, s, worker, key);
  }

  lemma UnsoundBreaks(site: Place, worker: Worker)
    requires !Sound(site, worker.precache)
    ensures !AlwaysKeepsTheRules(site, worker)
  {
    var path :| path in worker.precache && !SoundPath(site, path);
    var events := UnsoundBreaksTheRules(site, worker, path);
  }

  /** A worker's list leads to no guarded entry and no shell that is not HTML, in any run, exactly when it is sound. */
  lemma RulesKeptExactlyForSoundLists(site: Place, worker: Worker)
    ensures AlwaysKeepsTheRules(site, worker) <==> Sound(site, worker.precache)
  {
    if Sound(site, worker.precache) {
      SoundKeepsTheRules(site, worker);
    } else {
      UnsoundBreaks(site, worker);
    }
  }

  lemma SlashIsSound(site: Place)
    ensures SoundPath(site, SLASH)
  {
    SlashIsPlain();
    PlainIsItsOwnKey(site, SLASH);
    SlashIsOpen();
  }

  lemma SlashIsOpen()
    ensures !Guarded(SLASH)
  {
  }

  /** A build whose paths are plain is sound: its own check is then enough. */
  lemma PlainBuildsAreSound(site: Place, precache: seq<Text>, version: Text)
    requires Build(precache, version).Ok? && forall path <- Build(precache, version).value.precache :: Plain(path)
    ensures Sound(site, Build(precache, version).value.precache)
  {
    BuildKeepsExactly(precache, version);
    forall path <- Build(precache, version).value.precache ensures SoundPath(site, path) {
      PlainIsItsOwnKey(site, path);
    }
  }

  // But the build's check looks at the path as it is spelled.

  /** "/x/../ca.crt" passes it and is kept under "/ca.crt". */
  lemma SpellingGetsPast(site: Place, version: Text) returns (worker: Worker)
    ensures Build([SLASH + ([120] + SLASH + (DOTS + SLASH + Ascii("ca.crt")))], version) == Ok(worker)
    ensures !Sound(site, worker.precache) && !AlwaysKeepsTheRules(site, worker)
  {
    var rest := Ascii("ca.crt");
    var path := SLASH + ([120] + SLASH + (DOTS + SLASH + rest));
    CaCrtIsPlain();
    OutAgain(site, [120], rest);
    NoGuardedStart(path);
    worker := BuiltUnsound(site, path, version);
  }

  /** On a site whose host reads as h, so does "/\h/ca.crt". */
  lemma OwnHostGetsPast(site: Place, host: Text, version: Text) returns (worker: Worker)
    requires site.originOf(host) == Some(site.origin)
    requires host != [] && forall u <- host :: PlainUnit(u) && u != 47
    ensures Build([[47, 92] + (host + SLASH + Ascii("ca.crt"))], version) == Ok(worker)
    ensures !Sound(site, worker.precache) && !AlwaysKeepsTheRules(site, worker)
  {
    var rest := Ascii("ca.crt");
    var path := [47, 92] + (host + SLASH + rest);
    CaCrtIsPlain();
    ByOwnHost(site, host, rest);
    NoGuardedStart(path);
    worker := BuiltUnsound(site, path, version);
  }

  lemma BuiltUnsound(site: Place, path: Text, version: Text) returns (worker: Worker)
    requires Rooted(path) && !Private(path) && !SoundPath(site, path)
    ensures Build([path], version) == Ok(worker) && !Sound(site, worker.precache) && !AlwaysKeepsTheRules(site, worker)
  {
    OnePathKept(path, version);
    worker := Build([path], version).value;
    assert path in worker.precache;
    RulesKeptExactlyForSoundLists(site, worker);
  }

  lemma CaCrtIsGuarded()
    ensures Guarded(SLASH + Ascii("ca.crt"))
  {
    assert Folded(SLASH + Ascii("ca.crt")) == Ascii("/ca.crt");
  }

  lemma CaCrtIsPlain()
    ensures var rest := Ascii("ca.crt");
      && (forall u <- rest :: PlainUnit(u)) && (forall part <- Split(rest) :: PlainPart(part))
      && Guarded(SLASH + rest)
    ensures PlainUnit(120) && PlainPart([120])
  {
    CaCrtIsGuarded();
    CaCrtUnits();
    SplitOne(Ascii("ca.crt"));
    StartsPlainly(Ascii("ca.crt"));
    StartsPlainly([120]);
  }

  lemma CaCrtUnits()
    ensures Ascii("ca.crt") == [99, 97, 46, 99, 114, 116]
  {
  }

  lemma StartsPlainly(part: Text)
    requires part != [] && part[0] in [99, 120]
    ensures PlainPart(part)
  {
    assert Folded(part)[0] == part[0];
  }

  /** A path whose second unit is an "x" or a backslash. */
  lemma NoGuardedStart(path: Text)
    requires |path| >= 3 && path[0] == 47 && path[1] in [120, 92]
    ensures Rooted(path) && !Private(path)
  {
    var p := Folded(path);
    assert p[1] == path[1];
    assert Ascii("/api/")[1] == 97 && Ascii("/oidc/")[1] == 111;
    assert Ascii("/.well-known/")[1] == 46 && Ascii("/ca.crt")[1] == 99;
    assert Ascii("/api")[1] == 97 && Ascii("/oidc")[1] == 111 && Ascii("/.well-known")[1] == 46;
    assert Ascii("//")[1] == 47;
  }

  lemma OnePathKept(path: Text, version: Text)
    requires Rooted(path) && !Private(path)
    ensures Build([path], version) == Ok(Worker(TagOf([path], version), [path]))
  {
    assert [path][..0] == [];
    assert Once([path]) == [path] && Filtered([path]) == [path];
  }

  // --- What is answered ---

  /**
   * In every run: no request for the server's own answers is taken on. An answer is what the network
   * gave to that address, or a kept response of the cache of the worker's own name: to a page load, where
   * sound lists were installed, a shell, and to anything else what the network once gave to the address.
   */
  lemma AnswersAreTheApps(site: Place, start: State, events: seq<Event>, i: nat)
    requires Untouched(start)
    requires i < |Run(site, start, events).answers|
    ensures var s := Run(site, start, events);
      var load := s.answers[i].load;
      load.request.get && load.request.url.Some? && !Guarded(load.request.url.value.path)
    ensures var s := Run(site, start, events);
      var answer := s.answers[i];
      answer.response.Some? && !(answer.from.Some? && answer.load.request.navigate) ==>
        Arrival(Asked(site, answer.load), answer.response.value) in s.arrived
    ensures var s := Run(site, start, events);
      var answer := s.answers[i];
      answer.from.Some? ==>
        && answer.response.Some? && Cacheable(answer.response.value)
        && answer.from.value < |s.stores| && s.stores[answer.from.value].name == answer.load.own
        && (answer.load.request.navigate && (forall j | 0 <= j < |events| :: InstallsSound(site, events[j])) ==>
              IsShell(answer.response.value))
  {
    EveryRunLeads(site, start, events);
    if forall j | 0 <= j < |events| :: InstallsSound(site, events[j]) { SoundRun(site, start, events); }
    var answer := Run(site, start, events).answers[i];
    assert AnswerOk(site, Run(site, start, events), answer);
    AnsweredRequests(answer.load.request, site.origin);
  }

  /** In every run: another application's caches are neither deleted nor written to. */
  lemma OtherCachesAreUntouched(site: Place, start: State, events: seq<Event>, name: Text)
    requires Untouched(start) && name in start.names
    ensures var s := Run(site, start, events);
      name in s.names && s.names[name] < |s.stores| && s.stores[s.names[name]] == start.stores[start.names[name]]
  {
    EveryRunLeads(site, start, events);
  }

  // --- Older builds' caches ---

  /** A worker of this cache installs, or takes on a request. */
  predicate Opens(site: Place, event: Event, name: Text) {
    || (event.Installs? && CacheName(event.worker) == name)
    || (event.Fetches? && CacheName(event.worker) == name && RouteFor(event.request, site.origin) != Network)
  }

  ghost predicate ToBeDeleted(s: State, name: Text) { exists left :: Clearing(left) in s.tasks && name in left }

  lemma {:induction false} PrecachingsOnly(at: nat, paths: seq<Text>)
    ensures forall task <- Precachings(at, paths) :: task.Precaching?
  {
    if paths != [] { PrecachingsOnly(at, paths[..|paths| - 1]); }
  }

  lemma EndsLeaveClearings(s: State, task: Task, left: set<Text>)
    requires !task.Clearing?
    ensures Clearing(left) in s.Ends(task).tasks <==> Clearing(left) in s.tasks
  {
  }

  lemma WaitsLeaveClearings(s: State, task: Task, left: set<Text>)
    requires !task.Clearing?
    ensures Clearing(left) in s.Waits(task).tasks <==> Clearing(left) in s.tasks
  {
  }

  lemma FailedLeavesClearings(s: State, at: nat, load: Load, left: set<Text>)
    ensures Clearing(left) in s.Failed(at, load).tasks <==> Clearing(left) in s.tasks
  {
    WaitsLeaveClearings(s, FallingBack(at, load), left);
  }

  lemma FetchedLeavesClearings(site: Place, s: State, at: nat, load: Load, response: Response, left: set<Text>)
    ensures Clearing(left) in s.Fetched(site, at, load, response).tasks <==> Clearing(left) in s.tasks
  {
    WaitsLeaveClearings(s, Keeping(at, LoadKey(site, load), response, Some(load)), left);
  }

  lemma PrecachedLeavesClearings(s: State, at: nat, path: Text, key: Url, response: Response, left: set<Text>)
    ensures Clearing(left) in s.Precached(at, path, key, response).tasks <==> Clearing(left) in s.tasks
  {
    WaitsLeaveClearings(s, Keeping(at, key, response, None), left);
  }

  lemma ArrivalLeavesClearings(site: Place, s: State, task: Task, response: Option<Response>, left: set<Text>)
    ensures Clearing(left) in s.OnArrival(site, task, response).tasks <==> Clearing(left) in s.tasks
  {
    if task in s.tasks && (task.Precaching? || task.Fetching?) {
      var ended := s.Ends(task);
      EndsLeaveClearings(s, task, left);
      if task.Fetching? && response.None? {
        FailedLeavesClearings(ended, task.at, task.load, left);
      } else if task.Fetching? {
        var asked := Asked(site, task.load);
        FetchedLeavesClearings(site, ended.Hears(asked, response.value), task.at, task.load, response.value, left);
      } else if response.Some? {
        var key := Resolved(site, task.path);
        if key.Some? {
          PrecachedLeavesClearings(
            ended.Hears(key.value, response.value), task.at, task.path, key.value, response.value, left);
        }
      }
    }
  }

  lemma PutLeavesClearings(s: State, task: Task, ok: bool, left: set<Text>)
    ensures Clearing(left) in s.OnPut(task, ok).tasks <==> Clearing(left) in s.tasks
  {
    if task in s.tasks && task.Keeping? {
      EndsLeaveClearings(s, task, left);
      if task.due.Some? { FailedLeavesClearings(s.Ends(task), task.at, task.due.value, left); }
    }
  }

  lemma MatchLeavesClearings(site: Place, s: State, task: Task, left: set<Text>)
    ensures Clearing(left) in s.OnMatch(site, task).tasks <==> Clearing(left) in s.tasks
  {
    if task.Looking? || task.FallingBack? {
      EndsLeaveClearings(s, task, left);
      WaitsLeaveClearings(s.Ends(task), Fetching(task.at, task.load), left);
    }
  }

  /** Any other wait ends and begins without touching the deletions. */
  lemma ClearingsStay(site: Place, s: State, event: Event, left: set<Text>)
    requires !event.Deletes? && !event.Activates?
    ensures Clearing(left) in s.Step(site, event).tasks <==> Clearing(left) in s.tasks
  {
    match event
    case Installs(worker) => PrecachingsOnly(s.Open(CacheName(worker)).names[CacheName(worker)], worker.precache);
    case Fetches(_, _) =>
    case Arrives(task, response) => ArrivalLeavesClearings(site, s, task, response, left);
    case PutEnds(task, ok) => PutLeavesClearings(s, task, ok, left);
    case Matched(task) => MatchLeavesClearings(site, s, task, left);
  }

  lemma NamesStay(site: Place, s: State, event: Event, name: Text)
    requires !event.Deletes? && !Opens(site, event, name)
    ensures name in s.Step(site, event).names <==> name in s.names
  {
    match event
    case Arrives(task, response) =>
    case PutEnds(task, ok) =>
    case Matched(task) =>
    case _ =>
  }

  lemma DeletionGoesOn(s: State, task: Task, gone: Text, name: Text)
    requires name in s.names ==> ToBeDeleted(s, name)
    ensures name in s.OnDelete(task, gone).names ==> ToBeDeleted(s.OnDelete(task, gone), name)
  {
    var t := s.OnDelete(task, gone);
    if t != s && name in t.names {
      var left :| Clearing(left) in s.tasks && name in left;
      assert name != gone;
      if Clearing(left) == task {
        assert Clearing(left - {gone}) in t.tasks;
      } else {
        assert Clearing(left) in t.tasks;
      }
    }
  }

  lemma StillToBeDeleted(site: Place, s: State, event: Event, name: Text)
    requires !Opens(site, event, name) && (name in s.names ==> ToBeDeleted(s, name))
    ensures name in s.Step(site, event).names ==> ToBeDeleted(s.Step(site, event), name)
  {
    if event.Deletes? {
      DeletionGoesOn(s, event.task, event.name, name);
    } else {
      NamesStay(site, s, event, name);
      if name in s.names {
        var left :| Clearing(left) in s.tasks && name in left;
        if !event.Activates? { ClearingsStay(site, s, event, left); }
        assert Clearing(left) in s.Step(site, event).tasks;
      }
    }
  }

  /**
   * Whatever runs between an activation's deletions: an older build's cache that no worker of that build
   * opens again is gone, or a deletion of it still waits.
   */
  lemma {:induction false} ActivationClearsOlderBuilds(
    site: Place, s: State, worker: Worker, events: seq<Event>, name: Text)
    requires name in s.names && Ascii("boxpilot-") <= name && name != Ascii("boxpilot-") + worker.version
    requires forall i | 0 <= i < |events| :: !Opens(site, events[i], name)
    ensures var after := Run(site, s.OnActivate(worker), events);
      name in after.names ==> ToBeDeleted(after, name)
  {
    if events == [] {
      assert Clearing(s.Older(worker)) in s.OnActivate(worker).tasks;
    } else {
      ActivationClearsOlderBuilds(site, s, worker, events[..|events| - 1], name);
      StillToBeDeleted(site, Run(site, s.OnActivate(worker), events[..|events| - 1]), events[|events| - 1], name);
    }
  }

  /** A worker's own cache stays, while only workers of its build activate and no deletion of it waited. */
  lemma {:induction false} OwnCacheStays(site: Place, s: State, name: Text, events: seq<Event>)
    requires name in s.names && !ToBeDeleted(s, name)
    requires forall i | 0 <= i < |events| && events[i].Activates? ::
      name == Ascii("boxpilot-") + events[i].worker.version
    ensures var after := Run(site, s, events);
      name in after.names && !ToBeDeleted(after, name)
  {
    if events != [] {
      var before, event := Run(site, s, events[..|events| - 1]), events[|events| - 1];
      OwnCacheStays(site, s, name, events[..|events| - 1]);
      OwnStays(site, before, event, name);
    }
  }

  lemma OwnStays(site: Place, s: State, event: Event, name: Text)
    requires name in s.names && !ToBeDeleted(s, name)
    requires event.Activates? ==> CacheName(event.worker) == name
    ensures var after := s.Step(site, event);
      name in after.names && !ToBeDeleted(after, name)
  {
    var after := s.Step(site, event);
    if !event.Deletes? && !Opens(site, event, name) { NamesStay(site, s, event, name); }
    forall left | Clearing(left) in after.tasks ensures name !in left {
      if !event.Deletes? && !event.Activates? { ClearingsStay(site, s, event, left); }
    }
  }

  // --- The worker's handlers ---

  class Site {
    const site: Place
    var names: map<Text, nat>
    var stores: seq<Store>
    var tasks: multiset<Task>
    var answers: seq<Answer>
    ghost var arrived: set<Arrival>
    ghost var sound: bool

    ghost function Now(): State
      reads this
    {
      State(names, stores, tasks, answers, arrived, sound)
    }

    ghost predicate Valid()
      reads this
    {
      Inv(site, Now())
    }

    constructor (site: Place, names: map<Text, nat>, stores: seq<Store>)
      ensures this.site == site && Now() == State(names, stores, multiset{}, [], {}, true)
      ensures Untouched(Now()) ==> Valid()
    {
      this.site, this.names, this.stores, tasks, answers := site, names, stores, multiset{}, [];
      arrived, sound := {}, true;
    }

    method Open(name: Text) returns (at: nat)
      modifies this
      ensures Now() == old(Now()).Open(name) && name in names && at == names[name]
    {
      if name !in names {
        names := names[name := |stores|];
        stores := stores + [Store(name, map[])];
      }
      at := names[name];
    }

    method Install(worker: Worker)
      modifies this
      ensures Now() == old(Now()).OnInstall(site, worker)
    {
      var at := Open(CacheName(worker));
      var paths, started := worker.precache, multiset{};
      for i := 0 to |paths|
        invariant started == Precachings(at, paths[..i])
      {
        assert paths[..i + 1][..i] == paths[..i];
        started := started + multiset{Precaching(at, paths[i])};
      }
      assert paths[..|paths|] == paths;
      tasks := tasks + started;
      sound := sound && Sound(site, paths);
    }

    method Activate(worker: Worker)
      modifies this
      ensures Now() == old(Now()).OnActivate(worker)
    {
      var older := set name <- names | PREFIX <= name && name != CacheName(worker);
      tasks := tasks + multiset{Clearing(older)};
    }

    method Delete(task: Task, name: Text)
      requires task in tasks && task.Clearing? && name in task.left
      modifies this
      ensures Now() == old(Now()).OnDelete(task, name)
    {
      names := names - {name};
      tasks := tasks - multiset{task};
      if task.left != {name} { tasks := tasks + multiset{Clearing(task.left - {name})}; }
    }

    method Fetch(worker: Worker, request: Request)
      modifies this
      ensures Now() == old(Now()).OnFetch(site, worker, request)
    {
      var route := RouteFor(request, site.origin);
      if route == Network { return; }
      var at := Open(CacheName(worker));
      var load := Load(CacheName(worker), request, route);
      tasks := tasks + multiset{if route == Asset then Looking(at, load) else Fetching(at, load)};
    }

    method Fail(at: nat, load: Load)
      modifies this
      ensures Now() == old(Now()).Failed(at, load)
    {
      if load.route == Asset {
        answers := answers + [Answer(load, None, None)];
      } else {
        tasks := tasks + multiset{FallingBack(at, load)};
      }
    }

    method KeepFile(at: nat, path: Text, key: Url, response: Response)
      modifies this
      ensures Now() == old(Now()).Precached(at, path, key, response)
    {
      if Cacheable(response) && (path != SLASH || IsShell(response)) {
        tasks := tasks + multiset{Keeping(at, key, response, None)};
      }
    }

    /** A file to keep first has come, or not. */
    method FileArrives(task: Task, response: Option<Response>)
      requires task in tasks && task.Precaching?
      modifies this
      ensures Now() == old(Now()).OnArrival(site, task, response)
    {
      tasks := tasks - multiset{task};
      var key := Resolved(site, task.path);
      if response.None? || key.None? { return; }
      arrived := arrived + {Arrival(key.value, response.value)};
      KeepFile(task.at, task.path, key.value, response.value);
    }

    method KeepAndAnswer(at: nat, load: Load, response: Response)
      modifies this
      ensures Now() == old(Now()).Fetched(site, at, load, response)
    {
      if Cacheable(response) && (load.route == Shell ==> IsShell(response)) {
        tasks := tasks + multiset{Keeping(at, LoadKey(site, load), response, Some(load))};
      } else {
        answers := answers + [Answer(load, Some(response), None)];
      }
    }

    method Arrive(task: Task, response: Option<Response>)
      requires task in tasks && task.Fetching?
      modifies this
      ensures Now() == old(Now()).OnArrival(site, task, response)
    {
      tasks := tasks - multiset{task};
      if response.None? {
        Fail(task.at, task.load);
        return;
      }
      arrived := arrived + {Arrival(Asked(site, task.load), response.value)};
      KeepAndAnswer(task.at, task.load, response.value);
    }

    method Keep(at: nat, key: Url, response: Response)
      requires at < |stores|
      modifies this
      ensures Now() == old(Now()).Stored(at, key, response)
    {
      var store := stores[at];
      stores := stores[at := store.(kept := store.kept[key := response])];
    }

    method Put(task: Task, ok: bool)
      requires task in tasks && task.Keeping? && task.at < |stores|
      modifies this
      ensures Now() == old(Now()).OnPut(task, ok)
    {
      tasks := tasks - multiset{task};
      if ok {
        Keep(task.at, task.key, task.response);
        if task.due.Some? { answers := answers + [Answer(task.due.value, Some(task.response), None)]; }
      } else if task.due.Some? {
        Fail(task.at, task.due.value);
      }
    }

    method Match(task: Task)
      requires task in tasks && (task.Looking? || task.FallingBack?) && task.at < |stores|
      modifies this
      ensures Now() == old(Now()).OnMatch(site, task)
    {
      tasks := tasks - multiset{task};
      var key, kept := LoadKey(site, task.load), stores[task.at].kept;
      if key in kept {
        answers := answers + [Answer(task.load, Some(kept[key]), Some(task.at))];
      } else if task.Looking? {
        tasks := tasks + multiset{Fetching(task.at, task.load)};
      } else {
        answers := answers + [Answer(task.load, None, None)];
      }
    }

    /** One event; what is waited for is what was begun. */
    method Do(event: Event)
      requires Valid()
      modifies this
      ensures Now() == old(Now()).Step(site, event)
    {
      ghost var before := Now();
      match event {
        case Installs(worker) => Install(worker);
        case Activates(worker) => Activate(worker);
        case Fetches(worker, request) => Fetch(worker, request);
        case Arrives(task, response) =>
          if task in tasks && task.Precaching? {
            FileArrives(task, response);
          } else if task in tasks && task.Fetching? {
            Arrive(task, response);
          }
        case PutEnds(task, ok) =>
          if task in tasks && task.Keeping? {
            assert TaskOk(site, before, task);
            Put(task, ok);
          }
        case Matched(task) =>
          if task in tasks && (task.Looking? || task.FallingBack?) {
            assert TaskOk(site, before, task);
            Match(task);
          }
        case Deletes(task, name) =>
          if task in tasks && task.Clearing? && name in task.left { Delete(task, name); }
      }
    }

    /** After any event, what BoxPilot's caches keep was cacheable, and from sound lists nothing of it is guarded. */
    method Handle(event: Event)
      requires Valid()
      modifies this
      ensures Now() == old(Now()).Step(site, event) && Valid()
      ensures forall at, key | 0 <= at < |stores| && PREFIX <= stores[at].name && key in stores[at].kept ::
        Cacheable(stores[at].kept[key]) && (sound ==> !Guarded(key.path))
    {
      StepLeads(site, Now(), event);
      Do(event);
      forall at, key | 0 <= at < |stores| && PREFIX <= stores[at].name && key in stores[at].kept
        ensures Cacheable(stores[at].kept[key]) && (sound ==> !Guarded(key.path))
      {
        KeptStands(site, Now(), at, key);
      }
    }
  }
}
