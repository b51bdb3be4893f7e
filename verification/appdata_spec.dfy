/** What each operation of the per-app data facade does, as functions from the
    facade's state (its app-folder memo, its folder cache, the tree and the
    requests sent to it) to the result and the new state.  The class in
    appdata.dfy is proved to behave exactly like these functions. */
module AppDataSpec {
  import opened Storage

  /** The configuration fixed when the facade is built: the app it serves, the
      instance id from the system configuration (absent when unset), whether
      lookups are redirected through the `appdataroot` mount, and the tree's
      root id and permission policy. */
  datatype Config = Config(
    appId: string,
    instanceId: Option<string>,
    customRoot: bool,
    rootId: nat,
    denied: set<string>)

  /** A cache entry: a resolved folder, or a recorded not-found outcome. */
  datatype Cached = CachedFolder(node: Node) | CachedNotFound

  /** The facade's mutable state together with the tree it works on and the
      requests sent to the tree so far, oldest first. */
  datatype State = State(folder: Option<Node>, folders: map<string, Cached>, store: Store, calls: seq<Call>)

  /** The result of one operation and the state after it. */
  datatype Step<+T> = Step(result: Result<T>, post: State)

  /** `s` after the tree has also received `more`. */
  function Logged(s: State, more: seq<Call>): State
  {
    s.(calls := s.calls + more)
  }

  const AppDataPrefix: string := "appdata_"
  const AppDataRootName: string := "appdataroot"
  const NoInstanceId: string := "no instance id!"
  const RootFolderFailure: string := "Could not get appdata folder"

  function AppFolderFailure(appId: string): string
  {
    "Could not get appdata folder for " + appId
  }

  /** The name of the instance-wide folder all apps share, or a fatal error
      when the instance id is not configured. */
  function AppDataFolderName(instanceId: Option<string>): (r: Result<string>)
    ensures r.Ok? <==> instanceId.Some?
    ensures r.Err? ==> r.error == Fatal(NoInstanceId)
    ensures r.Ok? ==> |r.value| == |AppDataPrefix| + |instanceId.value|
                      && r.value[..|AppDataPrefix|] == AppDataPrefix
                      && r.value[|AppDataPrefix|..] == instanceId.value
  {
    match instanceId
    case None => Err(Fatal(NoInstanceId))
    case Some(id) => Ok(AppDataPrefix + id)
  }

  /** The key under which the cache remembers folder `name` of app `appId`. */
  function CacheKey(appId: string, name: string): (key: string)
    ensures |key| == |appId| + 1 + |name|
    ensures key[..|appId|] == appId && key[|appId|] == '/' && key[|appId| + 1..] == name
  {
    appId + "/" + name
  }

  /** Position of the first node named `name` in a listing at or after
      position `from`, or the listing's length when no such node has that name. */
  function IndexOfName(nodes: seq<Node>, name: string, from: nat): (k: nat)
    requires from <= |nodes|
    ensures from <= k <= |nodes|
    ensures k < |nodes| ==> NameOf(nodes[k].path) == name
    ensures forall j :: from <= j < k ==> NameOf(nodes[j].path) != name
    decreases |nodes| - from
  {
    if from == |nodes| then from
    else if NameOf(nodes[from].path) == name then from
    else IndexOfName(nodes, name, from + 1)
  }

  function Root(c: Config): Node
  {
    Node(c.rootId, RootPath, true)
  }

  /** The folder below which the facade resolves its paths: the first top-level
      node named `appdataroot` when redirection is on and one exists, the
      default root otherwise. */
  function EffectiveRoot(c: Config, st: Store): Node
  {
    var top := Children(st.entries, RootPath);
    var k := IndexOfName(top, AppDataRootName, 0);
    if c.customRoot && k < |top| then top[k] else Root(c)
  }

  /** The requests made while looking for the effective root: one listing of
      the default root when redirection is on. */
  function RootCalls(c: Config): seq<Call>
  {
    if c.customRoot then [Listed(RootPath)] else []
  }

  /** Fetch the instance-wide folder `appdata_<instanceid>` below the effective
      root, creating it when it is missing. */
  function RootFolderStep(c: Config, s: State): Step<Node>
  {
    var root := EffectiveRoot(c, s.store);
    var listed := Logged(s, RootCalls(c));
    match AppDataFolderName(c.instanceId)
    case Err(e) => Step(Err(e), listed)
    case Ok(name) =>
      var fetched := Logged(listed, FetchLog(root, name));
      match Fetch(s.store, root, name)
      case Ok(n) => Step(if n.isFolder then Ok(n) else Err(TypeError), fetched)
      case Err(NotFound) =>
        var made := Create(s.store, c.denied, root, name);
        var result := if made.result == Err(NotPermitted) then Err(Fatal(RootFolderFailure)) else made.result;
        Step(result, Logged(fetched.(store := made.store), CreateLog(root, name)))
      case Err(e) => Step(Err(e), fetched)
  }

  /** Resolve this app's folder `appdata_<instanceid>/<appId>`, memoised in the
      state's single folder slot: try the direct path, then the app id below
      the get-or-created instance folder, then create it. */
  function AppFolderStep(c: Config, s: State): Step<Node>
  {
    var listed := Logged(s, RootCalls(c));
    if s.folder.Some? then Step(Ok(s.folder.value), listed)
    else
      var root := EffectiveRoot(c, s.store);
      match AppDataFolderName(c.instanceId)
      case Err(e) => Step(Err(e), listed)
      case Ok(name) =>
        var direct := name + "/" + c.appId;
        var fetched := Logged(listed, FetchLog(root, direct));
        match Fetch(s.store, root, direct)
        case Ok(n) =>
          if n.isFolder then Step(Ok(n), fetched.(folder := Some(n))) else Step(Err(TypeError), fetched)
        case Err(NotFound) => AppFolderBelowRoot(c, RootFolderStep(c, fetched))
        case Err(e) => Step(Err(e), fetched)
  }

  /** The second and third stages of AppFolderStep, once the instance folder
      has been fetched or created as `rs` says. */
  function AppFolderBelowRoot(c: Config, rs: Step<Node>): Step<Node>
  {
    var s := rs.post;
    match rs.result
    case Err(e) => Step(Err(e), s)
    case Ok(appRoot) =>
      var fetched := Logged(s, FetchLog(appRoot, c.appId));
      match Fetch(s.store, appRoot, c.appId)
      case Ok(n) =>
        if n.isFolder then Step(Ok(n), fetched.(folder := Some(n))) else Step(Err(TypeError), fetched)
      case Err(NotFound) =>
        var made := Create(s.store, c.denied, appRoot, c.appId);
        var s' := Logged(fetched.(store := made.store), CreateLog(appRoot, c.appId));
        (match made.result
         case Ok(n) => Step(Ok(n), s'.(folder := Some(n)))
         case Err(NotPermitted) => Step(Err(Fatal(AppFolderFailure(c.appId))), s')
         case Err(e) => Step(Err(e), s'))
      case Err(e) => Step(Err(e), fetched)
  }

  /** Record the outcome of resolving the folder cached under `key`: a folder
      and a not-found outcome are remembered, every other failure is not, and
      a non-folder node is refused. */
  function Remember(key: string, r: Result<Node>, s: State): Step<Node>
  {
    match r
    case Ok(n) =>
      if n.isFolder then Step(Ok(n), s.(folders := s.folders[key := CachedFolder(n)]))
      else Step(Err(TypeError), s)
    case Err(NotFound) => Step(Err(NotFound), s.(folders := s.folders[key := CachedNotFound]))
    case Err(e) => Step(Err(e), s)
  }

  /** Look up folder `name` of this app, answering from the cache when it
      holds the key and resolving (without creating) otherwise. */
  function GetFolderStep(c: Config, s: State, name: string): Step<Node>
  {
    var root := EffectiveRoot(c, s.store);
    var listed := Logged(s, RootCalls(c));
    var key := CacheKey(c.appId, name);
    if key in s.folders then
      match s.folders[key]
      case CachedFolder(n) => Step(Ok(n), listed)
      case CachedNotFound => Step(Err(NotFound), listed)
    else if name == "/" then
      var a := AppFolderStep(c, listed);
      Remember(key, a.result, a.post)
    else
      match AppDataFolderName(c.instanceId)
      case Err(e) => Remember(key, Err(e), listed)
      case Ok(ns) =>
        var path := ns + "/" + c.appId + "/" + name;
        Remember(key, Fetch(s.store, root, path), Logged(listed, FetchLog(root, path)))
  }

  /** Create folder `name` in this app's folder and cache it under its key,
      whatever the cache held before. */
  function NewFolderStep(c: Config, s: State, name: string): Step<Node>
  {
    var key := CacheKey(c.appId, name);
    var a := AppFolderStep(c, s);
    match a.result
    case Err(e) => Step(Err(e), a.post)
    case Ok(app) =>
      var made := Create(a.post.store, c.denied, app, name);
      var s' := Logged(a.post.(store := made.store), CreateLog(app, name));
      match made.result
      case Ok(n) => Step(Ok(n), s'.(folders := s'.folders[key := CachedFolder(n)]))
      case Err(e) => Step(Err(e), s')
  }

  /** The folder-typed nodes of a listing, in the listing's order. */
  function FoldersOnly(nodes: seq<Node>): (r: seq<Node>)
    ensures forall n :: n in r <==> n in nodes && n.isFolder
    ensures |r| <= |nodes|
  {
    if nodes == [] then []
    else (if nodes[0].isFolder then [nodes[0]] else []) + FoldersOnly(nodes[1..])
  }

  /** List the folders directly inside this app's folder. */
  function ListingStep(c: Config, s: State): Step<seq<Node>>
  {
    var a := AppFolderStep(c, s);
    match a.result
    case Err(e) => Step(Err(e), a.post)
    case Ok(app) =>
      Step(Ok(FoldersOnly(Children(a.post.store.entries, app.path))), Logged(a.post, [Listed(app.path)]))
  }

  /** The tree id of this app's folder. */
  function IdStep(c: Config, s: State): Step<nat>
  {
    var a := AppFolderStep(c, s);
    match a.result
    case Err(e) => Step(Err(e), a.post)
    case Ok(app) => Step(Ok(app.id), a.post)
  }

  /** The facade's own invariant, the types its fields are declared with:
      the memoised app folder and every cached node are folders. */
  ghost predicate Inv(s: State)
  {
    && (s.folder.Some? ==> s.folder.value.isFolder)
    && (forall k :: k in s.folders && s.folders[k].CachedFolder? ==> s.folders[k].node.isFolder)
  }

  /** Fetching or creating the instance folder keeps the invariant and leaves
      the memo and the cache alone; what it returns is a folder. */
  lemma RootFolderStepKeepsInv(c: Config, s: State)
    requires Inv(s)
    ensures var step := RootFolderStep(c, s);
            && Inv(step.post)
            && step.post.folder == s.folder && step.post.folders == s.folders
            && (step.result.Ok? ==> step.result.value.isFolder)
  {
  }

  /** Resolving the app folder keeps the invariant, leaves the cache alone, and
      on success leaves the returned folder in the memo. */
  lemma AppFolderStepKeepsInv(c: Config, s: State)
    requires Inv(s)
    ensures var step := AppFolderStep(c, s);
            && Inv(step.post)
            && step.post.folders == s.folders
            && (step.result.Ok? ==> step.result.value.isFolder && step.post.folder == Some(step.result.value))
  {
    var name := AppDataFolderName(c.instanceId);
    if s.folder.None? && name.Ok? {
      var root := EffectiveRoot(c, s.store);
      var direct := name.value + "/" + c.appId;
      var fetched := Logged(Logged(s, RootCalls(c)), FetchLog(root, direct));
      if Fetch(s.store, root, direct) == Err(NotFound) {
        var rs := RootFolderStep(c, fetched);
        assert AppFolderStep(c, s) == AppFolderBelowRoot(c, rs);
        RootFolderStepKeepsInv(c, fetched);
        AppFolderBelowRootKeepsInv(c, rs);
      }
    }
  }

  lemma AppFolderBelowRootKeepsInv(c: Config, rs: Step<Node>)
    requires Inv(rs.post) && rs.post.folder.None?
    requires rs.result.Ok? ==> rs.result.value.isFolder
    ensures var step := AppFolderBelowRoot(c, rs);
            && Inv(step.post)
            && step.post.folders == rs.post.folders
            && (step.result.Ok? ==> step.result.value.isFolder && step.post.folder == Some(step.result.value))
  {
  }

  lemma GetFolderStepKeepsInv(c: Config, s: State, name: string)
    requires Inv(s)
    ensures Inv(GetFolderStep(c, s, name).post)
  {
    var listed := Logged(s, RootCalls(c));
    if CacheKey(c.appId, name) !in s.folders && name == "/" {
      AppFolderStepKeepsInv(c, listed);
      RememberKeepsInv(CacheKey(c.appId, name), AppFolderStep(c, listed));
    }
  }

  lemma RememberKeepsInv(key: string, a: Step<Node>)
    requires Inv(a.post)
    ensures Inv(Remember(key, a.result, a.post).post)
  {
  }

  lemma NewFolderStepKeepsInv(c: Config, s: State, name: string)
    requires Inv(s)
    ensures Inv(NewFolderStep(c, s, name).post)
  {
    AppFolderStepKeepsInv(c, s);
  }

  lemma ListingStepKeepsInv(c: Config, s: State)
    requires Inv(s)
    ensures Inv(ListingStep(c, s).post)
  {
    AppFolderStepKeepsInv(c, s);
  }

  lemma IdStepKeepsInv(c: Config, s: State)
    requires Inv(s)
    ensures Inv(IdStep(c, s).post)
  {
    AppFolderStepKeepsInv(c, s);
  }
}
