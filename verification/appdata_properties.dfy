/** What the facade promises across calls: the shape of the namespace, where
    the effective root is, get-or-create without duplicates, the app-folder
    memo, the positive and negative folder cache, and the folder listing. */
module AppDataProperties {
  import opened Storage
  import opened AppDataSpec

  // ---------------------------------------------------------------------
  // Names and paths

  /** Distinct instance ids give distinct namespace folders. */
  lemma AppDataFolderNameInjective(a: string, b: string)
    requires AppDataFolderName(Some(a)) == AppDataFolderName(Some(b))
    ensures a == b
  {
  }

  /** Distinct folder names of one app never share a cache entry. */
  lemma CacheKeyInjective(appId: string, a: string, b: string)
    requires CacheKey(appId, a) == CacheKey(appId, b)
    ensures a == b
  {
  }

  /** The namespace folder created below the effective root is never a
      top-level node named `appdataroot`, so creating it cannot move the
      effective root. */
  lemma NamespaceFolderIsNotMount(root: Node, id: string)
    ensures var p := JoinPath(root.path, AppDataPrefix + id);
            ParentOf(p) != RootPath || NameOf(p) != AppDataRootName
  {
    var p := JoinPath(root.path, AppDataPrefix + id);
    var k := LastSlash(p);
    if root.path != RootPath {
      assert p[|root.path|] == '/';
      assert k >= |root.path| > 0;
      assert |ParentOf(p)| == k;
    } else {
      assert p[0] == 'a';
      if k < 0 {
        NameAfterLastSlash(p);
        assert NameOf(p) == p;
        assert p[7] == '_' && AppDataRootName[7] == 'r';
      } else {
        assert k > 0;
        assert |ParentOf(p)| == k;
      }
    }
  }

  /** Following `a` and then `b` reaches the same path as following `a/b`. */
  lemma JoinJoin(base: string, a: string, b: string)
    requires a != ""
    ensures JoinPath(JoinPath(base, a), b) == JoinPath(base, a + "/" + b)
  {
  }

  // ---------------------------------------------------------------------
  // The effective root

  /** Searching a listing with a prefix in front is searching the listing,
      shifted by the prefix's length. */
  lemma {:induction false} IndexOfNameShift(a: seq<Node>, b: seq<Node>, name: string, from: nat)
    requires from <= |b|
    ensures IndexOfName(a + b, name, |a| + from) == |a| + IndexOfName(b, name, from)
    decreases |b| - from
  {
    if from < |b| {
      assert (a + b)[|a| + from] == b[from];
      if NameOf(b[from].path) != name {
        IndexOfNameShift(a, b, name, from + 1);
      }
    }
  }

  /** The first match in a concatenation is the first match in the front
      part, or else the first match in the back part. */
  lemma {:induction false} IndexOfNameAppend(a: seq<Node>, b: seq<Node>, name: string, from: nat)
    requires from <= |a|
    ensures IndexOfName(a + b, name, from) ==
            if IndexOfName(a, name, from) < |a| then IndexOfName(a, name, from) else |a| + IndexOfName(b, name, 0)
    decreases |a| - from
  {
    if from == |a| {
      IndexOfNameShift(a, b, name, 0);
    } else {
      assert (a + b)[from] == a[from];
      if NameOf(a[from].path) != name {
        IndexOfNameAppend(a, b, name, from + 1);
      }
    }
  }

  /** Without redirection the effective root is the default root.  With it,
      the effective root is the first top-level node named `appdataroot` in
      listing order, or the default root when there is none. */
  lemma EffectiveRootChoice(c: Config, st: Store)
    ensures var root := EffectiveRoot(c, st);
            var top := Children(st.entries, RootPath);
            && (!c.customRoot ==> root == Root(c))
            && (c.customRoot && (forall n :: n in top ==> NameOf(n.path) != AppDataRootName) ==> root == Root(c))
            && (c.customRoot && (exists n :: n in top && NameOf(n.path) == AppDataRootName) ==>
                  && root in st.entries && ParentOf(root.path) == RootPath && NameOf(root.path) == AppDataRootName
                  && exists k :: 0 <= k < |top| && top[k] == root
                                 && forall j :: 0 <= j < k ==> NameOf(top[j].path) != AppDataRootName)
  {
    var top := Children(st.entries, RootPath);
    var k := IndexOfName(top, AppDataRootName, 0);
    ChildrenMembers(st.entries, RootPath);
    if c.customRoot && k < |top| {
      var root := top[k];
      assert EffectiveRoot(c, st) == root;
      assert root in top;
    } else {
      assert EffectiveRoot(c, st) == Root(c);
    }
  }

  /** Appending a node that is not a top-level `appdataroot` keeps the
      effective root. */
  lemma EffectiveRootAfterAppend(c: Config, st: Store, n: Node, nextId: nat)
    requires ParentOf(n.path) != RootPath || NameOf(n.path) != AppDataRootName
    ensures EffectiveRoot(c, Store(st.entries + [n], nextId)) == EffectiveRoot(c, st)
  {
    var top := Children(st.entries, RootPath);
    ChildrenAppend(st.entries, [n], RootPath);
    var extra := Children([n], RootPath);
    assert Children(st.entries + [n], RootPath) == top + extra;
    IndexOfNameAppend(top, extra, AppDataRootName, 0);
    if extra != [] {
      assert extra == [n];
      assert IndexOfName(extra, AppDataRootName, 0) == 1;
    }
  }

  // ---------------------------------------------------------------------
  // getAppDataRootFolder

  /** The namespace folder is fetched below the effective root, or created
      there when missing and only then; it is never reported as NotFound, and
      a refused creation surfaces as a fatal error, never as NotPermitted. */
  lemma RootFolderOutcome(c: Config, s: State)
    ensures var step := RootFolderStep(c, s);
            && step.result != Err(NotPermitted) && step.result != Err(NotFound)
            && step.post.folder == s.folder && step.post.folders == s.folders
            && (c.instanceId.None? ==> step.result == Err(Fatal(NoInstanceId)) && step.post.store == s.store)
            && (c.instanceId.Some? && !EffectiveRoot(c, s.store).isFolder ==>
                  step.result == Err(TypeError) && step.post.store == s.store)
            && (step.result.Ok? ==>
                  && c.instanceId.Some? && step.result.value.isFolder
                  && step.result.value.path == JoinPath(EffectiveRoot(c, s.store).path, AppDataFolderName(c.instanceId).value))
            && (step.post.store == s.store ||
                  (&& step.result.Ok?
                   && Lookup(s.store.entries, step.result.value.path).None?
                   && step.post.store.entries == s.store.entries + [step.result.value]))
  {
  }

  /** An existing namespace folder is returned as it is and nothing is
      created. */
  lemma RootFolderReusesExisting(c: Config, s: State, n: Node)
    requires c.instanceId.Some?
    requires Fetch(s.store, EffectiveRoot(c, s.store), AppDataFolderName(c.instanceId).value) == Ok(n)
    ensures n.isFolder ==> RootFolderStep(c, s).result == Ok(n)
    ensures !n.isFolder ==> RootFolderStep(c, s).result == Err(TypeError)
    ensures RootFolderStep(c, s).post.store == s.store
  {
  }

  /** Where the namespace folder belongs: `appdata_<id>` below the effective
      root. */
  function NamespacePath(c: Config, st: Store): string
    requires c.instanceId.Some?
  {
    JoinPath(EffectiveRoot(c, st).path, AppDataFolderName(c.instanceId).value)
  }

  /** Where the app folder belongs: `appdata_<id>/<appId>` below the
      effective root. */
  function AppPath(c: Config, st: Store): string
    requires c.instanceId.Some?
  {
    JoinPath(EffectiveRoot(c, st).path, AppDataFolderName(c.instanceId).value + "/" + c.appId)
  }

  /** A missing namespace folder is created below the effective root when the
      tree allows it; a refusal becomes the fatal "Could not get appdata
      folder" and leaves the tree alone.  Either way the tree sees one fetch
      and one creation of that path. */
  lemma RootFolderCreates(c: Config, s: State)
    requires c.instanceId.Some? && EffectiveRoot(c, s.store).isFolder
    requires Lookup(s.store.entries, NamespacePath(c, s.store)).None?
    ensures var step := RootFolderStep(c, s);
            var p := NamespacePath(c, s.store);
            var n := Node(s.store.nextId, p, true);
            && step.post.calls == s.calls + RootCalls(c) + [Fetched(p), Created(p)]
            && (MayCreate(s.store, c.denied, p) ==>
                  step.result == Ok(n) && step.post.store == Store(s.store.entries + [n], s.store.nextId + 1))
            && (!MayCreate(s.store, c.denied, p) ==>
                  step.result == Err(Fatal(RootFolderFailure)) && step.post.store == s.store)
  {
  }

  /** Getting the namespace folder twice yields the same folder, and the
      second call creates nothing: it lists (when redirecting) and fetches. */
  lemma RootFolderIdempotent(c: Config, s: State)
    requires RootFolderStep(c, s).result.Ok?
    ensures var first := RootFolderStep(c, s);
            var second := RootFolderStep(c, first.post);
            && second.result == first.result
            && second.post.store == first.post.store
            && second.post.calls == first.post.calls + RootCalls(c)
                                    + [Fetched(JoinPath(EffectiveRoot(c, s.store).path, AppDataFolderName(c.instanceId).value))]
  {
    var first := RootFolderStep(c, s);
    var root := EffectiveRoot(c, s.store);
    var name := AppDataFolderName(c.instanceId).value;
    RootFolderOutcome(c, s);
    if first.post.store != s.store {
      var n := first.result.value;
      NamespaceFolderIsNotMount(root, c.instanceId.value);
      EffectiveRootAfterAppend(c, s.store, n, first.post.store.nextId);
      assert EffectiveRoot(c, first.post.store) == root;
      CreateThenFetch(s.store, c.denied, root, name);
      assert Fetch(first.post.store, root, name) == Ok(n);
    }
  }

  // ---------------------------------------------------------------------
  // getAppDataFolder

  /** The state `AppFolderStep` hands to `RootFolderStep` when the direct path
      is missing: the redirection listing and the direct fetch are logged. */
  function DirectFetched(c: Config, s: State): State
    requires c.instanceId.Some?
  {
    var direct := AppDataFolderName(c.instanceId).value + "/" + c.appId;
    Logged(Logged(s, RootCalls(c)), FetchLog(EffectiveRoot(c, s.store), direct))
  }

  /** When the direct path is missing, the app folder is resolved below the
      get-or-created namespace folder. */
  lemma AppFolderViaRoot(c: Config, s: State)
    requires s.folder.None? && c.instanceId.Some?
    requires Fetch(s.store, EffectiveRoot(c, s.store), AppDataFolderName(c.instanceId).value + "/" + c.appId) == Err(NotFound)
    ensures AppFolderStep(c, s) == AppFolderBelowRoot(c, RootFolderStep(c, DirectFetched(c, s)))
    ensures DirectFetched(c, s).store == s.store && DirectFetched(c, s).folders == s.folders
  {
  }

  /** Below the namespace folder the app folder is fetched, or created when
      missing; it is `<appId>` inside the namespace folder, and the cache is
      left alone. */
  lemma BelowRootOutcome(c: Config, rs: Step<Node>)
    ensures var step := AppFolderBelowRoot(c, rs);
            && step.post.folders == rs.post.folders
            && (step.result.Ok? ==>
                  && rs.result.Ok? && step.post.folder == Some(step.result.value)
                  && step.result.value.path == JoinPath(rs.result.value.path, c.appId))
            && (step.result.Err? ==> step.post.folder == rs.post.folder)
            && (step.result.Err? ==> step.result == rs.result || step.result.error.Fatal? || step.result.error == TypeError)
  {
  }

  /** Second stage: an `<appId>` node inside the namespace folder is used as
      the app folder when it is a folder, with a single fetch and no creation. */
  lemma BelowRootFinds(c: Config, rs: Step<Node>, n: Node)
    requires rs.result.Ok? && rs.result.value.isFolder
    requires Lookup(rs.post.store.entries, JoinPath(rs.result.value.path, c.appId)) == Some(n)
    ensures var step := AppFolderBelowRoot(c, rs);
            && step.post.calls == rs.post.calls + [Fetched(JoinPath(rs.result.value.path, c.appId))]
            && step.post.store == rs.post.store
            && (n.isFolder ==> step.result == Ok(n) && step.post.folder == Some(n))
            && (!n.isFolder ==> step.result == Err(TypeError) && step.post.folder == rs.post.folder)
  {
  }

  /** Third stage: a missing `<appId>` is created inside the namespace folder
      when the tree allows it and memoised; a refusal becomes the fatal
      "Could not get appdata folder for <appId>" and leaves tree and memo. */
  lemma BelowRootCreates(c: Config, rs: Step<Node>)
    requires rs.result.Ok? && rs.result.value.isFolder
    requires Lookup(rs.post.store.entries, JoinPath(rs.result.value.path, c.appId)).None?
    ensures var step := AppFolderBelowRoot(c, rs);
            var st := rs.post.store;
            var q := JoinPath(rs.result.value.path, c.appId);
            var n := Node(st.nextId, q, true);
            && step.post.calls == rs.post.calls + [Fetched(q), Created(q)]
            && (MayCreate(st, c.denied, q) ==>
                  && step.result == Ok(n) && step.post.folder == Some(n)
                  && step.post.store == Store(st.entries + [n], st.nextId + 1))
            && (!MayCreate(st, c.denied, q) ==>
                  && step.result == Err(Fatal(AppFolderFailure(c.appId)))
                  && step.post.store == st && step.post.folder == rs.post.folder)
  {
  }

  /** When the direct path is missing, the second stage asks for that same
      path again (`<appId>` inside `appdata_<id>`), so it misses too: the app
      folder is then always created by the third stage. */
  lemma AppFolderSecondFetchMisses(c: Config, s: State)
    requires s.folder.None? && c.instanceId.Some?
    requires Fetch(s.store, EffectiveRoot(c, s.store), AppDataFolderName(c.instanceId).value + "/" + c.appId) == Err(NotFound)
    ensures var rs := RootFolderStep(c, DirectFetched(c, s));
            rs.result.Ok? ==>
              && rs.result.value.isFolder
              && JoinPath(rs.result.value.path, c.appId) == AppPath(c, s.store)
              && Lookup(rs.post.store.entries, AppPath(c, s.store)).None?
  {
    var rs := RootFolderStep(c, DirectFetched(c, s));
    RootFolderOutcome(c, DirectFetched(c, s));
    if rs.result.Ok? {
      var ns := rs.result.value;
      var root := EffectiveRoot(c, s.store);
      var name := AppDataFolderName(c.instanceId).value;
      JoinJoin(root.path, name, c.appId);
      assert ns.path != RootPath;
      assert |AppPath(c, s.store)| > |ns.path|;
      LookupAppend(s.store.entries, ns, AppPath(c, s.store));
    }
  }

  /** With the direct path missing and the namespace folder resolved, the app
      folder is created at `<root>/appdata_<id>/<appId>` when the tree allows
      it, and otherwise resolution fails with "Could not get appdata folder
      for <appId>". */
  lemma AppFolderCreated(c: Config, s: State)
    requires s.folder.None? && c.instanceId.Some? && EffectiveRoot(c, s.store).isFolder
    requires Lookup(s.store.entries, AppPath(c, s.store)).None?
    requires RootFolderStep(c, DirectFetched(c, s)).result.Ok?
    ensures var st := RootFolderStep(c, DirectFetched(c, s)).post.store;
            var q := AppPath(c, s.store);
            var n := Node(st.nextId, q, true);
            var step := AppFolderStep(c, s);
            && (MayCreate(st, c.denied, q) ==>
                  && step.result == Ok(n) && step.post.folder == Some(n)
                  && step.post.store == Store(st.entries + [n], st.nextId + 1))
            && (!MayCreate(st, c.denied, q) ==>
                  step.result == Err(Fatal(AppFolderFailure(c.appId))) && step.post.store == st && step.post.folder.None?)
  {
    var rs := RootFolderStep(c, DirectFetched(c, s));
    AppFolderViaRoot(c, s);
    AppFolderSecondFetchMisses(c, s);
    RootFolderOutcome(c, DirectFetched(c, s));
    BelowRootCreates(c, rs);
  }

  /** First use on an empty tree without redirection: looking up "/" creates
      `appdata_<id>` and then `appdata_<id>/<appId>` (when neither is denied),
      returns the latter, and memoises and caches it. */
  lemma FirstUseCreatesBoth(c: Config, s: State)
    requires !c.customRoot && c.instanceId.Some? && '/' !in c.instanceId.value && '/' !in c.appId
    requires s.store.entries == [] && s.folder.None? && CacheKey(c.appId, "/") !in s.folders
    requires AppDataPrefix + c.instanceId.value !in c.denied
    requires AppDataPrefix + c.instanceId.value + "/" + c.appId !in c.denied
    ensures var ns := Node(s.store.nextId, AppDataPrefix + c.instanceId.value, true);
            var app := Node(s.store.nextId + 1, AppDataPrefix + c.instanceId.value + "/" + c.appId, true);
            var step := GetFolderStep(c, s, "/");
            && step.result == Ok(app)
            && step.post.store == Store([ns, app], s.store.nextId + 2)
            && step.post.folder == Some(app)
            && step.post.folders == s.folders[CacheKey(c.appId, "/") := CachedFolder(app)]
  {
    var name := AppDataPrefix + c.instanceId.value;
    var ns := Node(s.store.nextId, name, true);
    var app := Node(s.store.nextId + 1, name + "/" + c.appId, true);
    var listed := Logged(s, RootCalls(c));
    assert EffectiveRoot(c, s.store) == Root(c);
    // The namespace folder is created at the top level.
    assert '/' !in AppDataPrefix;
    assert '/' !in name;
    SplitJoin(RootPath, name);
    assert NamespacePath(c, s.store) == name;
    assert MayCreate(s.store, c.denied, name);
    RootFolderCreates(c, DirectFetched(c, listed));
    var rs := RootFolderStep(c, DirectFetched(c, listed));
    assert rs.result == Ok(ns) && rs.post.store == Store([ns], s.store.nextId + 1);
    // The app folder is created inside it.
    assert AppPath(c, s.store) == app.path;
    SplitJoin(name, c.appId);
    assert Lookup(rs.post.store.entries, name) == Some(ns);
    assert MayCreate(rs.post.store, c.denied, app.path);
    AppFolderCreated(c, listed);
    AppFolderStepFrame(c, listed);
    var a := AppFolderStep(c, listed);
    assert a.result == Ok(app) && a.post.folder == Some(app) && a.post.folders == s.folders;
    assert a.post.store == Store([ns, app], s.store.nextId + 2);
    assert GetFolderStep(c, s, "/") == Remember(CacheKey(c.appId, "/"), a.result, a.post);
  }

  /** The same, for app "contacts" of instance "abc123". */
  lemma FirstUse(c: Config, s: State)
    requires c == Config("contacts", Some("abc123"), false, 0, {})
    requires s == State(None, map[], Store([], 1), [])
    ensures var step := GetFolderStep(c, s, "/");
            && step.result == Ok(Node(2, "appdata_abc123/contacts", true))
            && step.post.store.entries == [Node(1, "appdata_abc123", true), Node(2, "appdata_abc123/contacts", true)]
  {
    assert '/' !in c.instanceId.value && '/' !in c.appId;
    FirstUseCreatesBoth(c, s);
    var step := GetFolderStep(c, s, "/");
    var name := AppDataPrefix + c.instanceId.value;
    assert step.result == Ok(Node(2, name + "/" + c.appId, true));
    assert step.post.store.entries == [Node(1, name, true), Node(2, name + "/" + c.appId, true)];
    ScenarioPaths(c.instanceId.value, c.appId);
  }

  /** The two paths of the first-use scenario, spelled out. */
  lemma ScenarioPaths(id: string, appId: string)
    requires id == "abc123" && appId == "contacts"
    ensures AppDataPrefix + id == "appdata_abc123"
    ensures AppDataPrefix + id + "/" + appId == "appdata_abc123/contacts"
  {
  }

  /** Resolving the app folder leaves the cache alone and, on success, leaves
      the folder in the memo slot. */
  lemma AppFolderStepFrame(c: Config, s: State)
    ensures var step := AppFolderStep(c, s);
            && step.post.folders == s.folders
            && (step.result.Ok? ==> step.post.folder == Some(step.result.value))
            && (step.result.Err? ==> step.post.folder == s.folder)
  {
    if s.folder.None? && c.instanceId.Some? {
      var direct := AppDataFolderName(c.instanceId).value + "/" + c.appId;
      if Fetch(s.store, EffectiveRoot(c, s.store), direct) == Err(NotFound) {
        AppFolderViaRoot(c, s);
        RootFolderOutcome(c, DirectFetched(c, s));
        BelowRootOutcome(c, RootFolderStep(c, DirectFetched(c, s)));
      }
    }
  }

  /** Once the memo is set, the app folder comes from it: no fetch and no
      creation reach the tree, only the redirection listing. */
  lemma AppFolderMemoised(c: Config, s: State)
    requires s.folder.Some?
    ensures AppFolderStep(c, s).result == Ok(s.folder.value)
    ensures AppFolderStep(c, s).post == Logged(s, RootCalls(c))
  {
  }

  /** Resolving the app folder again returns the same folder and changes
      nothing but the call log, which gains at most the redirection listing. */
  lemma AppFolderStable(c: Config, s: State)
    requires AppFolderStep(c, s).result.Ok?
    ensures var first := AppFolderStep(c, s);
            var second := AppFolderStep(c, first.post);
            second.result == first.result && second.post == Logged(first.post, RootCalls(c))
  {
    AppFolderStepFrame(c, s);
  }

  /** When the direct path `appdata_<id>/<appId>` holds a folder, it is used
      and the namespace folder is neither fetched nor created. */
  lemma AppFolderDirectHit(c: Config, s: State, n: Node)
    requires s.folder.None? && c.instanceId.Some?
    requires Fetch(s.store, EffectiveRoot(c, s.store), AppDataFolderName(c.instanceId).value + "/" + c.appId) == Ok(n)
    ensures var step := AppFolderStep(c, s);
            && (n.isFolder ==> step.result == Ok(n) && step.post.folder == Some(n))
            && (!n.isFolder ==> step.result == Err(TypeError) && step.post.folder.None?)
            && step.post.store == s.store
            && step.post.calls == s.calls + RootCalls(c)
                                  + [Fetched(JoinPath(EffectiveRoot(c, s.store).path, AppDataFolderName(c.instanceId).value + "/" + c.appId))]
  {
  }

  /** Resolving the app folder fails only fatally (missing instance id, a
      refused creation) or with a TypeError; never with NotFound or
      NotPermitted.  An effective root that is not a folder is a TypeError. */
  lemma AppFolderErrors(c: Config, s: State)
    ensures var r := AppFolderStep(c, s).result;
            r.Err? ==> r.error.Fatal? || r.error == TypeError
    ensures s.folder.None? && c.instanceId.Some? && !EffectiveRoot(c, s.store).isFolder ==>
            AppFolderStep(c, s).result == Err(TypeError) && AppFolderStep(c, s).post.store == s.store
  {
    if s.folder.None? && c.instanceId.Some? {
      var direct := AppDataFolderName(c.instanceId).value + "/" + c.appId;
      if Fetch(s.store, EffectiveRoot(c, s.store), direct) == Err(NotFound) {
        AppFolderViaRoot(c, s);
        RootFolderOutcome(c, DirectFetched(c, s));
        BelowRootOutcome(c, RootFolderStep(c, DirectFetched(c, s)));
      }
    }
  }

  /** Without an instance id and a memo, resolving the app folder fails with
      the fatal "no instance id!" after only the redirection listing, and
      every operation built on it fails the same way with the same state. */
  lemma NoInstanceIdIsFatal(c: Config, s: State, name: string)
    requires c.instanceId.None? && s.folder.None?
    ensures var failed := Step(Err(Fatal(NoInstanceId)), Logged(s, RootCalls(c)));
            && AppFolderStep(c, s) == failed
            && NewFolderStep(c, s, name) == failed
            && ListingStep(c, s) == Step(Err(Fatal(NoInstanceId)), failed.post)
            && IdStep(c, s) == Step(Err(Fatal(NoInstanceId)), failed.post)
    ensures CacheKey(c.appId, "/") !in s.folders ==>
            GetFolderStep(c, s, "/") == Step(Err(Fatal(NoInstanceId)), Logged(Logged(s, RootCalls(c)), RootCalls(c)))
  {
  }

  /** A failure to resolve the app folder reaches the caller of newFolder,
      getDirectoryListing and getId unchanged, with nothing else done. */
  lemma AppFolderFailurePassedOn(c: Config, s: State, name: string)
    requires AppFolderStep(c, s).result.Err?
    ensures var a := AppFolderStep(c, s);
            && NewFolderStep(c, s, name) == a
            && ListingStep(c, s) == Step(Err(a.result.error), a.post)
            && IdStep(c, s) == Step(Err(a.result.error), a.post)
  {
  }

  /** A freshly resolved app folder sits at `<root>/appdata_<id>/<appId>`,
      where `<root>` is the effective root. */
  lemma AppFolderLocation(c: Config, s: State)
    requires s.folder.None? && AppFolderStep(c, s).result.Ok?
    ensures c.instanceId.Some?
    ensures AppFolderStep(c, s).result.value.path ==
            JoinPath(EffectiveRoot(c, s.store).path, AppDataFolderName(c.instanceId).value + "/" + c.appId)
  {
    var name := AppDataFolderName(c.instanceId).value;
    var root := EffectiveRoot(c, s.store);
    var direct := name + "/" + c.appId;
    var path := JoinPath(root.path, direct);
    match Fetch(s.store, root, direct)
    case Ok(n) =>
      assert Lookup(s.store.entries, path) == Some(n);
    case Err(NotFound) =>
      AppFolderViaRoot(c, s);
      RootFolderOutcome(c, DirectFetched(c, s));
      BelowRootOutcome(c, RootFolderStep(c, DirectFetched(c, s)));
      JoinJoin(root.path, name, c.appId);
    case Err(e) =>
  }

  /** A freshly resolved app folder is the node the tree then holds at
      `<root>/appdata_<id>/<appId>`, whichever of the three stages found it. */
  lemma AppFolderInTree(c: Config, s: State)
    requires s.folder.None? && AppFolderStep(c, s).result.Ok?
    ensures c.instanceId.Some?
    ensures var step := AppFolderStep(c, s);
            Lookup(step.post.store.entries, AppPath(c, s.store)) == Some(step.result.value)
  {
    var name := AppDataFolderName(c.instanceId).value;
    var root := EffectiveRoot(c, s.store);
    var direct := name + "/" + c.appId;
    match Fetch(s.store, root, direct)
    case Ok(n) =>
    case Err(NotFound) =>
      AppFolderViaRoot(c, s);
      var rs := RootFolderStep(c, DirectFetched(c, s));
      AppFolderSecondFetchMisses(c, s);
      assert rs.result.Ok?;
      BelowRootCreates(c, rs);
      var st := rs.post.store;
      var q := AppPath(c, s.store);
      LookupAppend(st.entries, Node(st.nextId, q, true), q);
    case Err(e) =>
  }

  /** Without redirection the app folder is `appdata_<id>/<appId>` below the
      default root. */
  lemma DefaultRootLayout(c: Config, s: State)
    requires !c.customRoot && s.folder.None? && AppFolderStep(c, s).result.Ok?
    ensures c.instanceId.Some?
    ensures AppFolderStep(c, s).result.value.path == AppDataFolderName(c.instanceId).value + "/" + c.appId
  {
  }

  /** With redirection and an `appdataroot` mount at the top level, the app
      folder lies below the mount, not below the default root. */
  lemma RedirectedRootLayout(c: Config, s: State, d: Node)
    requires c.customRoot && s.folder.None? && AppFolderStep(c, s).result.Ok?
    requires d in s.store.entries && ParentOf(d.path) == RootPath && NameOf(d.path) == AppDataRootName
    requires forall e :: e in s.store.entries && ParentOf(e.path) == RootPath && NameOf(e.path) == AppDataRootName ==> e == d
    ensures c.instanceId.Some?
    ensures AppFolderStep(c, s).result.value.path == d.path + "/" + (AppDataFolderName(c.instanceId).value + "/" + c.appId)
  {
    AppFolderLocation(c, s);
    EffectiveRootIsMount(c, s.store, d);
    assert d.path != RootPath;
  }

  /** A single top-level `appdataroot` node is the effective root under
      redirection. */
  lemma EffectiveRootIsMount(c: Config, st: Store, d: Node)
    requires c.customRoot
    requires d in st.entries && ParentOf(d.path) == RootPath && NameOf(d.path) == AppDataRootName
    requires forall e :: e in st.entries && ParentOf(e.path) == RootPath && NameOf(e.path) == AppDataRootName ==> e == d
    ensures EffectiveRoot(c, st) == d
  {
    var top := Children(st.entries, RootPath);
    var k := IndexOfName(top, AppDataRootName, 0);
    ChildrenMembers(st.entries, RootPath);
    assert d in top;
    var i :| 0 <= i < |top| && top[i] == d;
    assert k <= i;
    assert top[k] in top;
  }

  // ---------------------------------------------------------------------
  // getFolder

  /** A cache hit answers from the cache: the cached folder, or the recorded
      NotFound again; the tree is not fetched and the cache is unchanged. */
  lemma GetFolderCacheHit(c: Config, s: State, name: string)
    requires CacheKey(c.appId, name) in s.folders
    ensures var step := GetFolderStep(c, s, name);
            && step.post == Logged(s, RootCalls(c))
            && step.result == match s.folders[CacheKey(c.appId, name)]
                              case CachedFolder(n) => Ok(n)
                              case CachedNotFound => Err(NotFound)
  {
  }

  /** A miss for a name other than "/" fetches `appdata_<id>/<appId>/<name>`
      below the effective root and never creates anything; a folder and a
      NotFound are cached under the key, every other failure is not. */
  lemma GetFolderMiss(c: Config, s: State, name: string)
    requires CacheKey(c.appId, name) !in s.folders && name != "/"
    ensures var step := GetFolderStep(c, s, name);
            var key := CacheKey(c.appId, name);
            && step.post.store == s.store && step.post.folder == s.folder
            && (c.instanceId.None? ==> step.result == Err(Fatal(NoInstanceId)) && step.post.folders == s.folders)
            && (step.result.Ok? ==>
                  && c.instanceId.Some? && step.result.value.isFolder
                  && step.result.value.path ==
                     JoinPath(EffectiveRoot(c, s.store).path, AppDataFolderName(c.instanceId).value + "/" + c.appId + "/" + name)
                  && step.post.folders == s.folders[key := CachedFolder(step.result.value)])
            && (step.result == Err(NotFound) ==> step.post.folders == s.folders[key := CachedNotFound])
            && (step.result.Err? && step.result.error != NotFound ==> step.post.folders == s.folders)
    ensures c.instanceId.Some? && EffectiveRoot(c, s.store).isFolder ==>
            var step := GetFolderStep(c, s, name);
            var p := JoinPath(EffectiveRoot(c, s.store).path, AppDataFolderName(c.instanceId).value + "/" + c.appId + "/" + name);
            var found := Lookup(s.store.entries, p);
            && step.post.calls == s.calls + RootCalls(c) + [Fetched(p)]
            && (found.None? ==> step.result == Err(NotFound))
            && (found.Some? && found.value.isFolder ==> step.result == Ok(found.value))
            && (found.Some? && !found.value.isFolder ==> step.result == Err(TypeError))
    ensures c.instanceId.Some? && !EffectiveRoot(c, s.store).isFolder ==> GetFolderStep(c, s, name).result == Err(TypeError)
  {
  }

  /** A miss for "/" answers with the app folder `getAppDataFolder` resolves
      (a node that is not a folder is refused); a success is cached and
      memoised, and since that resolution never reports NotFound, a failure
      leaves the cache as it was. */
  lemma GetFolderAppRoot(c: Config, s: State)
    requires CacheKey(c.appId, "/") !in s.folders
    ensures var step := GetFolderStep(c, s, "/");
            var key := CacheKey(c.appId, "/");
            && (step.result.Ok? ==>
                  step.post.folders == s.folders[key := CachedFolder(step.result.value)]
                  && step.post.folder == Some(step.result.value))
            && (step.result.Err? ==> step.post.folders == s.folders && step.result.error != NotFound)
    ensures var a := AppFolderStep(c, Logged(s, RootCalls(c)));
            var step := GetFolderStep(c, s, "/");
            && (a.result.Err? ==> step.result == a.result)
            && (a.result.Ok? && a.result.value.isFolder ==> step.result == a.result)
            && (a.result.Ok? && !a.result.value.isFolder ==> step.result == Err(TypeError))
            && (Inv(s) ==> step.result == a.result)
  {
    var listed := Logged(s, RootCalls(c));
    AppFolderStepFrame(c, listed);
    AppFolderErrors(c, listed);
    if Inv(s) {
      AppFolderStepKeepsInv(c, listed);
    }
  }

  /** Negative caching: once a lookup reports NotFound, the next lookup of the
      same name reports NotFound again without fetching from the tree. */
  lemma NegativeCacheSticks(c: Config, s: State, name: string)
    requires GetFolderStep(c, s, name).result == Err(NotFound)
    ensures var first := GetFolderStep(c, s, name);
            var second := GetFolderStep(c, first.post, name);
            second.result == Err(NotFound) && second.post == Logged(first.post, RootCalls(c))
  {
  }

  /** Positive caching: once a lookup returns a folder, the next lookup of the
      same name returns that folder again without fetching from the tree. */
  lemma PositiveCacheSticks(c: Config, s: State, name: string)
    requires GetFolderStep(c, s, name).result.Ok?
    ensures var first := GetFolderStep(c, s, name);
            var second := GetFolderStep(c, first.post, name);
            second.result == first.result && second.post == Logged(first.post, RootCalls(c))
  {
    var key := CacheKey(c.appId, name);
    if key !in s.folders && name == "/" {
      AppFolderStepFrame(c, Logged(s, RootCalls(c)));
    }
  }

  // ---------------------------------------------------------------------
  // newFolder

  /** A new folder is created directly inside the app folder where nothing
      was before, and replaces whatever the cache held for its name; a failure
      leaves the cache as it was. */
  lemma NewFolderOutcome(c: Config, s: State, name: string)
    ensures var step := NewFolderStep(c, s, name);
            var a := AppFolderStep(c, s);
            && (step.result.Ok? ==>
                  && a.result.Ok? && step.result.value.isFolder
                  && step.result.value.path == JoinPath(a.result.value.path, name)
                  && Lookup(a.post.store.entries, step.result.value.path).None?
                  && step.post.store.entries == a.post.store.entries + [step.result.value]
                  && step.post.folders == s.folders[CacheKey(c.appId, name) := CachedFolder(step.result.value)])
            && (step.result.Err? ==> step.post.folders == s.folders && step.post.store == a.post.store)
  {
    AppFolderStepFrame(c, s);
  }

  /** Fetching or creating the namespace folder never reads the cache. */
  lemma RootFolderIgnoresCache(c: Config, s: State, m: map<string, Cached>)
    ensures RootFolderStep(c, s.(folders := m)).result == RootFolderStep(c, s).result
    ensures RootFolderStep(c, s.(folders := m)).post == RootFolderStep(c, s).post.(folders := m)
  {
  }

  /** Neither do the second and third stages of resolving the app folder. */
  lemma BelowRootIgnoresCache(c: Config, rs: Step<Node>, m: map<string, Cached>)
    ensures AppFolderBelowRoot(c, Step(rs.result, rs.post.(folders := m))).result == AppFolderBelowRoot(c, rs).result
    ensures AppFolderBelowRoot(c, Step(rs.result, rs.post.(folders := m))).post == AppFolderBelowRoot(c, rs).post.(folders := m)
  {
    match rs.result
    case Err(e) =>
    case Ok(appRoot) =>
      match Fetch(rs.post.store, appRoot, c.appId)
      case Ok(n) =>
      case Err(NotFound) =>
        var made := Create(rs.post.store, c.denied, appRoot, c.appId);
        match made.result {
          case Ok(n) =>
          case Err(NotPermitted) =>
          case Err(e) =>
        }
      case Err(e) =>
  }

  /** Resolving the app folder never reads the cache. */
  lemma AppFolderIgnoresCache(c: Config, s: State, m: map<string, Cached>)
    ensures AppFolderStep(c, s.(folders := m)).result == AppFolderStep(c, s).result
    ensures AppFolderStep(c, s.(folders := m)).post == AppFolderStep(c, s).post.(folders := m)
  {
    var s' := s.(folders := m);
    if s.folder.None? && c.instanceId.Some? {
      var direct := AppDataFolderName(c.instanceId).value + "/" + c.appId;
      match Fetch(s.store, EffectiveRoot(c, s.store), direct)
      case Ok(n) =>
      case Err(NotFound) =>
        AppFolderViaRoot(c, s);
        AppFolderViaRoot(c, s');
        assert DirectFetched(c, s') == DirectFetched(c, s).(folders := m);
        RootFolderIgnoresCache(c, DirectFetched(c, s), m);
        var rs := RootFolderStep(c, DirectFetched(c, s));
        assert RootFolderStep(c, DirectFetched(c, s')) == Step(rs.result, rs.post.(folders := m));
        BelowRootIgnoresCache(c, rs, m);
      case Err(e) =>
    }
  }

  /** Creation does not consult the cache: whatever the cache holds, even a
      recorded NotFound for the name, the same creation is attempted with
      the same outcome on the tree. */
  lemma NewFolderIgnoresCache(c: Config, s: State, name: string, m: map<string, Cached>)
    ensures var with := NewFolderStep(c, s.(folders := m), name);
            var without := NewFolderStep(c, s, name);
            && with.result == without.result
            && with.post.store == without.post.store
            && with.post.calls == without.post.calls
            && with.post.folder == without.post.folder
  {
    AppFolderIgnoresCache(c, s, m);
  }

  /** Once the app folder is resolved, `name` is created inside it when that
      path is free and the tree allows it, and then cached; otherwise the
      tree's NotPermitted reaches the caller and tree and cache are kept. */
  lemma NewFolderCreates(c: Config, s: State, name: string)
    requires AppFolderStep(c, s).result.Ok? && AppFolderStep(c, s).result.value.isFolder
    ensures var a := AppFolderStep(c, s);
            var st := a.post.store;
            var q := JoinPath(a.result.value.path, name);
            var n := Node(st.nextId, q, true);
            var step := NewFolderStep(c, s, name);
            var free := Lookup(st.entries, q).None? && MayCreate(st, c.denied, q);
            && step.post.calls == a.post.calls + [Created(q)]
            && (free ==>
                  && step.result == Ok(n)
                  && step.post.store == Store(st.entries + [n], st.nextId + 1)
                  && step.post.folders == s.folders[CacheKey(c.appId, name) := CachedFolder(n)])
            && (!free ==> step.result == Err(NotPermitted) && step.post.store == st && step.post.folders == s.folders)
  {
    AppFolderStepFrame(c, s);
  }

  /** Once the app folder is resolved, a refused creation is passed on to the
      caller as NotPermitted, not turned into a fatal error. */
  lemma NewFolderRefusal(c: Config, s: State, name: string)
    requires Inv(s)
    requires AppFolderStep(c, s).result.Ok? && NewFolderStep(c, s, name).result.Err?
    ensures NewFolderStep(c, s, name).result == Err(NotPermitted)
  {
  }

  /** A folder just created is what the next lookup of its name returns, even
      when that name was cached as NotFound, and the lookup does not fetch. */
  lemma NewFolderThenGetFolder(c: Config, s: State, name: string)
    requires NewFolderStep(c, s, name).result.Ok?
    ensures var made := NewFolderStep(c, s, name);
            var got := GetFolderStep(c, made.post, name);
            got.result == made.result && got.post == Logged(made.post, RootCalls(c))
  {
  }

  /** A folder created with a plain name shows up in the app's listing. */
  lemma NewFolderIsListed(c: Config, s: State, name: string)
    requires '/' !in name && NewFolderStep(c, s, name).result.Ok?
    ensures var made := NewFolderStep(c, s, name);
            var listing := ListingStep(c, made.post);
            listing.result.Ok? && made.result.value in listing.result.value
  {
    var made := NewFolderStep(c, s, name);
    var a := AppFolderStep(c, s);
    AppFolderStepFrame(c, s);
    NewFolderOutcome(c, s, name);
    var app := a.result.value;
    var n := made.result.value;
    assert AppFolderStep(c, made.post).result == Ok(app);
    SplitJoin(app.path, name);
    ListingMembers(c, made.post);
  }

  // ---------------------------------------------------------------------
  // getDirectoryListing and getId

  /** The listing holds exactly the folders directly inside the app folder,
      and writes nothing to the cache. */
  lemma ListingMembers(c: Config, s: State)
    requires ListingStep(c, s).result.Ok?
    ensures var a := AppFolderStep(c, s);
            && a.result.Ok?
            && ListingStep(c, s).post.folders == s.folders
            && ListingStep(c, s).post.store == a.post.store
            && forall n :: n in ListingStep(c, s).result.value <==>
                 n in a.post.store.entries && ParentOf(n.path) == a.result.value.path && n.isFolder
  {
    var a := AppFolderStep(c, s);
    AppFolderStepFrame(c, s);
    ChildrenMembers(a.post.store.entries, a.result.value.path);
  }

  /** Filtering keeps the listing order: it distributes over concatenation. */
  lemma {:induction false} FoldersOnlyAppend(a: seq<Node>, b: seq<Node>)
    ensures FoldersOnly(a + b) == FoldersOnly(a) + FoldersOnly(b)
  {
    if a == [] {
      assert a + b == b;
    } else {
      var head := if a[0].isFolder then [a[0]] else [];
      assert (a + b)[0] == a[0];
      assert (a + b)[1..] == a[1..] + b;
      assert FoldersOnly(a + b) == head + FoldersOnly(a[1..] + b);
      FoldersOnlyAppend(a[1..], b);
      assert FoldersOnly(a) == head + FoldersOnly(a[1..]);
    }
  }

  /** A listing of folders only passes through the filter unchanged. */
  lemma {:induction false} FoldersOnlyKeepsFolders(a: seq<Node>)
    requires forall i :: 0 <= i < |a| ==> a[i].isFolder
    ensures FoldersOnly(a) == a
  {
    if a != [] {
      FoldersOnlyKeepsFolders(a[1..]);
    }
  }

  /** Asking for the id twice gives the same id, resolved once. */
  lemma IdStable(c: Config, s: State)
    requires IdStep(c, s).result.Ok?
    ensures var first := IdStep(c, s);
            var second := IdStep(c, first.post);
            second.result == first.result && second.post == Logged(first.post, RootCalls(c))
  {
    AppFolderStepFrame(c, s);
  }

  /** The id returned is that of the node the tree holds, after the call, at
      the app folder's place `<root>/appdata_<id>/<appId>`. */
  lemma IdInTree(c: Config, s: State)
    requires s.folder.None? && IdStep(c, s).result.Ok?
    ensures c.instanceId.Some?
    ensures var step := IdStep(c, s);
            var found := Lookup(step.post.store.entries, AppPath(c, s.store));
            found.Some? && step.result.value == found.value.id
  {
    AppFolderInTree(c, s);
  }
}
