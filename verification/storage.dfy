/** The hierarchical file tree that the app-data facade works over, seen only
    through the three capabilities the facade uses: fetch a node by path,
    create a folder, and list the children of a folder.  The tree is an
    external collaborator; this module fixes the behaviour the facade relies on. */
module Storage {

  datatype Option<+T> = None | Some(value: T)

  /** The failures that can reach a caller of the facade. */
  datatype Error =
    | NotFound                // the tree has no node at the requested path
    | NotPermitted            // the tree refused to create a folder
    | Fatal(message: string)  // a RuntimeException raised by the facade itself
    | TypeError               // a non-folder node used where the code requires a Folder

  datatype Result<+T> = Ok(value: T) | Err(error: Error)

  /** A node of the tree: its identifier, its path below the default root, and
      whether it is a folder. */
  datatype Node = Node(id: nat, path: string, isFolder: bool)

  /** One request the facade made to the tree, for counting tree accesses. */
  datatype Call = Listed(dir: string) | Fetched(path: string) | Created(path: string)

  /** The nodes below the default root, in listing order, and the next free id. */
  datatype Store = Store(entries: seq<Node>, nextId: nat)

  /** The outcome of a creation request: the result and the tree afterwards. */
  datatype Change = Change(result: Result<Node>, store: Store)

  /** The path of the default root folder. */
  const RootPath: string := ""

  /** The path reached by following `rel` from the folder at `base`. */
  function JoinPath(base: string, rel: string): string
  {
    if base == RootPath then rel else base + "/" + rel
  }

  /** Index of the last '/' in `s`, or -1 when there is none. */
  function LastSlash(s: string): (k: int)
    ensures -1 <= k < |s|
    ensures k >= 0 ==> s[k] == '/'
    ensures forall j :: k < j < |s| ==> s[j] != '/'
  {
    if |s| == 0 then -1
    else if s[|s| - 1] == '/' then |s| - 1
    else LastSlash(s[..|s| - 1])
  }

  /** The last segment of a path: what the tree reports as the node's name. */
  function NameOf(path: string): string
  {
    if path == [] || path[|path| - 1] == '/' then []
    else NameOf(path[..|path| - 1]) + [path[|path| - 1]]
  }

  /** The name is what follows the last '/'. */
  lemma {:induction false} NameAfterLastSlash(path: string)
    ensures NameOf(path) == path[LastSlash(path) + 1..]
  {
    if path != [] && path[|path| - 1] != '/' {
      var init := path[..|path| - 1];
      NameAfterLastSlash(init);
      assert LastSlash(path) == LastSlash(init);
      assert path[LastSlash(path) + 1..] == init[LastSlash(init) + 1..] + [path[|path| - 1]];
    }
  }

  /** The path of the folder that holds the node at `path`. */
  function ParentOf(path: string): string
  {
    var k := LastSlash(path);
    if k < 0 then RootPath else path[..k]
  }

  /** A segment without '/' after a folder prefix (empty, or ending in '/')
      is the name of the path, and the last '/' is the prefix's own. */
  lemma {:induction false} Segment(prefix: string, name: string)
    requires '/' !in name
    requires prefix == [] || prefix[|prefix| - 1] == '/'
    ensures NameOf(prefix + name) == name
    ensures LastSlash(prefix + name) == |prefix| - 1
  {
    var p := prefix + name;
    if name == [] {
      assert p == prefix;
    } else {
      var init := name[..|name| - 1];
      assert p[|p| - 1] == name[|name| - 1] && name[|name| - 1] in name;
      assert p[..|p| - 1] == prefix + init;
      Segment(prefix, init);
      assert name == init + [name[|name| - 1]];
    }
  }

  /** Joining a single segment onto a folder path is undone by NameOf and ParentOf. */
  lemma SplitJoin(base: string, name: string)
    requires '/' !in name
    ensures NameOf(JoinPath(base, name)) == name
    ensures ParentOf(JoinPath(base, name)) == base
  {
    if base == RootPath {
      Segment([], name);
      assert JoinPath(base, name) == [] + name;
    } else {
      var prefix := base + "/";
      Segment(prefix, name);
      assert JoinPath(base, name) == prefix + name;
      assert (prefix + name)[..|base|] == base;
    }
  }

  /** The first node stored at `path`, if any. */
  function Lookup(entries: seq<Node>, path: string): (r: Option<Node>)
    ensures r.Some? ==> r.value in entries && r.value.path == path
  {
    if entries == [] then None
    else if entries[0].path == path then Some(entries[0])
    else Lookup(entries[1..], path)
  }

  /** A lookup fails exactly when no stored node has the path. */
  lemma {:induction false} LookupNone(entries: seq<Node>, path: string)
    ensures Lookup(entries, path).None? <==> forall n :: n in entries ==> n.path != path
  {
    if entries != [] {
      LookupNone(entries[1..], path);
      assert forall n :: n in entries ==> n == entries[0] || n in entries[1..];
    }
  }

  /** Appending a node leaves every earlier lookup as it was and makes the new
      node visible at its own path when nothing was there before. */
  lemma {:induction false} LookupAppend(entries: seq<Node>, n: Node, path: string)
    ensures Lookup(entries + [n], path) ==
            if Lookup(entries, path).Some? then Lookup(entries, path)
            else if n.path == path then Some(n) else None
  {
    if entries == [] {
      assert entries + [n] == [n];
    } else {
      assert (entries + [n])[1..] == entries[1..] + [n];
      if entries[0].path != path {
        LookupAppend(entries[1..], n, path);
      }
    }
  }

  /** The direct children of the folder at `dir`, in listing order. */
  function Children(entries: seq<Node>, dir: string): (kids: seq<Node>)
    ensures |kids| <= |entries|
  {
    if entries == [] then []
    else (if ParentOf(entries[0].path) == dir then [entries[0]] else []) + Children(entries[1..], dir)
  }

  /** The children of `dir` are exactly the stored nodes whose parent is `dir`. */
  lemma {:induction false} ChildrenMembers(entries: seq<Node>, dir: string)
    ensures forall n :: n in Children(entries, dir) <==> n in entries && ParentOf(n.path) == dir
  {
    if entries != [] {
      ChildrenMembers(entries[1..], dir);
      assert forall n :: n in entries <==> n == entries[0] || n in entries[1..];
    }
  }

  /** Listing distributes over the listing order: the children of a longer
      tree are the old children followed by those of the appended nodes. */
  lemma {:induction false} ChildrenAppend(a: seq<Node>, b: seq<Node>, dir: string)
    ensures Children(a + b, dir) == Children(a, dir) + Children(b, dir)
  {
    if a == [] {
      assert a + b == b;
    } else {
      var head := if ParentOf(a[0].path) == dir then [a[0]] else [];
      assert (a + b)[0] == a[0];
      assert (a + b)[1..] == a[1..] + b;
      assert Children(a + b, dir) == head + Children(a[1..] + b, dir);
      ChildrenAppend(a[1..], b, dir);
      assert Children(a, dir) == head + Children(a[1..], dir);
    }
  }

  /** Every path is stored at most once and every id is below the next free id. */
  ghost predicate StoreInv(st: Store)
  {
    && (forall i, j :: 0 <= i < j < |st.entries| ==> st.entries[i].path != st.entries[j].path)
    && (forall n :: n in st.entries ==> n.id < st.nextId)
  }

  /** A request for `rel` below `base`: the node, NotFound, or a TypeError when
      `base` is not a folder (the facade would call a folder method on a file). */
  function Fetch(st: Store, base: Node, rel: string): Result<Node>
  {
    if !base.isFolder then Err(TypeError)
    else match Lookup(st.entries, JoinPath(base.path, rel))
      case Some(n) => Ok(n)
      case None => Err(NotFound)
  }

  /** A parent folder exists for a new node at `path`. */
  predicate ParentExists(entries: seq<Node>, path: string)
  {
    var parent := ParentOf(path);
    parent == RootPath || (Lookup(entries, parent).Some? && Lookup(entries, parent).value.isFolder)
  }

  /** The tree's permission to create a folder at a free `path`: the path is
      not denied and its parent folder exists. */
  predicate MayCreate(st: Store, denied: set<string>, path: string)
  {
    path !in denied && ParentExists(st.entries, path)
  }

  /** A request to create folder `rel` below `base`. The tree refuses with
      NotPermitted when the path is taken or it may not create there; a new
      folder gets the next free id and is listed last. */
  function Create(st: Store, denied: set<string>, base: Node, rel: string): Change
  {
    var path := JoinPath(base.path, rel);
    if !base.isFolder then Change(Err(TypeError), st)
    else if Lookup(st.entries, path).Some? || !MayCreate(st, denied, path) then
      Change(Err(NotPermitted), st)
    else
      var n := Node(st.nextId, path, true);
      Change(Ok(n), Store(st.entries + [n], st.nextId + 1))
  }

  /** A successful creation is immediately visible to a fetch of the same path,
      and a refused one changes nothing. */
  lemma CreateThenFetch(st: Store, denied: set<string>, base: Node, rel: string)
    ensures var c := Create(st, denied, base, rel);
            c.result.Ok? ==> c.result.value.isFolder && Fetch(c.store, base, rel) == c.result
    ensures Create(st, denied, base, rel).result.Err? ==> Create(st, denied, base, rel).store == st
  {
    var c := Create(st, denied, base, rel);
    if c.result.Ok? {
      LookupAppend(st.entries, c.result.value, JoinPath(base.path, rel));
    }
  }

  /** Creation keeps paths unique and ids fresh. */
  lemma CreateKeepsStoreInv(st: Store, denied: set<string>, base: Node, rel: string)
    ensures StoreInv(st) ==> StoreInv(Create(st, denied, base, rel).store)
  {
    var c := Create(st, denied, base, rel);
    if StoreInv(st) && c.result.Ok? {
      var n := c.result.value;
      var e := c.store.entries;
      forall i, j | 0 <= i < j < |e| ensures e[i].path != e[j].path {
        if j == |st.entries| {
          assert e[i] in st.entries;
          LookupNone(st.entries, n.path);
        }
      }
    }
  }

  function FetchLog(base: Node, rel: string): seq<Call>
  {
    if base.isFolder then [Fetched(JoinPath(base.path, rel))] else []
  }

  function CreateLog(base: Node, rel: string): seq<Call>
  {
    if base.isFolder then [Created(JoinPath(base.path, rel))] else []
  }

  /** The tree object the facade holds.  `calls` records every request made to
      it; `denied` stands for the permission checks the tree performs. */
  class Tree {
    var store: Store
    ghost var calls: seq<Call>
    const rootId: nat
    const denied: set<string>

    constructor (rootId: nat, denied: set<string>, initial: Store)
      ensures this.rootId == rootId && this.denied == denied
      ensures store == initial && calls == []
    {
      this.rootId := rootId;
      this.denied := denied;
      store := initial;
      calls := [];
    }

    /** The default root folder. */
    function Root(): Node
    {
      Node(rootId, RootPath, true)
    }

    method Get(base: Node, rel: string) returns (r: Result<Node>)
      modifies this`calls
      ensures r == Fetch(store, base, rel)
      ensures calls == old(calls) + FetchLog(base, rel)
    {
      r := Fetch(store, base, rel);
      calls := calls + FetchLog(base, rel);
    }

    method NewFolder(base: Node, rel: string) returns (r: Result<Node>)
      modifies this
      ensures var c := Create(old(store), denied, base, rel); r == c.result && store == c.store
      ensures StoreInv(old(store)) ==> StoreInv(store)
      ensures calls == old(calls) + CreateLog(base, rel)
    {
      var c := Create(store, denied, base, rel);
      CreateKeepsStoreInv(store, denied, base, rel);
      r, store := c.result, c.store;
      calls := calls + CreateLog(base, rel);
    }

    method List(dir: Node) returns (children: seq<Node>)
      modifies this`calls
      ensures children == Children(store.entries, dir.path)
      ensures calls == old(calls) + [Listed(dir.path)]
    {
      children := Children(store.entries, dir.path);
      calls := calls + [Listed(dir.path)];
    }
  }
}
