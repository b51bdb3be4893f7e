/** The per-app data facade: one object per app, holding the tree, the app id,
    the configured instance id, the redirection flag, a single-slot memo of the
    app's folder and a cache of folder lookups keyed by `<appId>/<name>`. */
module AppDataFacade {
  import opened Storage
  import opened AppDataSpec

  class AppData {
    const tree: Tree
    const appId: string
    const instanceId: Option<string>
    const customRoot: bool
    var folder: Option<Node>
    var folders: map<string, Cached>

    /** `customRoot` is true when the system configuration names an
        `appdataroot` location, for which a mount has been registered at the
        top-level path `appdataroot`. */
    constructor (tree: Tree, instanceId: Option<string>, appId: string, customRoot: bool)
      requires StoreInv(tree.store)
      ensures this.tree == tree && this.instanceId == instanceId
      ensures this.appId == appId && this.customRoot == customRoot
      ensures folder == None && folders == map[]
      ensures Valid()
    {
      this.tree := tree;
      this.instanceId := instanceId;
      this.appId := appId;
      this.customRoot := customRoot;
      folder := None;
      folders := map[];
    }

    function Cfg(): Config
    {
      Config(appId, instanceId, customRoot, tree.rootId, tree.denied)
    }

    ghost function Snapshot(): State
      reads this, tree
    {
      State(folder, folders, tree.store, tree.calls)
    }

    /** The facade invariant, and the tree's: paths unique, ids fresh. */
    ghost predicate Valid()
      reads this, tree
    {
      Inv(Snapshot()) && StoreInv(tree.store)
    }

    /** The redirection search repeated at the start of getAppDataRootFolder,
        getAppDataFolder and getFolder: scan the root's listing for the first
        node named `appdataroot`. */
    method FindRoot() returns (root: Node)
      modifies tree`calls
      ensures root == EffectiveRoot(Cfg(), tree.store)
      ensures tree.calls == old(tree.calls) + RootCalls(Cfg())
    {
      root := tree.Root();
      if customRoot {
        var listing := tree.List(tree.Root());
        var i := 0;
        while i < |listing|
          invariant 0 <= i <= |listing|
          invariant IndexOfName(listing, AppDataRootName, i) == IndexOfName(listing, AppDataRootName, 0)
          invariant root == tree.Root()
        {
          if NameOf(listing[i].path) == AppDataRootName {
            root := listing[i];
            return;
          }
          i := i + 1;
        }
      }
    }

    method GetAppDataRootFolder() returns (r: Result<Node>)
      requires Valid()
      modifies tree
      ensures Valid()
      ensures var step := RootFolderStep(Cfg(), old(Snapshot()));
              r == step.result && Snapshot() == step.post
    {
      RootFolderStepKeepsInv(Cfg(), Snapshot());
      var root := FindRoot();
      var name := AppDataFolderName(instanceId);
      if name.Err? {
        return Err(name.error);
      }
      var node := tree.Get(root, name.value);
      if node.Ok? {
        if !node.value.isFolder {
          return Err(TypeError);
        }
        return node;
      }
      if node.error != NotFound {
        return node;
      }
      r := tree.NewFolder(root, name.value);
      if r == Err(NotPermitted) {
        r := Err(Fatal(RootFolderFailure));
      }
    }

    method GetAppDataFolder() returns (r: Result<Node>)
      requires Valid()
      modifies this, tree
      ensures Valid()
      ensures var step := AppFolderStep(Cfg(), old(Snapshot()));
              r == step.result && Snapshot() == step.post
    {
      AppFolderStepKeepsInv(Cfg(), Snapshot());
      var root := FindRoot();
      if folder.None? {
        var name := AppDataFolderName(instanceId);
        if name.Err? {
          return Err(name.error);
        }
        var node := tree.Get(root, name.value + "/" + appId);
        if node.Err? && node.error == NotFound {
          var appRoot := GetAppDataRootFolder();
          if appRoot.Err? {
            return appRoot;
          }
          node := tree.Get(appRoot.value, appId);
          if node.Err? && node.error == NotFound {
            node := tree.NewFolder(appRoot.value, appId);
            if node == Err(NotPermitted) {
              return Err(Fatal(AppFolderFailure(appId)));
            }
          }
        }
        if node.Err? {
          return node;
        }
        if !node.value.isFolder {
          return Err(TypeError);
        }
        folder := Some(node.value);
      }
      r := Ok(folder.value);
    }

    method GetFolder(name: string) returns (r: Result<Node>)
      requires Valid()
      modifies this, tree
      ensures Valid()
      ensures var step := GetFolderStep(Cfg(), old(Snapshot()), name);
              r == step.result && Snapshot() == step.post
    {
      GetFolderStepKeepsInv(Cfg(), Snapshot(), name);
      var root := FindRoot();
      var key := CacheKey(appId, name);
      if key in folders {
        match folders[key]
        case CachedFolder(n) => return Ok(n);
        case CachedNotFound => return Err(NotFound);
      }
      var node: Result<Node>;
      if name == "/" {
        node := GetAppDataFolder();
      } else {
        var ns := AppDataFolderName(instanceId);
        if ns.Err? {
          return Err(ns.error);
        }
        node := tree.Get(root, ns.value + "/" + appId + "/" + name);
      }
      if node.Err? {
        if node.error == NotFound {
          folders := folders[key := CachedNotFound];
        }
        return node;
      }
      if !node.value.isFolder {
        return Err(TypeError);
      }
      folders := folders[key := CachedFolder(node.value)];
      r := node;
    }

    method NewFolder(name: string) returns (r: Result<Node>)
      requires Valid()
      modifies this, tree
      ensures Valid()
      ensures var step := NewFolderStep(Cfg(), old(Snapshot()), name);
              r == step.result && Snapshot() == step.post
    {
      NewFolderStepKeepsInv(Cfg(), Snapshot(), name);
      var key := CacheKey(appId, name);
      var app := GetAppDataFolder();
      if app.Err? {
        return app;
      }
      r := tree.NewFolder(app.value, name);
      if r.Ok? {
        folders := folders[key := CachedFolder(r.value)];
      }
    }

    method GetDirectoryListing() returns (r: Result<seq<Node>>)
      requires Valid()
      modifies this, tree
      ensures Valid()
      ensures var step := ListingStep(Cfg(), old(Snapshot()));
              r == step.result && Snapshot() == step.post
    {
      ListingStepKeepsInv(Cfg(), Snapshot());
      var app := GetAppDataFolder();
      if app.Err? {
        return Err(app.error);
      }
      var listing := tree.List(app.value);
      r := Ok(FoldersOnly(listing));
    }

    method GetId() returns (r: Result<nat>)
      requires Valid()
      modifies this, tree
      ensures Valid()
      ensures var step := IdStep(Cfg(), old(Snapshot()));
              r == step.result && Snapshot() == step.post
    {
      IdStepKeepsInv(Cfg(), Snapshot());
      var app := GetAppDataFolder();
      if app.Err? {
        return Err(app.error);
      }
      r := Ok(app.value.id);
    }
  }
}
