# AppData: the per-app data folder facade, modelled in Dafny

Nextcloud gives every app a private data area through an `AppData` object. The
area lives in the file tree at `appdata_<instanceid>/<appId>`. It sits below the
default root, or, when the system configuration names an `appdataroot`
location, below a top-level mount called `appdataroot`. `AppData` finds or
creates the instance-wide namespace folder and the app's folder. It memoises the
app folder in a single field. It also caches folder lookups by `<appId>/<name>`,
remembering both found folders and NotFound outcomes.

The model has four modules:

- `Storage` (storage.dfy) is the file tree the facade talks to. A tree is a
  sequence of nodes with plain string paths below the default root (`""`) and
  a next free id. It offers three requests:
  - `Fetch`: the node at a path, NotFound, or a TypeError when the base is not
    a folder.
  - `Create`: a new folder, refused with NotPermitted when the path is taken
    or `MayCreate` fails. `MayCreate` holds when the parent folder exists and
    the path is not in a set of denied paths standing for the tree's
    permission checks.
  - `Children`: the children of a folder, in listing order.

  The class `Tree` wraps a store. It keeps a ghost log of every request made
  to it, so "the tree is not fetched" and "nothing is created" can be stated.
- `AppDataSpec` (appdata_spec.dfy) gives one function per operation. Each maps
  the facade state (memo, cache, tree, request log) to a result and the next
  state. It also holds the name and key functions, the effective-root search
  and the facade invariant (the memo and every cached entry are folders).
- `AppDataFacade` (appdata.dfy) holds the class `AppData`, with fields `folder`
  and `folders`, the redirection loop as a method, and one method per
  operation. Each method is proved to behave exactly as its spec function:
  same result, same new state, same requests. Each also keeps the invariant.
- `AppDataProperties` (appdata_properties.dfy) holds what the facade promises
  across calls:
  - the namespace name;
  - the choice of effective root;
  - get-or-create idempotence;
  - the memo;
  - positive and negative caching;
  - `newFolder` overriding the cache;
  - the listing filter.

Failures are values of `Storage.Error`:
- `NotFound` and `NotPermitted` come from the tree.
- `Fatal(message)` is a RuntimeException raised by the facade, with the
  source's message.
- `TypeError` is the PHP type error raised when a non-folder node turns up
  where the code needs a `Folder`. The source catches no such error, so it is
  never cached.

Path `P` below stands for
`lib/Migration/lib/private/Files/AppData/AppData.php/25.0.0/AppData.php`.

## Model

| member | source | states |
|---|---|---|
| AppDataSpec.AppDataFolderName | lib/Migration/lib/private/Files/AppData/AppData.php/25.0.0/AppData.php:85-92 | a name exists exactly when the instance id is set; it is `appdata_` followed by the id; otherwise the fatal error "no instance id!" |
| AppDataProperties.AppDataFolderNameInjective | lib/Migration/lib/private/Files/AppData/AppData.php/25.0.0/AppData.php:91 | two instance ids with the same namespace folder name are equal |
| AppDataSpec.CacheKey | lib/Migration/lib/private/Files/AppData/AppData.php/25.0.0/AppData.php:172 | the key is the app id, then `/`, then the folder name, each recoverable by position |
| AppDataProperties.CacheKeyInjective | lib/Migration/lib/private/Files/AppData/AppData.php/25.0.0/AppData.php:200 | two folder names of one app never share a cache key |
| AppDataSpec.IndexOfName | lib/Migration/lib/private/Files/AppData/AppData.php/25.0.0/AppData.php:98-103 | scanning from a position, the first node at or after it with the name, or the listing length when none matches; no node skipped over has the name |
| AppDataFacade.AppData.FindRoot | lib/Migration/lib/private/Files/AppData/AppData.php/25.0.0/AppData.php:95-104 | the foreach/break loop returns the effective root and lists the default root once, only when redirecting |
| AppDataProperties.EffectiveRootChoice | lib/Migration/lib/private/Files/AppData/AppData.php/25.0.0/AppData.php:95-104 | the default root without redirection; with it, the first top-level `appdataroot` node in listing order, or the default root when there is none |
| AppDataProperties.EffectiveRootIsMount | lib/Migration/lib/private/Files/AppData/AppData.php/25.0.0/AppData.php:97-103 | with redirection, a single top-level `appdataroot` node is the effective root |
| AppDataProperties.EffectiveRootAfterAppend | lib/Migration/lib/private/Files/AppData/AppData.php/25.0.0/AppData.php:98-103 | adding a node that is not a top-level `appdataroot` does not move the effective root |
| AppDataProperties.NamespaceFolderIsNotMount | lib/Migration/lib/private/Files/AppData/AppData.php/25.0.0/AppData.php:114 | the namespace folder created below any root is never a top-level `appdataroot` |
| AppDataFacade.AppData.constructor | lib/Migration/lib/private/Files/AppData/AppData.php/25.0.0/AppData.php:57-83 | a fresh facade has no memoised folder and an empty cache, and keeps the redirection flag it is given |
| AppDataFacade.AppData.GetAppDataRootFolder | lib/Migration/lib/private/Files/AppData/AppData.php/25.0.0/AppData.php:94-119 | result, tree and request log are those of `RootFolderStep`; memo and cache unchanged |
| AppDataProperties.RootFolderOutcome | lib/Migration/lib/private/Files/AppData/AppData.php/25.0.0/AppData.php:106-118 | the namespace folder is at `<root>/appdata_<id>`; the tree changes only by adding it where nothing was; never NotFound and never NotPermitted; without an instance id, the fatal "no instance id!" and no change; an effective root that is not a folder gives a TypeError and no change |
| AppDataProperties.RootFolderCreates | lib/Migration/lib/private/Files/AppData/AppData.php/25.0.0/AppData.php:110-117 | a missing namespace folder is fetched once, then created at `<root>/appdata_<id>` with the next id when the tree allows it; a refusal becomes the fatal "Could not get appdata folder" with the tree unchanged |
| AppDataProperties.RootFolderReusesExisting | lib/Migration/lib/private/Files/AppData/AppData.php/25.0.0/AppData.php:94-111 | an existing namespace node is returned when it is a folder and is a TypeError (the declared `Folder` return type) otherwise; the tree is not changed |
| AppDataProperties.RootFolderIdempotent | lib/Migration/lib/private/Files/AppData/AppData.php/25.0.0/AppData.php:94-119 | a second call returns the same node and creates nothing: it only lists and fetches |
| AppDataFacade.AppData.GetAppDataFolder | lib/Migration/lib/private/Files/AppData/AppData.php/25.0.0/AppData.php:125-158 | result, memo, tree and request log are those of `AppFolderStep`; cache unchanged |
| AppDataProperties.AppFolderSecondFetchMisses | lib/Migration/lib/private/Files/AppData/AppData.php/25.0.0/AppData.php:141-147 | when the direct path is missing, the fetch of `<appId>` inside the resolved namespace folder asks for that same path and misses too |
| AppDataProperties.AppFolderCreated | lib/Migration/lib/private/Files/AppData/AppData.php/25.0.0/AppData.php:141-152 | with the direct path missing and the namespace folder resolved, the app folder is created at `<root>/appdata_<id>/<appId>` and memoised when the tree allows it, else the fatal "Could not get appdata folder for <appId>" with tree and memo unchanged |
| AppDataProperties.BelowRootFinds | lib/Migration/lib/private/Files/AppData/AppData.php/25.0.0/AppData.php:145-146 | an `<appId>` node inside the namespace folder is used after one fetch: memoised when a folder, a TypeError otherwise; nothing created. Within one call this branch is never reached, since it asks for the path the direct fetch just missed (AppDataProperties.AppFolderSecondFetchMisses); only a concurrent creation, which is not modelled, could reach it |
| AppDataProperties.BelowRootCreates | lib/Migration/lib/private/Files/AppData/AppData.php/25.0.0/AppData.php:147-152 | a missing `<appId>` is fetched, then created inside the namespace folder and memoised when the tree allows it; a refusal becomes the fatal "Could not get appdata folder for <appId>" with tree and memo unchanged |
| AppDataProperties.BelowRootOutcome | lib/Migration/lib/private/Files/AppData/AppData.php/25.0.0/AppData.php:143-153 | below the namespace folder, the app folder is `<appId>` inside it and is memoised; the cache is untouched; errors are passed on, TypeError, or fatal |
| AppDataProperties.AppFolderStepFrame | lib/Migration/lib/private/Files/AppData/AppData.php/25.0.0/AppData.php:137-157 | the cache is untouched; on success the memo holds the returned folder; on failure the memo is unchanged |
| AppDataProperties.AppFolderMemoised | lib/Migration/lib/private/Files/AppData/AppData.php/25.0.0/AppData.php:137-157 | once the memo is set it is returned, with no fetch and no creation, only the redirection listing |
| AppDataProperties.AppFolderStable | lib/Migration/lib/private/Files/AppData/AppData.php/25.0.0/AppData.php:137-157 | resolving twice gives the same folder, and the second call changes nothing but the listing request |
| AppDataProperties.AppFolderDirectHit | lib/Migration/lib/private/Files/AppData/AppData.php/25.0.0/AppData.php:140-141 | when `appdata_<id>/<appId>` exists it is used and memoised if it is a folder, and is a TypeError (the `?Folder` property) with the memo left empty otherwise; the namespace folder is neither fetched nor created; the tree is not changed |
| AppDataProperties.AppFolderErrors | lib/Migration/lib/private/Files/AppData/AppData.php/25.0.0/AppData.php:138-153 | resolving the app folder fails only fatally or with a TypeError, never with NotFound or NotPermitted; an effective root that is not a folder gives a TypeError and no change |
| AppDataProperties.NoInstanceIdIsFatal | lib/Migration/lib/private/Files/AppData/AppData.php/25.0.0/AppData.php:137-138 | without an instance id (and no memo), getAppDataFolder, newFolder, getDirectoryListing, getId and an uncached getFolder("/") all fail with the fatal "no instance id!" and change nothing but the redirection listing |
| AppDataProperties.AppFolderFailurePassedOn | lib/Migration/lib/private/Files/AppData/AppData.php/25.0.0/AppData.php:199-225 | when the app folder cannot be resolved, newFolder, getDirectoryListing and getId report that same error with the state it left, and do nothing more |
| AppDataProperties.AppFolderLocation | lib/Migration/lib/private/Files/AppData/AppData.php/25.0.0/AppData.php:138-154 | a freshly resolved app folder is at `<effective root>/appdata_<id>/<appId>`, whichever of the three stages found it |
| AppDataProperties.AppFolderInTree | lib/Migration/lib/private/Files/AppData/AppData.php/25.0.0/AppData.php:137-157 | a freshly resolved app folder is the node the tree holds, after the call, at `<root>/appdata_<id>/<appId>`, whichever stage found or created it |
| AppDataProperties.DefaultRootLayout | lib/Migration/lib/private/Files/AppData/AppData.php/25.0.0/AppData.php:126-141 | without redirection the app folder is `appdata_<id>/<appId>` |
| AppDataProperties.RedirectedRootLayout | lib/Migration/lib/private/Files/AppData/AppData.php/25.0.0/AppData.php:128-141 | with redirection and an `appdataroot` mount, the app folder lies below the mount |
| AppDataFacade.AppData.GetFolder | lib/Migration/lib/private/Files/AppData/AppData.php/25.0.0/AppData.php:160-197 | result, memo, cache, tree and request log are those of `GetFolderStep` |
| AppDataProperties.GetFolderCacheHit | lib/Migration/lib/private/Files/AppData/AppData.php/25.0.0/AppData.php:172-179 | a hit returns the cached folder or raises the recorded NotFound again; no fetch; cache unchanged |
| AppDataProperties.GetFolderMiss | lib/Migration/lib/private/Files/AppData/AppData.php/25.0.0/AppData.php:180-196 | a miss for a name other than "/" fetches `<root>/appdata_<id>/<appId>/<name>` once and creates nothing; it returns the folder there, NotFound when there is no node, a TypeError for a file or a non-folder root; a folder or a NotFound is cached; a missing instance id or other failure is not |
| AppDataProperties.GetFolderAppRoot | lib/Migration/lib/private/Files/AppData/AppData.php/25.0.0/AppData.php:182-183 | a miss for "/" answers exactly what `getAppDataFolder` resolves (a non-folder is a TypeError, impossible under the facade invariant), caching and memoising it; a failure is never NotFound and is not cached |
| AppDataProperties.FirstUseCreatesBoth | lib/Migration/lib/private/Files/AppData/AppData.php/25.0.0/AppData.php:137-157 | on an empty tree without redirection, looking up "/" creates `appdata_<id>` then `appdata_<id>/<appId>` with consecutive ids, returns, memoises and caches the latter |
| AppDataProperties.FirstUse | lib/Migration/lib/private/Files/AppData/AppData.php/25.0.0/AppData.php:180-196 | for app `contacts` of instance `abc123` on an empty tree, "/" yields `appdata_abc123/contacts`, and the tree holds exactly it and `appdata_abc123` |
| AppDataProperties.NegativeCacheSticks | lib/Migration/lib/private/Files/AppData/AppData.php/25.0.0/AppData.php:188-190 | after a NotFound, the next lookup of the name is NotFound again with no fetch |
| AppDataProperties.PositiveCacheSticks | lib/Migration/lib/private/Files/AppData/AppData.php/25.0.0/AppData.php:193-196 | after a found folder, the next lookup of the name returns it again with no fetch |
| AppDataFacade.AppData.NewFolder | lib/Migration/lib/private/Files/AppData/AppData.php/25.0.0/AppData.php:199-206 | result, memo, cache, tree and request log are those of `NewFolderStep` |
| AppDataProperties.NewFolderIgnoresCache | lib/Migration/lib/private/Files/AppData/AppData.php/25.0.0/AppData.php:199-201 | whatever the cache holds, even a recorded NotFound for the name, creation gives the same result, tree, memo and requests |
| AppDataProperties.AppFolderIgnoresCache | lib/Migration/lib/private/Files/AppData/AppData.php/25.0.0/AppData.php:125-158 | resolving the app folder gives the same result and tree whatever the cache holds |
| AppDataProperties.NewFolderCreates | lib/Migration/lib/private/Files/AppData/AppData.php/25.0.0/AppData.php:199-205 | once the app folder resolves, `name` is created inside it with the next id and cached when the path is free and allowed; otherwise NotPermitted with tree and cache unchanged; exactly one creation request |
| AppDataProperties.NewFolderOutcome | lib/Migration/lib/private/Files/AppData/AppData.php/25.0.0/AppData.php:199-206 | a new folder is added to the tree inside the app folder where no node was, and overwrites the cache entry for its name; a failure leaves the cache |
| AppDataProperties.NewFolderRefusal | lib/Migration/lib/private/Files/AppData/AppData.php/25.0.0/AppData.php:201 | once the app folder is resolved, a failed creation reaches the caller as NotPermitted |
| AppDataProperties.NewFolderThenGetFolder | lib/Migration/lib/private/Files/AppData/AppData.php/25.0.0/AppData.php:204 | a following lookup of the name returns the new folder from the cache, even over a recorded NotFound |
| AppDataProperties.NewFolderIsListed | lib/Migration/lib/private/Files/AppData/AppData.php/25.0.0/AppData.php:199-221 | a folder just created with a plain name appears in the app's listing |
| AppDataFacade.AppData.GetDirectoryListing | lib/Migration/lib/private/Files/AppData/AppData.php/25.0.0/AppData.php:208-221 | result, memo, tree and request log are those of `ListingStep` |
| AppDataSpec.FoldersOnly | lib/Migration/lib/private/Files/AppData/AppData.php/25.0.0/AppData.php:211-220 | the output holds exactly the folder nodes of the input and is no longer |
| AppDataProperties.ListingMembers | lib/Migration/lib/private/Files/AppData/AppData.php/25.0.0/AppData.php:208-221 | the listing holds exactly the folders directly inside the app folder; the cache is not written |
| AppDataProperties.FoldersOnlyAppend | lib/Migration/lib/private/Files/AppData/AppData.php/25.0.0/AppData.php:211-220 | the filter distributes over concatenation, so the tree's order is kept |
| AppDataProperties.FoldersOnlyKeepsFolders | lib/Migration/lib/private/Files/AppData/AppData.php/25.0.0/AppData.php:218-220 | a listing of folders only comes back unchanged |
| AppDataFacade.AppData.GetId | lib/Migration/lib/private/Files/AppData/AppData.php/25.0.0/AppData.php:223-225 | result and new state are those of `IdStep` |
| AppDataProperties.IdStable | lib/Migration/lib/private/Files/AppData/AppData.php/25.0.0/AppData.php:223-225 | asking for the id twice gives the same id, the second time from the memo |
| AppDataProperties.IdInTree | lib/Migration/lib/private/Files/AppData/AppData.php/25.0.0/AppData.php:223-225 | without a memo, the id returned is the id of the node the tree holds, after the call, at the app folder path `<root>/appdata_<id>/<appId>` |
| AppDataSpec.RootFolderStepKeepsInv | lib/Migration/lib/private/Files/AppData/AppData.php/25.0.0/AppData.php:94 | a namespace folder returned is a folder (the declared return type); memo and cache untouched |
| AppDataSpec.AppFolderStepKeepsInv | lib/Migration/lib/private/Files/AppData/AppData.php/25.0.0/AppData.php:45 | the `?Folder` memo only ever holds a folder; the cache is untouched |
| AppDataSpec.AppFolderBelowRootKeepsInv | lib/Migration/lib/private/Files/AppData/AppData.php/25.0.0/AppData.php:146-149 | the later stages store only folders in the memo |
| AppDataSpec.GetFolderStepKeepsInv | lib/Migration/lib/private/Files/AppData/AppData.php/25.0.0/AppData.php:193-195 | getFolder caches only folders or NotFound |
| AppDataSpec.RememberKeepsInv | lib/Migration/lib/private/Files/AppData/AppData.php/25.0.0/AppData.php:188-195 | recording an outcome keeps every cached node a folder |
| AppDataSpec.NewFolderStepKeepsInv | lib/Migration/lib/private/Files/AppData/AppData.php/25.0.0/AppData.php:201-204 | newFolder caches only folders |
| AppDataSpec.ListingStepKeepsInv | lib/Migration/lib/private/Files/AppData/AppData.php/25.0.0/AppData.php:209 | listing keeps the invariant |
| AppDataSpec.IdStepKeepsInv | lib/Migration/lib/private/Files/AppData/AppData.php/25.0.0/AppData.php:224 | reading the id keeps the invariant |
| Storage.Tree.Get | lib/Migration/lib/private/Files/AppData/AppData.php/25.0.0/AppData.php:110 | a tree fetch returns `Fetch` over the current tree and logs one fetch request when the base is a folder |
| Storage.Tree.NewFolder | lib/Migration/lib/private/Files/AppData/AppData.php/25.0.0/AppData.php:114 | a tree creation returns and applies `Create`, keeps paths unique and ids fresh, and logs one creation request when the base is a folder |
| Storage.Tree.List | lib/Migration/lib/private/Files/AppData/AppData.php/25.0.0/AppData.php:209 | a listing returns the folder's children in tree order and logs one listing request |
| Storage.CreateThenFetch | lib/Migration/lib/private/Files/AppData/AppData.php/25.0.0/AppData.php:114 | a created folder is seen by the next fetch of its path; a refused creation changes nothing |

## Left out

- The constructor's mount registration (`LocalRootStorage`, `MountPoint`,
  the mount manager, P lines 65-82) is not modelled. Only its outcome is: the
  `customRoot` flag, and a top-level node named `appdataroot` that the tree
  may hold.
- Reading `instanceid` from the system configuration is a constructor
  parameter (`Option<string>`). The configuration is not re-read on each
  call.
- `CappedMemoryCache` is not part of this model. The cache is a plain map
  that never evicts, and no capacity property is stated.
- `SimpleFolder` is not part of this model. A wrapped folder is the node
  itself.
- The real file tree, its permissions and its path handling are not part of
  this model.
  - Paths are plain strings with no normalisation of `//`, `..`, leading or
    trailing slashes. So `getFolder("")` fetches `appdata_<id>/<appId>/`,
    which the real tree would strip to the app folder, while the model
    answers NotFound.
  - Creation is refused exactly when the path is taken, the parent is missing,
    or the path is in the `denied` set.
  - A listing never fails.
- Concurrent callers and creation races are not modelled. The code treats an
  already existing folder on creation like any other refusal: it only catches
  NotPermitted. The model does the same and does not turn "already exists"
  into success.
- Exception objects and their identity are not modelled. A recorded NotFound
  is the tag `CachedNotFound`, and a re-raise is `Err(NotFound)`.
- PHP's `Error` for calling a folder method on a file is merged with the
  typed-property `TypeError` into the single `TypeError` outcome.
- AppDataProperties.RedirectedRootLayout assumes a single top-level
  `appdataroot` node. With several, AppDataProperties.EffectiveRootChoice
  says which one is used: the first in listing order.
- AppDataProperties.NewFolderRefusal needs the facade invariant. Without it,
  a non-folder memo would fail with a TypeError instead of NotPermitted.
