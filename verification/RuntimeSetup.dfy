/**
 Explicit initialization of the runtime home, undone on failure, and its checked inverse.

 The directory tree is a map from absolute paths to nodes in which every node lies in a directory.
 Creating directories and writing the config may fail at any step; removing does not fail by itself,
 but only empties what is removable.
 */
module RuntimeSetup {

  type Path = seq<string>

  /** An element of the config's list of created paths. */
  datatype Entry = Relative(path: Path) | NotText

  datatype Content =
    | Config(version: int, mode: Mode, backend: BackendName, created: CreatedList)
    | Unreadable

  datatype Mode = TextMode | VoiceMode | OtherMode(name: string)

  datatype BackendName = NoBackend | Backend(name: string)

  datatype CreatedList = Created(entries: seq<Entry>) | NotAList

  datatype Node = Dir | File(content: Content) | Link

  type Tree = map<Path, Node>

  datatype Outcome =
    | Refused(reason: string) | Initialized(created: seq<Path>) | AlreadyInitialized | RolledBack(removed: seq<Path>)

  const VOICE_BACKENDS: set<string> := {"openai-whisper", "faster-whisper", "google-speech"}

  // ---------- Trees ----------

  function Parent(path: Path): Path
    requires path != []
  {
    path[..|path| - 1]
  }

  predicate IsDir(tree: Tree, path: Path) {
    path in tree && tree[path].Dir?
  }

  /** The topmost node is a directory, and every other node lies in a directory of the tree. */
  ghost predicate IsTree(tree: Tree) {
    IsDir(tree, []) && forall path | path in tree && path != [] :: IsDir(tree, Parent(path))
  }

  predicate IsChild(child: Path, path: Path) {
    child != [] && Parent(child) == path
  }

  /** Nothing in the tree lies directly below the path. */
  predicate IsEmpty(tree: Tree, path: Path) {
    forall child | child in tree :: !IsChild(child, path)
  }

  /** Something can be created here: nothing is there, and it would lie in a directory. */
  predicate HasRoom(tree: Tree, path: Path) {
    path !in tree && path != [] && IsDir(tree, Parent(path))
  }

  function WithDirs(tree: Tree, created: seq<Path>): (r: Tree)
    ensures forall p :: p in r <==> p in tree || p in created
    ensures forall p | p in r :: r[p] == if p in created then Dir else tree[p]
  {
    if created == [] then tree
    else WithDirs(tree, created[..|created| - 1])[created[|created| - 1] := Dir]
  }

  lemma WithOneMoreDir(tree: Tree, created: seq<Path>, k: nat)
    requires k < |created|
    ensures WithDirs(tree, created[..k + 1]) == WithDirs(tree, created[..k])[created[k] := Dir]
  {
    assert created[..k + 1][..k] == created[..k];
  }

  predicate NoRepeats(paths: seq<Path>) {
    forall i, j | 0 <= i < j < |paths| :: paths[i] != paths[j]
  }

  predicate ParentsFirst(paths: seq<Path>) {
    forall i, j | 0 <= i < j < |paths| :: !IsChild(paths[i], paths[j])
  }

  // ---------- The layout ----------

  function Layout(root: Path): (r: seq<Path>)
    ensures |r| == 6 && NoRepeats(r) && ParentsFirst(r)
    ensures r[0] == root && forall i | 0 < i < 6 :: root < r[i] && Parent(r[i]) in r[..i]
  {
    var brain := root + ["brain"];
    var layout := [root, brain, brain + ["brain_v2"], brain + ["tasks"], brain + ["legacy-data"], root + ["backups"]];
    LayoutFacts(root, layout);
    layout
  }

  lemma LayoutFacts(root: Path, layout: seq<Path>)
    requires layout == [root, root + ["brain"], root + ["brain"] + ["brain_v2"], root + ["brain"] + ["tasks"],
                        root + ["brain"] + ["legacy-data"], root + ["backups"]]
    ensures NoRepeats(layout) && ParentsFirst(layout)
    ensures forall i | 0 < i < 6 :: root < layout[i] && Parent(layout[i]) in layout[..i]
  {
    var brain := root + ["brain"];
    assert brain[|root|] == "brain" && (root + ["backups"])[|root|] == "backups";
    assert (brain + ["brain_v2"])[|brain|] == "brain_v2" && (brain + ["tasks"])[|brain|] == "tasks"
           && (brain + ["legacy-data"])[|brain|] == "legacy-data";
    assert Parent(brain) == root && Parent(root + ["backups"]) == root;
    assert Parent(brain + ["brain_v2"]) == brain && Parent(brain + ["tasks"]) == brain
           && Parent(brain + ["legacy-data"]) == brain;
    assert layout[0] == root && layout[1] == brain;
    assert layout[0] in layout[..1] && layout[0] in layout[..5] && layout[1] in layout[..2]
           && layout[1] in layout[..3] && layout[1] in layout[..4];
  }

  function ConfigPath(root: Path): Path {
    root + ["runtime.json"]
  }

  lemma ConfigIsNotInLayout(root: Path)
    ensures ConfigPath(root) !in Layout(root) && IsChild(ConfigPath(root), root)
    ensures forall path | IsChild(ConfigPath(root), path) :: path == root
  {
    assert Parent(ConfigPath(root)) == root && ConfigPath(root)[|root|] == "runtime.json";
    var brain := root + ["brain"];
    assert brain[|root|] == "brain" && (root + ["backups"])[|root|] == "backups";
  }

  // ---------- Selection and plan ----------

  predicate IsSelection(mode: Mode, backend: BackendName) {
    || (mode.TextMode? && backend.NoBackend?)
    || (mode.VoiceMode? && backend.Backend? && backend.name in VOICE_BACKENDS)
  }

  /** The layout paths that are still to be created, in layout order. */
  function Missing(tree: Tree, paths: seq<Path>): (r: seq<Path>)
    ensures forall p :: p in r <==> p in paths && p !in tree
    ensures |r| <= |paths|
  {
    if paths == [] then []
    else
      Missing(tree, paths[..|paths| - 1]) +
      if paths[|paths| - 1] in tree then [] else [paths[|paths| - 1]]
  }

  lemma {:induction false} MissingKeepsOrder(tree: Tree, paths: seq<Path>)
    requires NoRepeats(paths) && ParentsFirst(paths)
    ensures NoRepeats(Missing(tree, paths)) && ParentsFirst(Missing(tree, paths))
  {
    hide IsChild;
    if paths != [] {
      var front, last := paths[..|paths| - 1], paths[|paths| - 1];
      MissingKeepsOrder(tree, front);
      forall i | 0 <= i < |Missing(tree, front)|
        ensures Missing(tree, front)[i] != last && !IsChild(Missing(tree, front)[i], last)
      {
        OthersComeFirst(paths, Missing(tree, front)[i]);
      }
    }
  }

  lemma OthersComeFirst(paths: seq<Path>, path: Path)
    requires paths != [] && NoRepeats(paths) && ParentsFirst(paths) && path in paths[..|paths| - 1]
    ensures path != paths[|paths| - 1] && !IsChild(path, paths[|paths| - 1])
  {
    hide IsChild;
    var j :| 0 <= j < |paths| - 1 && paths[j] == path;
  }

  /** What stops initialization before anything is touched. */
  predicate IsBlocked(tree: Tree, root: Path) {
    || (root in tree && tree[root].Link?)
    || (root + ["hikari.py"] in tree && tree[root + ["hikari.py"]].File? && IsDir(tree, root + ["core"]))
    || (root !in tree && root != [] && !IsDir(tree, Parent(root)))
    || exists i :: 0 <= i < 6 && Layout(root)[i] in tree && !tree[Layout(root)[i]].Dir?
  }

  // ---------- The disk ----------

  /** None of these creating operations fails for reasons of its own. */
  ghost predicate Succeed(failing: nat -> bool, from: nat, operations: nat) {
    forall i | from <= i < from + operations :: !failing(i)
  }

  lemma SucceedInTurn(failing: nat -> bool, from: nat, first: nat, second: nat)
    ensures Succeed(failing, from, first + second) <==>
            Succeed(failing, from, first) && Succeed(failing, from + first, second)
  {
  }

  class Disk {
    var tree: Tree
    var tick: nat

    /** Which creating operations fail for reasons of their own. */
    const failing: nat -> bool

    constructor (tree: Tree, failing: nat -> bool)
      ensures this.tree == tree && this.failing == failing
    {
      this.tree, this.failing, tick := tree, failing, 0;
    }

    method MakeDir(path: Path) returns (ok: bool)
      modifies this
      ensures ok <==> !failing(old(tick)) && HasRoom(old(tree), path)
      ensures tree == (if ok then old(tree)[path := Dir] else old(tree)) && tick == old(tick) + 1
    {
      ok := !failing(tick) && HasRoom(tree, path);
      tick := tick + 1;
      if ok {
        tree := tree[path := Dir];
      }
    }

    /** Creates an empty file where nothing was. */
    method CreateExclusively(path: Path) returns (ok: bool)
      modifies this
      ensures ok <==> !failing(old(tick)) && HasRoom(old(tree), path)
      ensures tree == (if ok then old(tree)[path := File(Unreadable)] else old(tree)) && tick == old(tick) + 1
    {
      ok := !failing(tick) && HasRoom(tree, path);
      tick := tick + 1;
      if ok {
        tree := tree[path := File(Unreadable)];
      }
    }

    /** Writes the content; a failure may leave anything in the file. */
    method Write(path: Path, content: Content) returns (ok: bool)
      requires path in tree && tree[path].File?
      modifies this
      ensures ok <==> !failing(old(tick))
      ensures tree == old(tree)[path := File(if ok then content else Unreadable)]
    {
      ok := !failing(tick);
      tick := tick + 1;
      tree := tree[path := File(if ok then content else Unreadable)];
    }

    method Unlink(path: Path)
      requires path in tree && tree[path].File?
      modifies this`tree
      ensures tree == old(tree) - {path}
    {
      tree := tree - {path};
    }

    /** Removes a directory; the caller must know that it is an empty one. */
    method RemoveDir(path: Path)
      requires IsDir(tree, path) && IsEmpty(tree, path)
      modifies this`tree
      ensures tree == old(tree) - {path}
    {
      tree := tree - {path};
    }
  }

  // ---------- Initialization ----------

  function RelativeTo(root: Path, path: Path): Entry
    requires root <= path
  {
    Relative(path[|root|..])
  }

  function RelativeAll(root: Path, paths: seq<Path>): (r: seq<Entry>)
    requires forall p | p in paths :: root <= p
    ensures |r| == |paths|
  {
    if paths == [] then []
    else
      var front, last := paths[..|paths| - 1], paths[|paths| - 1];
      assert last in paths && forall p | p in front :: p in paths;
      RelativeAll(root, front) + [RelativeTo(root, last)]
  }

  function ConfigOf(root: Path, mode: Mode, backend: BackendName, created: seq<Path>): Content
    requires forall p | p in created :: root <= p
  {
    Config(1, mode, backend, Created(RelativeAll(root, created)))
  }

  lemma LayoutIsBelowRoot(root: Path, path: Path)
    requires path in Layout(root)
    ensures root <= path
  {
    var i :| 0 <= i < 6 && Layout(root)[i] == path;
  }

  /** The tree that initialization is to leave: the missing directories and the config that lists them. */
  ghost predicate IsInitializedFrom(
    after: Tree, before: Tree, root: Path, mode: Mode, backend: BackendName, created: seq<Path>)
  {
    && created == Missing(before, Layout(root))
    && ConfigPath(root) !in before
    && (forall p | p in created :: root <= p)
    && after == WithDirs(before, created)[ConfigPath(root) := File(ConfigOf(root, mode, backend, created))]
  }

  /** The config already there was written for the same settings, over a layout that is still complete. */
  predicate IsSameInstallation(tree: Tree, root: Path, mode: Mode, backend: BackendName) {
    && ConfigPath(root) in tree && tree[ConfigPath(root)].File?
    && (forall i | 0 <= i < 6 :: IsDir(tree, Layout(root)[i]))
    && var content := tree[ConfigPath(root)].content;
      content.Config? && content.version == 1 && content.created.Created?
      && content.mode == mode && content.backend == backend
  }

  lemma {:induction false} EmptyAfterLaterOnesAreGone(tree: Tree, created: seq<Path>, k: nat)
    requires IsTree(tree) && NoRepeats(created) && ParentsFirst(created) && k < |created|
    requires forall p | p in created :: p !in tree
    ensures IsEmpty(WithDirs(tree, created[..k + 1]), created[k])
    ensures WithDirs(tree, created[..k + 1]) - {created[k]} == WithDirs(tree, created[..k])
  {
    WithOneMoreDir(tree, created, k);
    assert created[k] in created && created[k] !in created[..k];
    assert created[k] !in WithDirs(tree, created[..k]);
    assert forall child | child in tree && child != [] :: Parent(child) in tree;
    hide WithDirs;
  }

  lemma UndoablePrefix(tree: Tree, created: seq<Path>, k: nat)
    requires NoRepeats(created) && ParentsFirst(created) && k <= |created|
    requires forall p | p in created :: p !in tree
    ensures NoRepeats(created[..k]) && ParentsFirst(created[..k]) && forall p | p in created[..k] :: p !in tree
  {
    hide IsChild;
  }

  /** Takes back what was created so far, newest first: every directory is empty when its turn comes. */
  method Undo(disk: Disk, created: seq<Path>, ghost before: Tree)
    requires IsTree(before) && NoRepeats(created) && ParentsFirst(created)
    requires (forall p | p in created :: p !in before) && disk.tree == WithDirs(before, created)
    modifies disk
    ensures disk.tree == before
  {
    assert created[..|created|] == created;
    for k := |created| downto 0
      invariant disk.tree == WithDirs(before, created[..k])
    {
      EmptyAfterLaterOnesAreGone(before, created, k);
      disk.RemoveDir(created[k]);
    }
    assert WithDirs(before, []) == before;
  }

  /** A new home may be made here: a known selection, nothing in the way, and no config yet. */
  predicate IsPlanned(tree: Tree, root: Path, mode: Mode, backend: BackendName) {
    IsSelection(mode, backend) && !IsBlocked(tree, root) && ConfigPath(root) !in tree
  }

  /**
   Initializes exactly when that was planned and no operation of the disk fails: one for each missing
   directory and two for the config.
   */
  method InitializeRuntimeHome(disk: Disk, root: Path, mode: Mode, backend: BackendName) returns (r: Outcome)
    requires IsTree(disk.tree)
    modifies disk
    ensures r.Refused? || r.Initialized? || r.AlreadyInitialized?
    ensures r.Initialized? <==>
              && old(IsPlanned(disk.tree, root, mode, backend))
              && Succeed(disk.failing, old(disk.tick), |Missing(old(disk.tree), Layout(root))| + 2)
    ensures r.AlreadyInitialized? <==>
              && IsSelection(mode, backend) && !IsBlocked(old(disk.tree), root)
              && IsSameInstallation(old(disk.tree), root, mode, backend)
    ensures r.Refused? || r.AlreadyInitialized? ==> disk.tree == old(disk.tree)
    ensures r.Initialized? ==> IsInitializedFrom(disk.tree, old(disk.tree), root, mode, backend, r.created)
  {
    hide Layout, IsTree;
    if !IsSelection(mode, backend) {
      return Refused("unsupported selection");
    }
    if IsBlocked(disk.tree, root) {
      return Refused("blocked");
    }
    var config := ConfigPath(root);
    if config in disk.tree {
      if IsSameInstallation(disk.tree, root, mode, backend) {
        return AlreadyInitialized;
      }
      return Refused("runtime config does not match");
    }
    r := CreateLayout(disk, root, mode, backend);
  }

  /** The config records the selection: the new home is recognised under that one and no other. */
  lemma {:induction false} RecognisedBySelection(
    after: Tree, before: Tree, root: Path, mode: Mode, backend: BackendName, created: seq<Path>,
    nextMode: Mode, nextBackend: BackendName)
    requires IsInitializedFrom(after, before, root, mode, backend, created) && !IsBlocked(before, root)
    ensures !IsBlocked(after, root) && ConfigPath(root) in after
    ensures IsSameInstallation(after, root, nextMode, nextBackend) <==> nextMode == mode && nextBackend == backend
  {
    hide Layout, IsBlocked, IsDir, Missing, WithDirs;
    LayoutIsThere(before, root, created);
    CreatedFacts(before, root, created);
    ConfigIsNotInLayout(root);
    NothingIsBlocked(
      after, before, root, created, File(ConfigOf(root, mode, backend, created)));
    LayoutStays(WithDirs(before, created), root, File(ConfigOf(root, mode, backend, created)));
  }

  lemma LayoutIsThere(before: Tree, root: Path, created: seq<Path>)
    requires created == Missing(before, Layout(root)) && !IsBlocked(before, root)
    ensures forall i | 0 <= i < 6 :: IsDir(WithDirs(before, created), Layout(root)[i])
  {
    hide Layout;
    forall i | 0 <= i < 6 ensures IsDir(WithDirs(before, created), Layout(root)[i]) {
      assert Layout(root)[i] in Layout(root);
    }
  }

  lemma LayoutStays(tree: Tree, root: Path, config: Node)
    requires forall i | 0 <= i < 6 :: IsDir(tree, Layout(root)[i])
    ensures forall i | 0 <= i < 6 :: IsDir(tree[ConfigPath(root) := config], Layout(root)[i])
  {
    hide Layout;
    ConfigIsNotInLayout(root);
    assert forall i | 0 <= i < 6 :: Layout(root)[i] in Layout(root);
  }

  lemma NothingIsBlocked(after: Tree, before: Tree, root: Path, created: seq<Path>, config: Node)
    requires created == Missing(before, Layout(root)) && !IsBlocked(before, root)
    requires after == WithDirs(before, created)[ConfigPath(root) := config]
    ensures !IsBlocked(after, root)
  {
    hide Layout, Missing, IsDir;
    LayoutIsThere(before, root, created);
    LayoutStays(WithDirs(before, created), root, config);
    EngineFilesStay(after, before, root, created);
    DirsAreDirs(after, root);
  }

  lemma DirsAreDirs(tree: Tree, root: Path)
    requires forall i | 0 <= i < 6 :: IsDir(tree, Layout(root)[i])
    ensures forall i | 0 <= i < 6 :: Layout(root)[i] in tree && tree[Layout(root)[i]].Dir?
    ensures root in tree && tree[root].Dir?
  {
    hide Layout;
    assert Layout(root)[0] == root;
  }

  lemma EngineFilesStay(after: Tree, before: Tree, root: Path, created: seq<Path>)
    requires created == Missing(before, Layout(root))
    requires forall p | p !in created && p != ConfigPath(root) ::
               (p in after <==> p in before) && (p in after ==> after[p] == before[p])
    ensures IsDir(after, root + ["core"]) <==> IsDir(before, root + ["core"])
    ensures var engine := root + ["hikari.py"];
      (engine in after <==> engine in before) && (engine in after ==> after[engine] == before[engine])
  {
    NotInLayout(root, "core");
    NotInLayout(root, "hikari.py");
    assert (root + ["core"])[|root|] != ConfigPath(root)[|root|];
    assert (root + ["hikari.py"])[|root|] != ConfigPath(root)[|root|];
  }

  lemma NotInLayout(root: Path, name: string)
    requires name != "brain" && name != "backups"
    ensures root + [name] !in Layout(root)
  {
    assert (root + [name])[|root|] == name;
    assert (root + ["brain"])[|root|] == "brain" && (root + ["backups"])[|root|] == "backups";
  }

  lemma RoomKeepsTree(tree: Tree, path: Path, node: Node)
    requires IsTree(tree) && HasRoom(tree, path)
    ensures IsTree(tree[path := node])
  {
  }

  lemma {:induction false} CreatedIsTree(tree: Tree, root: Path, k: nat)
    requires IsTree(tree) && !IsBlocked(tree, root) && k <= |Missing(tree, Layout(root))|
    ensures IsTree(WithDirs(tree, Missing(tree, Layout(root))[..k]))
  {
    hide Layout, Missing, IsBlocked, IsTree, HasRoom;
    if k > 0 {
      CreatedIsTree(tree, root, k - 1);
      ParentComesFirst(tree, root, k - 1);
      WithOneMoreDir(tree, Missing(tree, Layout(root)), k - 1);
      RoomKeepsTree(
        WithDirs(tree, Missing(tree, Layout(root))[..k - 1]), Missing(tree, Layout(root))[k - 1], Dir);
    }
  }

  /** What initialization leaves is a tree again. */
  lemma InitializedTree(
    after: Tree, before: Tree, root: Path, mode: Mode, backend: BackendName, created: seq<Path>)
    requires IsTree(before) && !IsBlocked(before, root)
    requires IsInitializedFrom(after, before, root, mode, backend, created)
    ensures IsTree(after)
  {
    hide Layout, Missing, IsBlocked, IsTree;
    CreatedIsTree(before, root, |created|);
    assert created[..|created|] == created;
    CreatedFacts(before, root, created);
    ConfigIsNotInLayout(root);
    RootIsThere(before, root, created);
    RoomKeepsTree(WithDirs(before, created), ConfigPath(root), File(ConfigOf(root, mode, backend, created)));
  }

  lemma RootIsThere(before: Tree, root: Path, created: seq<Path>)
    requires created == Missing(before, Layout(root)) && !IsBlocked(before, root)
    ensures IsDir(WithDirs(before, created), root)
  {
    assert Layout(root)[0] == root && root in Layout(root);
  }

  /** Initializing once more recognises the home under the same selection, refuses another, and changes nothing. */
  method InitializeTwice(
    disk: Disk, root: Path, mode: Mode, backend: BackendName, nextMode: Mode, nextBackend: BackendName)
    returns (first: Outcome, second: Outcome)
    requires IsTree(disk.tree)
    modifies disk
    ensures first.Initialized? ==>
              && (second.AlreadyInitialized? <==> nextMode == mode && nextBackend == backend)
              && (second.Refused? <==> nextMode != mode || nextBackend != backend)
              && IsInitializedFrom(disk.tree, old(disk.tree), root, mode, backend, first.created)
  {
    hide Layout, IsBlocked, IsInitializedFrom, IsSameInstallation, Missing, IsSelection;
    ghost var before := disk.tree;
    first := InitializeRuntimeHome(disk, root, mode, backend);
    second := first;
    if first.Initialized? {
      RecognisedBySelection(disk.tree, before, root, mode, backend, first.created, nextMode, nextBackend);
      InitializedTree(disk.tree, before, root, mode, backend, first.created);
      second := InitializeRuntimeHome(disk, root, nextMode, nextBackend);
    }
  }

  // ---------- Each directory is created in one that is there ----------

  lemma {:induction false} MissingOfPrefix(tree: Tree, paths: seq<Path>, n: nat)
    requires n <= |paths|
    ensures Missing(tree, paths[..n]) <= Missing(tree, paths)
    ensures n < |paths| && paths[n] !in tree ==>
              && |Missing(tree, paths[..n])| < |Missing(tree, paths)|
              && Missing(tree, paths)[|Missing(tree, paths[..n])|] == paths[n]
  {
    if n == |paths| {
      assert paths[..n] == paths;
    } else {
      var front := paths[..|paths| - 1];
      MissingOfPrefix(tree, front, n);
      assert front[..n] == paths[..n];
      if n == |front| {
        assert paths[..n] == front;
      } else {
        assert front[n] == paths[n];
      }
    }
  }

  /** The missing path at position i of the layout is created after exactly the missing ones before it. */
  lemma MissingAt(tree: Tree, root: Path, k: nat) returns (i: nat)
    requires k < |Missing(tree, Layout(root))|
    ensures i < 6 && Layout(root)[i] == Missing(tree, Layout(root))[k] && Layout(root)[i] !in tree
    ensures Missing(tree, Layout(root))[..k] == Missing(tree, Layout(root)[..i])
  {
    var layout := Layout(root);
    var create := Missing(tree, layout);
    MissingKeepsOrder(tree, layout);
    assert create[k] in create;
    hide Layout;
    i :| 0 <= i < 6 && layout[i] == create[k];
    MissingOfPrefix(tree, layout, i);
    hide Missing, ParentsFirst;
    var at := |Missing(tree, layout[..i])|;
    assert create[at] == create[k];
    assert at == k;
  }

  /** The directory a missing path lies in is there before it, or is created before it. */
  lemma {:induction false} ParentComesFirst(tree: Tree, root: Path, k: nat)
    requires IsTree(tree) && !IsBlocked(tree, root) && k < |Missing(tree, Layout(root))|
    ensures HasRoom(WithDirs(tree, Missing(tree, Layout(root))[..k]), Missing(tree, Layout(root))[k])
  {
    var i := MissingAt(tree, root, k);
    MissingKeepsOrder(tree, Layout(root));
    NotYetCreated(tree, Missing(tree, Layout(root)), k);
    if i == 0 {
      RootHasRoom(tree, root);
    } else {
      LayoutHasRoom(tree, root, i);
    }
  }

  lemma LayoutHasRoom(tree: Tree, root: Path, i: nat)
    requires !IsBlocked(tree, root) && 0 < i < 6
    ensures Layout(root)[i] != []
    ensures IsDir(WithDirs(tree, Missing(tree, Layout(root)[..i])), Parent(Layout(root)[i]))
  {
    var layout := Layout(root);
    assert root < layout[i] && Parent(layout[i]) in layout[..i];
    hide Layout;
    var parent := Parent(layout[i]);
    var j :| 0 <= j < i && layout[..i][j] == parent;
    assert layout[j] == parent;
    assert parent in tree ==> IsDir(tree, parent);
    assert parent !in tree ==> parent in Missing(tree, layout[..i]);
  }

  lemma RootHasRoom(tree: Tree, root: Path)
    requires IsTree(tree) && !IsBlocked(tree, root) && root !in tree
    ensures root != [] && IsDir(tree, Parent(root))
  {
    hide Layout;
  }

  /** Each path can be created once those before it are. */
  ghost predicate HaveRoomInTurn(tree: Tree, create: seq<Path>) {
    forall k | 0 <= k < |create| :: HasRoom(WithDirs(tree, create[..k]), create[k])
  }

  /** Creates the directories in order, or none of them. */
  method MakeDirs(disk: Disk, create: seq<Path>) returns (ok: bool)
    requires IsTree(disk.tree) && NoRepeats(create) && ParentsFirst(create)
    requires forall p | p in create :: p !in disk.tree
    requires HaveRoomInTurn(disk.tree, create)
    modifies disk
    ensures ok <==> Succeed(disk.failing, old(disk.tick), |create|)
    ensures ok ==> disk.tick == old(disk.tick) + |create|
    ensures disk.tree == if ok then WithDirs(old(disk.tree), create) else old(disk.tree)
  {
    hide IsTree, NoRepeats, ParentsFirst, HasRoom;
    ghost var before := disk.tree;
    assert WithDirs(before, create[..0]) == before;
    for k := 0 to |create|
      invariant disk.tree == WithDirs(before, create[..k])
      invariant disk.tick == old(disk.tick) + k
      invariant forall i | old(disk.tick) <= i < old(disk.tick) + k :: !disk.failing(i)
    {
      var made := disk.MakeDir(create[k]);
      if !made {
        UndoablePrefix(before, create, k);
        Undo(disk, create[..k], before);
        return false;
      }
      WithOneMoreDir(before, create, k);
    }
    assert create[..|create|] == create;
    return true;
  }

  lemma NotYetCreated(tree: Tree, create: seq<Path>, k: nat)
    requires NoRepeats(create) && k < |create| && create[k] !in tree
    ensures create[k] !in WithDirs(tree, create[..k])
  {
  }

  /** Writes the config where none was, or leaves nothing of it. */
  method WriteConfig(disk: Disk, config: Path, content: Content) returns (ok: bool)
    requires HasRoom(disk.tree, config)
    modifies disk
    ensures ok <==> Succeed(disk.failing, old(disk.tick), 2)
    ensures disk.tree == if ok then old(disk.tree)[config := File(content)] else old(disk.tree)
  {
    ghost var before := disk.tree;
    ok := disk.CreateExclusively(config);
    if ok {
      ok := disk.Write(config, content);
      if !ok {
        disk.Unlink(config);
        assert disk.tree == before;
      }
    }
  }

  lemma ConfigHasRoom(tree: Tree, root: Path)
    requires !IsBlocked(tree, root) && ConfigPath(root) !in tree
    ensures HasRoom(WithDirs(tree, Missing(tree, Layout(root))), ConfigPath(root))
  {
    ConfigIsNotInLayout(root);
    var create := Missing(tree, Layout(root));
    assert Layout(root)[0] == root && root in Layout(root);
    assert root in tree || root in create;
  }

  lemma CreatedHasRoom(tree: Tree, root: Path)
    requires IsTree(tree) && !IsBlocked(tree, root)
    ensures var create := Missing(tree, Layout(root));
      && NoRepeats(create) && ParentsFirst(create) && (forall p | p in create :: root <= p && p !in tree)
      && HaveRoomInTurn(tree, create)
  {
    var create := Missing(tree, Layout(root));
    MissingKeepsOrder(tree, Layout(root));
    forall p | p in create ensures root <= p {
      LayoutIsBelowRoot(root, p);
    }
    hide Layout, IsBlocked, IsTree, Missing, HasRoom, NoRepeats, ParentsFirst;
    forall k | 0 <= k < |create| ensures HasRoom(WithDirs(tree, create[..k]), create[k]) {
      ParentComesFirst(tree, root, k);
    }
  }

  /** The transaction itself. */
  method CreateLayout(disk: Disk, root: Path, mode: Mode, backend: BackendName) returns (r: Outcome)
    requires IsTree(disk.tree) && !IsBlocked(disk.tree, root) && ConfigPath(root) !in disk.tree
    modifies disk
    ensures r.Refused? || r.Initialized?
    ensures r.Initialized? <==> Succeed(disk.failing, old(disk.tick), |Missing(old(disk.tree), Layout(root))| + 2)
    ensures r.Refused? ==> disk.tree == old(disk.tree)
    ensures r.Initialized? ==> IsInitializedFrom(disk.tree, old(disk.tree), root, mode, backend, r.created)
  {
    hide Layout, IsBlocked, IsTree, Missing, HasRoom, HaveRoomInTurn, NoRepeats, ParentsFirst, Succeed, WithDirs;
    hide ConfigOf, ConfigPath;
    ghost var before := disk.tree;
    var create := Missing(disk.tree, Layout(root));
    CreatedHasRoom(before, root);
    ConfigHasRoom(before, root);
    SucceedInTurn(disk.failing, disk.tick, |create|, 2);
    var made := MakeDirs(disk, create);
    if !made {
      return Refused("directory creation failed");
    }
    var written := WriteConfig(disk, ConfigPath(root), ConfigOf(root, mode, backend, create));
    if !written {
      Undo(disk, create, before);
      return Refused("config write failed");
    }
    return Initialized(create);
  }

  // ---------- Rollback ----------

  /** The config names created paths by their place in the layout: each known, none twice. */
  predicate AreRollbackPaths(root: Path, entries: seq<Entry>) {
    && (forall i | 0 <= i < |entries| :: entries[i].Relative? && root + entries[i].path in Layout(root))
    && (forall i, j | 0 <= i < j < |entries| :: entries[i] != entries[j])
  }

  function Absolute(root: Path, entries: seq<Entry>): (r: seq<Path>)
    requires forall i | 0 <= i < |entries| :: entries[i].Relative?
    ensures |r| == |entries| && forall i | 0 <= i < |r| :: r[i] == root + entries[i].path
  {
    seq(|entries|, i requires 0 <= i < |entries| => root + entries[i].path)
  }

  /** A recorded directory is still a directory and holds nothing but what is removed with it. */
  predicate HoldsOnly(tree: Tree, path: Path, expected: set<Path>) {
    IsDir(tree, path) && forall child | child in tree && IsChild(child, path) :: child in expected
  }

  ghost function PathSet(paths: seq<Path>): set<Path> {
    set p | p in paths
  }

  /** Rollback goes ahead: the token, a config of this program, known paths, and nothing else inside them. */
  predicate IsRollbackable(tree: Tree, root: Path) {
    && ConfigPath(root) in tree && tree[ConfigPath(root)].File? && tree[ConfigPath(root)].content.Config?
    && var content := tree[ConfigPath(root)].content;
      && content.version == 1 && content.created.Created?
      && AreRollbackPaths(root, content.created.entries)
      && var created := Absolute(root, content.created.entries);
        forall i | 0 <= i < |created| ::
          HoldsOnly(tree, created[i], (set p | p in created) + {ConfigPath(root)})
  }

  function RecordedPaths(tree: Tree, root: Path): seq<Path>
    requires IsRollbackable(tree, root)
  {
    Absolute(root, tree[ConfigPath(root)].content.created.entries)
  }

  ghost predicate DeepestFirst(paths: seq<Path>) {
    forall i, j | 0 <= i < j < |paths| :: |paths[i]| >= |paths[j]|
  }

  method SortDeepestFirst(paths: seq<Path>) returns (sorted: seq<Path>)
    requires NoRepeats(paths)
    ensures DeepestFirst(sorted) && NoRepeats(sorted) && |sorted| == |paths|
    ensures PathSet(sorted) == PathSet(paths)
  {
    sorted := [];
    for i := 0 to |paths|
      invariant DeepestFirst(sorted) && NoRepeats(sorted) && |sorted| == i
      invariant PathSet(sorted) == PathSet(paths[..i])
    {
      var k := 0;
      while k < |sorted| && |sorted[k]| >= |paths[i]|
        invariant 0 <= k <= |sorted|
        invariant forall j | 0 <= j < k :: |sorted[j]| >= |paths[i]|
      {
        k := k + 1;
      }
      InsertedPath(sorted, paths, i, k);
      sorted := sorted[..k] + [paths[i]] + sorted[k..];
    }
    assert paths[..|paths|] == paths;
  }

  lemma InsertedMembers(sorted: seq<Path>, path: Path, k: nat)
    requires k <= |sorted|
    ensures forall p :: p in sorted[..k] + [path] + sorted[k..] <==> p in sorted || p == path
  {
    assert sorted == sorted[..k] + sorted[k..];
  }

  lemma InsertedPath(sorted: seq<Path>, paths: seq<Path>, i: nat, k: nat)
    requires NoRepeats(paths) && i < |paths| && k <= |sorted|
    requires DeepestFirst(sorted) && NoRepeats(sorted) && PathSet(sorted) == PathSet(paths[..i])
    requires forall j | 0 <= j < k :: |sorted[j]| >= |paths[i]|
    requires k < |sorted| ==> |sorted[k]| < |paths[i]|
    ensures var longer := sorted[..k] + [paths[i]] + sorted[k..];
      DeepestFirst(longer) && NoRepeats(longer) && PathSet(longer) == PathSet(paths[..i + 1])
  {
    assert paths[i] !in paths[..i];
    assert paths[i] !in PathSet(sorted);
    assert paths[..i + 1] == paths[..i] + [paths[i]];
    var longer := sorted[..k] + [paths[i]] + sorted[k..];
    InsertedMembers(sorted, paths[i], k);
    assert forall p :: p in longer <==> p in sorted || p == paths[i];
    assert PathSet(longer) == PathSet(sorted) + {paths[i]} == PathSet(paths[..i + 1]);
  }

  /** When its turn comes, everything a recorded directory held has been removed before it. */
  lemma {:induction false} EmptyInTurn(tree: Tree, root: Path, sorted: seq<Path>, k: nat)
    requires DeepestFirst(sorted) && NoRepeats(sorted) && k < |sorted|
    requires forall i | 0 <= i < |sorted| :: HoldsOnly(tree, sorted[i], PathSet(sorted) + {ConfigPath(root)})
    requires ConfigPath(root) !in sorted
    ensures IsDir(tree - {ConfigPath(root)} - PathSet(sorted[..k]), sorted[k])
    ensures IsEmpty(tree - {ConfigPath(root)} - PathSet(sorted[..k]), sorted[k])
  {
    var now := tree - {ConfigPath(root)} - PathSet(sorted[..k]);
    assert HoldsOnly(tree, sorted[k], PathSet(sorted) + {ConfigPath(root)});
    assert sorted[k] in sorted && sorted[k] !in sorted[..k];
    forall child | child in now ensures !IsChild(child, sorted[k]) {
      if child in sorted {
        var j :| 0 <= j < |sorted| && sorted[j] == child;
        assert j >= k;
        assert |child| <= |sorted[k]|;
      }
    }
  }

  method RollbackInitialization(disk: Disk, token: string, root: Path) returns (r: Outcome)
    modifies disk
    ensures r.Refused? || r.RolledBack?
    ensures r.RolledBack? <==> token == "ROLLBACK" && IsRollbackable(old(disk.tree), root)
    ensures r.Refused? ==> disk.tree == old(disk.tree)
    ensures r.RolledBack? ==>
              && PathSet(r.removed) == PathSet(RecordedPaths(old(disk.tree), root)) + {ConfigPath(root)}
              && |r.removed| == |RecordedPaths(old(disk.tree), root)| + 1
              && disk.tree == old(disk.tree) - PathSet(r.removed)
  {
    if token != "ROLLBACK" || !IsRollbackable(disk.tree, root) {
      return Refused("rollback refused");
    }
    ghost var before := disk.tree;
    var config := ConfigPath(root);
    var created := RecordedPaths(disk.tree, root);
    RecordedAreLayout(before, root);
    var sorted := SortDeepestFirst(created);
    SortedHoldOnly(before, root, created, sorted);
    hide IsRollbackable, HoldsOnly, NoRepeats, DeepestFirst, IsDir, IsEmpty;
    disk.Unlink(config);
    RemoveDirs(disk, root, sorted, before);
    assert PathSet([config] + sorted) == PathSet(sorted) + {config};
    return RolledBack([config] + sorted);
  }

  /** Removes the directories in turn; each is empty by then. */
  method RemoveDirs(disk: Disk, root: Path, sorted: seq<Path>, ghost before: Tree)
    requires DeepestFirst(sorted) && NoRepeats(sorted) && ConfigPath(root) !in sorted
    requires forall i | 0 <= i < |sorted| :: HoldsOnly(before, sorted[i], PathSet(sorted) + {ConfigPath(root)})
    requires disk.tree == before - {ConfigPath(root)}
    modifies disk
    ensures disk.tree == before - {ConfigPath(root)} - PathSet(sorted)
  {
    hide HoldsOnly, NoRepeats, DeepestFirst, IsDir, IsEmpty;
    for k := 0 to |sorted|
      invariant disk.tree == before - {ConfigPath(root)} - PathSet(sorted[..k])
    {
      EmptyInTurn(before, root, sorted, k);
      disk.RemoveDir(sorted[k]);
      assert sorted[..k + 1] == sorted[..k] + [sorted[k]];
    }
    assert sorted[..|sorted|] == sorted;
  }

  lemma RecordedAreLayout(tree: Tree, root: Path)
    requires IsRollbackable(tree, root)
    ensures NoRepeats(RecordedPaths(tree, root)) && ConfigPath(root) !in RecordedPaths(tree, root)
  {
    hide Layout, HoldsOnly;
    var entries := tree[ConfigPath(root)].content.created.entries;
    var created := RecordedPaths(tree, root);
    ConfigIsNotInLayout(root);
    assert forall i | 0 <= i < |created| :: created[i] in Layout(root);
    forall i, j | 0 <= i < j < |created| ensures created[i] != created[j] {
      assert entries[i] != entries[j];
      SameSuffix(root, entries[i].path, entries[j].path);
    }
  }

  lemma SameSuffix(root: Path, a: Path, b: Path)
    ensures root + a == root + b ==> a == b
  {
    assert (root + a)[|root|..] == a && (root + b)[|root|..] == b;
  }

  lemma SortedHoldOnly(tree: Tree, root: Path, created: seq<Path>, sorted: seq<Path>)
    requires IsRollbackable(tree, root) && created == RecordedPaths(tree, root)
    requires PathSet(sorted) == PathSet(created)
    ensures forall i | 0 <= i < |sorted| :: HoldsOnly(tree, sorted[i], PathSet(sorted) + {ConfigPath(root)})
    ensures forall p :: p in sorted <==> p in created
  {
    hide AreRollbackPaths, HoldsOnly;
    assert forall p :: p in sorted <==> p in PathSet(sorted);
    assert forall p :: p in created <==> p in PathSet(created);
    assert (set p | p in created) == PathSet(sorted);
    forall i | 0 <= i < |sorted| ensures HoldsOnly(tree, sorted[i], PathSet(sorted) + {ConfigPath(root)}) {
      assert sorted[i] in created;
    }
  }

  // ---------- The inverse ----------

  lemma {:induction false} RelativeAllAt(root: Path, paths: seq<Path>, i: nat)
    requires (forall p | p in paths :: root <= p) && i < |paths|
    ensures RelativeAll(root, paths)[i].Relative? && root + RelativeAll(root, paths)[i].path == paths[i]
  {
    var front, last := paths[..|paths| - 1], paths[|paths| - 1];
    assert last in paths && forall p | p in front :: p in paths;
    if i < |front| {
      RelativeAllAt(root, front, i);
    } else {
      assert root + last[|root|..] == last;
    }
  }

  lemma RecordedAreCreated(root: Path, created: seq<Path>)
    requires NoRepeats(created) && (forall p | p in created :: root <= p && p in Layout(root))
    ensures var entries := RelativeAll(root, created);
      AreRollbackPaths(root, entries) && Absolute(root, entries) == created
  {
    hide Layout;
    var entries := RelativeAll(root, created);
    forall i | 0 <= i < |created|
      ensures entries[i].Relative? && root + entries[i].path == created[i] && created[i] in Layout(root)
    {
      RelativeAllAt(root, created, i);
      assert created[i] in created;
    }
  }

  lemma CreatedHoldOnlyCreated(before: Tree, after: Tree, root: Path, created: seq<Path>, i: nat)
    requires IsTree(before) && i < |created| && (forall p | p in created :: p !in before)
    requires ConfigPath(root) !in before && ConfigPath(root) !in created
    requires forall p :: p in after <==> p in before || p in created || p == ConfigPath(root)
    requires forall p | p in created :: after[p] == Dir
    ensures HoldsOnly(after, created[i], (set p | p in created) + {ConfigPath(root)})
  {
    assert created[i] in created;
    assert forall child | child in before && child != [] :: Parent(child) in before;
  }

  lemma InitializedKeys(before: Tree, created: seq<Path>, config: Path, content: Content)
    requires config !in before && (forall p | p in created :: p !in before) && config !in created
    ensures var after := WithDirs(before, created)[config := File(content)];
      && (forall p :: p in after <==> p in before || p in created || p == config)
      && (forall p | p in created :: after[p] == Dir)
      && after - (PathSet(created) + {config}) == before
  {
  }

  lemma CreatedFacts(before: Tree, root: Path, created: seq<Path>)
    requires created == Missing(before, Layout(root))
    ensures NoRepeats(created) && ConfigPath(root) !in created
    ensures forall p | p in created :: p in Layout(root) && p !in before
  {
    MissingKeepsOrder(before, Layout(root));
    ConfigIsNotInLayout(root);
  }

  lemma {:induction false} InitializedIsRollbackable(
    before: Tree, after: Tree, root: Path, mode: Mode, backend: BackendName, created: seq<Path>)
    requires IsTree(before) && NoRepeats(created)
             && (forall p | p in created :: root <= p && p in Layout(root) && p !in before)
    requires ConfigPath(root) !in before && ConfigPath(root) !in created
    requires after == WithDirs(before, created)[ConfigPath(root) := File(ConfigOf(root, mode, backend, created))]
    ensures IsRollbackable(after, root) && RecordedPaths(after, root) == created
  {
    hide Layout, HoldsOnly, AreRollbackPaths, WithDirs, IsTree, NoRepeats;
    RecordedAreCreated(root, created);
    InitializedKeys(before, created, ConfigPath(root), ConfigOf(root, mode, backend, created));
    forall i | 0 <= i < |created|
      ensures HoldsOnly(after, created[i], (set p | p in created) + {ConfigPath(root)})
    {
      CreatedHoldOnlyCreated(before, after, root, created, i);
    }
  }

  /** Rolling back right after initializing is accepted and gives back the very tree there was before. */
  lemma {:induction false} RollbackUndoesInitialization(
    before: Tree, after: Tree, root: Path, mode: Mode, backend: BackendName, created: seq<Path>)
    requires IsTree(before) && IsInitializedFrom(after, before, root, mode, backend, created)
    ensures IsRollbackable(after, root) && RecordedPaths(after, root) == created
    ensures after - (PathSet(RecordedPaths(after, root)) + {ConfigPath(root)}) == before
  {
    hide Layout, IsRollbackable, RecordedPaths, WithDirs, IsTree, NoRepeats, Missing, ConfigPath, PathSet;
    CreatedFacts(before, root, created);
    InitializedIsRollbackable(before, after, root, mode, backend, created);
    InitializedKeys(before, created, ConfigPath(root), ConfigOf(root, mode, backend, created));
  }

  /** Anything put into a created directory since then makes rollback refuse, hence change nothing. */
  lemma {:induction false} AddedDataBlocksRollback(tree: Tree, root: Path, added: Path, node: Node, i: nat)
    requires IsRollbackable(tree, root) && added !in tree && i < |RecordedPaths(tree, root)|
    requires IsChild(added, RecordedPaths(tree, root)[i])
    ensures !IsRollbackable(tree[added := node], root)
  {
    hide Layout, AreRollbackPaths;
    var created := RecordedPaths(tree, root);
    forall j | 0 <= j < |created| ensures created[j] in tree {
      assert HoldsOnly(tree, created[j], (set p | p in created) + {ConfigPath(root)});
    }
    assert added !in created;
    assert !HoldsOnly(tree[added := node], created[i], (set p | p in created) + {ConfigPath(root)});
  }
}
