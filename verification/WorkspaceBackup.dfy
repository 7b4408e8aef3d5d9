/** Archiving a workspace, and validating what an archive unpacks to. */
module WorkspaceBackup {
  import opened Prelude

  /** A file name: its text as far as it is UTF-8, and the bytes from the first one on that is not. */
  datatype Name = Name(text: string, rest: seq<bv8>)

  /** A path below the workspace, part by part. */
  type Path = seq<Name>

  /**
   * What a listing shows.  Regular files may be closed to the reader; pipes and devices are special; sockets are listed
   * but tarfile leaves them out of the archive.
   */
  datatype Entry = Regular(content: string) | Closed | Directory | Symlink(dangling: bool) | Special | Socket

  datatype Manifest = Manifest(files: seq<Path>, fileCount: nat)

  /** What a file in the archive holds: bytes, or a manifest as JSON (whose printing and parsing are inverse). */
  datatype Content = Bytes(text: string) | Json(manifest: Manifest)

  /** An archive member; special files have no content. */
  datatype Member = Member(path: Path, content: Option<Content>)

  /** The workspace below its root, and the database at its root. */
  datatype Workspace = Workspace(entries: map<Path, Entry>, database: Option<Entry>)

  const DATABASE: Path := [Name("marvis.sqlite", [])]
  const MANIFEST: Path := [Name("manifest.json", [])]
  const DEFAULT_DIRS := {
    Name("tasks", []), Name("plugins", []), Name("report_templates", []), Name("branding", []), Name("settings", [])}

  function IncludedDirs(includeDatasets: bool): set<Name> {
    if includeDatasets then DEFAULT_DIRS + {Name("datasets", [])} else DEFAULT_DIRS
  }

  predicate IsExcluded(name: Name) {
    || name == Name("__pycache__", [])
    || ".duckdb_tmp" <= name.text || ".excel_ingest_" <= name.text || ".xlsx_ingest_" <= name.text
  }

  /** Only such a path can be written into the manifest. */
  predicate IsUtf8(path: Path) {
    forall name | name in path :: name.rest == []
  }

  predicate HasExcludedPart(path: Path) {
    exists part | part in path :: IsExcluded(part)
  }

  /** A tree: what is below a path is there only if the path is a directory. */
  predicate IsTree(entries: map<Path, Entry>) {
    forall p | p in entries :: p != [] && (|p| > 1 ==> p[..|p| - 1] in entries && entries[p[..|p| - 1]].Directory?)
  }

  // ---- What a backup holds ----

  predicate Under(path: Path, dirs: set<Name>) {
    |path| > 1 && path[0] in dirs
  }

  /** Neither the directory nor anything in it is a link. */
  predicate NoLinks(ws: Workspace, dir: Name) {
    forall p | p in ws.entries && p != [] && p[0] == dir :: !ws.entries[p].Symlink?
  }

  /** `exists` follows links, so a dangling one counts as no database. */
  predicate HasDatabase(ws: Workspace) {
    ws.database.Some? && ws.database.value != Symlink(true)
  }

  /** No links in the included directories, and the database is not one. */
  predicate LinkFree(ws: Workspace, dirs: set<Name>) {
    && (HasDatabase(ws) ==> !ws.database.value.Symlink?)
    && forall dir | dir in dirs :: NoLinks(ws, dir)
  }

  /** Files the inventory lists: those under included directories with no excluded part. */
  function Included(ws: Workspace, dirs: set<Name>): set<Path> {
    set p | p in ws.entries && Under(p, dirs) && !ws.entries[p].Directory? && !HasExcludedPart(p)
  }

  /** All included files can be opened. */
  predicate NoneClosed(ws: Workspace, dirs: set<Name>) {
    forall p | p in Included(ws, dirs) :: !ws.entries[p].Closed?
  }

  predicate NamesAreUtf8(ws: Workspace, dirs: set<Name>) {
    forall p | p in Included(ws, dirs) :: IsUtf8(p)
  }

  /** What the online backup gives of the database, if there is one; copying may fail. */
  function Saved(ws: Workspace, snapshot: Result<string>): Option<string> {
    if HasDatabase(ws) && snapshot.Success? then Some(snapshot.value) else None
  }

  /** Nothing is in the way of writing the archive. */
  predicate CanBackUp(ws: Workspace, dirs: set<Name>, snapshot: Result<string>) {
    && LinkFree(ws, dirs) && (HasDatabase(ws) ==> snapshot.Success?)
    && NoneClosed(ws, dirs) && NamesAreUtf8(ws, dirs)
  }

  /** What the archive holds for a path; special files have no content. */
  function ContentAt(ws: Workspace, snapshot: Option<string>, p: Path): Option<Content> {
    if p == DATABASE && snapshot.Some? then Some(Bytes(snapshot.value))
    else if p in ws.entries && ws.entries[p].Regular? then Some(Bytes(ws.entries[p].content))
    else None
  }

  predicate IsSocket(ws: Workspace, p: Path) {
    p != DATABASE && p in ws.entries && ws.entries[p].Socket?
  }

  /** All paths the inventory lists. */
  function Listed(ws: Workspace, dirs: set<Name>, snapshot: Option<string>): set<Path> {
    Included(ws, dirs) + if snapshot.Some? then {DATABASE} else {}
  }

  /** The backed-up part of the workspace: a snapshot of the database and the included files that tarfile takes. */
  function BackedUp(ws: Workspace, dirs: set<Name>, snapshot: Option<string>): map<Path, Option<Content>> {
    map p | p in Listed(ws, dirs, snapshot) && !IsSocket(ws, p) :: ContentAt(ws, snapshot, p)
  }

  /** Names a backup leaves out wherever they occur in a path. */
  predicate IsTemporary(name: Name) {
    || (name.text == "__pycache__" && name.rest == [])
    || (|name.text| >= 11 && name.text[..11] == ".duckdb_tmp")
    || (|name.text| >= 14 && name.text[..14] == ".excel_ingest_")
    || (|name.text| >= 13 && name.text[..13] == ".xlsx_ingest_")
  }

  lemma TemporaryExactly(name: Name)
    ensures IsTemporary(name) <==> IsExcluded(name)
  {
    assert ".duckdb_tmp" <= name.text <==> |name.text| >= 11 && name.text[..11] == ".duckdb_tmp";
    assert ".excel_ingest_" <= name.text <==> |name.text| >= 14 && name.text[..14] == ".excel_ingest_";
    assert ".xlsx_ingest_" <= name.text <==> |name.text| >= 13 && name.text[..13] == ".xlsx_ingest_";
  }

  /** One of the five directories that every backup holds, or datasets if they are asked for, or below one. */
  predicate InBackupDirectory(includeDatasets: bool, p: Path) {
    && |p| > 0 && p[0].rest == []
    && (p[0].text in {"tasks", "plugins", "report_templates", "branding", "settings"}
        || (includeDatasets && p[0].text == "datasets"))
  }

  predicate BelongsToBackup(includeDatasets: bool, p: Path) {
    |p| > 1 && InBackupDirectory(includeDatasets, p) && forall part | part in p :: !IsTemporary(part)
  }

  /**
   * What is backed up: the database's snapshot, and every file of those directories, datasets exactly when asked for,
   * regular ones with their content; folders are not listed and sockets not archived.
   */
  lemma BackedUpExactly(ws: Workspace, includeDatasets: bool, snapshot: Result<string>, p: Path)
    ensures var part := BackedUp(ws, IncludedDirs(includeDatasets), Saved(ws, snapshot));
      var hasDatabase := ws.database.Some? && ws.database.value != Symlink(true) && snapshot.Success?;
      && (p in part <==>
            || (p == [Name("marvis.sqlite", [])] && hasDatabase)
            || (BelongsToBackup(includeDatasets, p) && p in ws.entries
                && !ws.entries[p].Directory? && !ws.entries[p].Socket?))
      && (p in part && |p| == 1 ==> part[p] == Some(Bytes(snapshot.value)))
      && (p in part && |p| > 1 && ws.entries[p].Regular? ==> part[p] == Some(Bytes(ws.entries[p].content)))
  {
    forall part ensures IsTemporary(part) <==> IsExcluded(part) { TemporaryExactly(part); }
    DirsExactly(includeDatasets, p);
  }

  lemma DirsExactly(includeDatasets: bool, p: Path)
    ensures |p| > 0 ==> (p[0] in IncludedDirs(includeDatasets) <==> InBackupDirectory(includeDatasets, p))
  {
  }

  lemma EmptyIsNowhere(includeDatasets: bool)
    ensures !InBackupDirectory(includeDatasets, [])
  {
  }

  // ---- Archives ----

  /** Unpacking in order; a later member of the same name replaces an earlier one. */
  function Unpacked(members: seq<Member>): (m: map<Path, Option<Content>>)
    ensures forall p :: p in m <==> exists x | x in members :: x.path == p
  {
    if members == [] then map[]
    else
      var last := members[|members| - 1];
      assert members == members[..|members| - 1] + [last];
      Unpacked(members[..|members| - 1])[last.path := last.content]
  }

  lemma UnpackedAppends(members: seq<Member>, x: Member)
    ensures Unpacked(members + [x]) == Unpacked(members)[x.path := x.content]
  {
    assert (members + [x])[..|members|] == members;
  }

  /** `extractall` with the data filter: a special file anywhere makes it fail. */
  method Extract(members: seq<Member>) returns (r: Result<map<Path, Content>>)
    ensures r.Success? <==> forall x | x in members :: x.content.Some?
    ensures r.Success? ==> r.value.Keys == Unpacked(members).Keys && forall p | p in r.value :: Unpacked(members)[p] == Some(r.value[p])
  {
    var files: map<Path, Content> := map[];
    for i := 0 to |members|
      invariant forall x | x in members[..i] :: x.content.Some?
      invariant files.Keys == Unpacked(members[..i]).Keys
      invariant forall p | p in files :: Unpacked(members[..i])[p] == Some(files[p])
    {
      assert members[..i + 1] == members[..i] + [members[i]];
      UnpackedAppends(members[..i], members[i]);
      if members[i].content.None? { return Failure; }
      files := files[members[i].path := members[i].content.value];
    }
    assert members[..|members|] == members;
    return Success(files);
  }

  // ---- create_backup ----

  /** The archive members of an inventory. */
  function MembersOf(ws: Workspace, snapshot: Option<string>, inventory: seq<Path>): seq<Member> {
    if inventory == [] then []
    else
      var last := inventory[|inventory| - 1];
      MembersOf(ws, snapshot, inventory[..|inventory| - 1])
      + if IsSocket(ws, last) then [] else [Member(last, ContentAt(ws, snapshot, last))]
  }

  lemma MembersNext(ws: Workspace, snapshot: Option<string>, inventory: seq<Path>, p: Path)
    ensures MembersOf(ws, snapshot, inventory + [p])
         == MembersOf(ws, snapshot, inventory) + if IsSocket(ws, p) then [] else [Member(p, ContentAt(ws, snapshot, p))]
  {
    assert (inventory + [p])[..|inventory|] == inventory;
  }

  /** The archive so far belongs to the inventory so far, which lists the database and the files done, each once. */
  ghost predicate Archived(ws: Workspace, done: set<Path>, snapshot: Option<string>, members: seq<Member>,
                           inventory: seq<Path>) {
    && members == MembersOf(ws, snapshot, inventory) && Distinct(inventory)
    && (forall p :: p in inventory <==> p in done || (snapshot.Some? && p == DATABASE))
  }

  predicate Distinct(paths: seq<Path>) {
    forall i, j | 0 <= i < j < |paths| :: paths[i] != paths[j]
  }

  /** Files of the workspace below one of the directories. */
  function Below(ws: Workspace, dir: Name): set<Path> {
    set p | p in ws.entries && |p| > 1 && p[0] == dir
  }

  lemma ArchivedAppends(ws: Workspace, done: set<Path>, snapshot: Option<string>, members: seq<Member>,
                        inventory: seq<Path>, p: Path)
    requires Archived(ws, done, snapshot, members, inventory) && |p| > 1 && p !in done
    ensures Archived(ws, done + {p}, snapshot,
                     members + if IsSocket(ws, p) then [] else [Member(p, ContentAt(ws, snapshot, p))], inventory + [p])
  {
    MembersNext(ws, snapshot, inventory, p);
  }

  /** One directory's files, in any order the listing gives. */
  method AddDirectory(ws: Workspace, dir: Name, snapshot: Option<string>, members0: seq<Member>,
                      inventory0: seq<Path>, ghost done: set<Path>)
    returns (ok: bool, members: seq<Member>, inventory: seq<Path>)
    requires Archived(ws, done, snapshot, members0, inventory0) && forall p | p in done :: p == [] || p[0] != dir
    ensures ok <==> (forall p | p in Below(ws, dir) :: !ws.entries[p].Symlink?) && NoneClosed(ws, {dir})
    ensures ok ==> Archived(ws, done + (Included(ws, {dir})), snapshot, members, inventory)
  {
    members, inventory := members0, inventory0;
    var rest := Below(ws, dir);
    ghost var seen: set<Path> := {};
    while rest != {}
      invariant rest + seen == Below(ws, dir) && rest !! seen
      invariant forall p | p in seen :: !ws.entries[p].Symlink?
      invariant forall p | p in Included(ws, {dir}) * seen :: !ws.entries[p].Closed?
      invariant Archived(ws, done + Included(ws, {dir}) * seen, snapshot, members, inventory)
      decreases rest
    {
      var path :| path in rest;
      rest := rest - {path};
      if ws.entries[path].Symlink? { return false, members, inventory; }
      ghost var before := seen;
      seen := seen + {path};
      assert path in Below(ws, dir);
      if ws.entries[path].Directory? || HasExcludedPart(path) {
        assert Included(ws, {dir}) * seen == Included(ws, {dir}) * before;
        continue;
      }
      assert path in Included(ws, {dir});
      if ws.entries[path].Closed? { return false, members, inventory; }
      assert Included(ws, {dir}) * seen == Included(ws, {dir}) * before + {path};
      assert done + Included(ws, {dir}) * seen == done + Included(ws, {dir}) * before + {path};
      ArchivedAppends(ws, done + Included(ws, {dir}) * before, snapshot, members, inventory, path);
      if !ws.entries[path].Socket? { members := members + [Member(path, ContentAt(ws, snapshot, path))]; }
      inventory := inventory + [path];
    }
    assert Included(ws, {dir}) <= Below(ws, dir);
    assert Included(ws, {dir}) * seen == Included(ws, {dir});
    return true, members, inventory;
  }

  lemma IncludedSplits(ws: Workspace, dirs: set<Name>, dir: Name)
    ensures Included(ws, dirs + {dir}) == Included(ws, dirs) + Included(ws, {dir})
  {
  }

  /** One included directory: skipped if it is not there, refused if it is or holds a link or holds a closed file. */
  method VisitDirectory(ws: Workspace, dir: Name, snapshot: Option<string>, members0: seq<Member>,
                        inventory0: seq<Path>, ghost seen: set<Name>)
    returns (ok: bool, members: seq<Member>, inventory: seq<Path>)
    requires IsTree(ws.entries) && dir !in seen && Archived(ws, Included(ws, seen), snapshot, members0, inventory0)
    ensures ok <==> NoLinks(ws, dir) && NoneClosed(ws, {dir})
    ensures ok ==> Archived(ws, Included(ws, seen + {dir}), snapshot, members, inventory)
  {
    members, inventory := members0, inventory0;
    IncludedSplits(ws, seen, dir);
    if [dir] in ws.entries && ws.entries[[dir]].Symlink? {
      assert [dir] in ws.entries && [dir][0] == dir;
      return false, members, inventory;
    }
    if [dir] !in ws.entries || !ws.entries[[dir]].Directory? {
      NothingBelow(ws, dir);
      LinksAreBelow(ws, dir);
      return true, members, inventory;
    }
    LinksAreBelow(ws, dir);
    ok, members, inventory := AddDirectory(ws, dir, snapshot, members, inventory, Included(ws, seen));
  }

  /** A link in a directory is the directory itself or below it. */
  lemma LinksAreBelow(ws: Workspace, dir: Name)
    ensures NoLinks(ws, dir) <==>
      ([dir] in ws.entries ==> !ws.entries[[dir]].Symlink?) && forall p | p in Below(ws, dir) :: !ws.entries[p].Symlink?
  {
    forall p | p in ws.entries && p != [] && p[0] == dir ensures p == [dir] || p in Below(ws, dir) {
      if |p| == 1 { assert p == [dir]; }
    }
    assert [dir][0] == dir;
  }

  /** The database alone, or nothing. */
  method StartArchive(ws: Workspace, snapshot: Option<string>) returns (members: seq<Member>, inventory: seq<Path>)
    ensures Archived(ws, Included(ws, {}), snapshot, members, inventory)
  {
    assert Included(ws, {}) == {};
    if snapshot.None? { return [], []; }
    MembersNext(ws, snapshot, [], DATABASE);
    assert [] + [DATABASE] == [DATABASE] && MembersOf(ws, snapshot, []) == [];
    return [Member(DATABASE, Some(Bytes(snapshot.value)))], [DATABASE];
  }

  lemma InventoryIsIncluded(ws: Workspace, dirs: set<Name>, snapshot: Option<string>, members: seq<Member>,
                            inventory: seq<Path>)
    requires Archived(ws, Included(ws, dirs), snapshot, members, inventory)
    ensures (forall p | p in inventory :: IsUtf8(p)) <==> NamesAreUtf8(ws, dirs)
  {
    assert IsUtf8(DATABASE);
  }

  /** The archive of a workspace, or None if something is in the way. */
  method CreateBackup(ws: Workspace, includeDatasets: bool, snapshot: Result<string>)
    returns (r: Option<(seq<Member>, Manifest)>)
    requires IsTree(ws.entries)
    ensures r.Some? <==> CanBackUp(ws, IncludedDirs(includeDatasets), snapshot)
    ensures r.Some? ==> IsBackup(ws, IncludedDirs(includeDatasets), Saved(ws, snapshot), r.value.0, r.value.1)
  {
    if HasDatabase(ws) && (ws.database.value.Symlink? || snapshot.Failure?) { return None; }
    var saved := Saved(ws, snapshot);
    var members, inventory := StartArchive(ws, saved);
    var rest := IncludedDirs(includeDatasets);
    ghost var seen: set<Name> := {};
    while rest != {}
      invariant rest + seen == IncludedDirs(includeDatasets) && rest !! seen
      invariant (forall dir | dir in seen :: NoLinks(ws, dir)) && NoneClosed(ws, seen)
      invariant Archived(ws, Included(ws, seen), saved, members, inventory)
      decreases rest
    {
      var dir :| dir in rest;
      rest := rest - {dir};
      var ok;
      ok, members, inventory := VisitDirectory(ws, dir, saved, members, inventory, seen);
      if !ok {
        assert {dir} <= IncludedDirs(includeDatasets);
        return None;
      }
      IncludedSplits(ws, seen, dir);
      seen := seen + {dir};
    }
    assert seen == IncludedDirs(includeDatasets);
    InventoryIsIncluded(ws, seen, saved, members, inventory);
    if exists p | p in inventory :: !IsUtf8(p) { return None; }
    var manifest := Manifest(inventory, |inventory|);
    ghost var init := members;
    members := members + [Member(MANIFEST, Some(Json(manifest)))];
    assert members[..|members| - 1] == init;
    return Some((members, manifest));
  }

  lemma NothingBelow(ws: Workspace, dir: Name)
    requires IsTree(ws.entries) && ([dir] !in ws.entries || !ws.entries[[dir]].Directory?)
    ensures Included(ws, {dir}) == {} && Below(ws, dir) == {}
  {
    forall p | p in ws.entries && |p| > 1 ensures p[0] != dir { TopIsDirectory(ws.entries, p); }
  }

  lemma {:induction false} TopIsDirectory(entries: map<Path, Entry>, p: Path)
    requires IsTree(entries) && p in entries && |p| > 1
    ensures [p[0]] in entries && entries[[p[0]]].Directory?
    decreases |p|
  {
    var parent := p[..|p| - 1];
    if |parent| > 1 { TopIsDirectory(entries, parent); } else { assert parent == [p[0]]; }
  }

  /** An archive of the backed-up part followed by its manifest. */
  ghost predicate IsBackup(ws: Workspace, dirs: set<Name>, snapshot: Option<string>, members: seq<Member>,
                           manifest: Manifest) {
    && members != [] && members[|members| - 1] == Member(MANIFEST, Some(Json(manifest)))
    && manifest.fileCount == |manifest.files|
    && Archived(ws, Included(ws, dirs), snapshot, members[..|members| - 1], manifest.files)
  }

  // ---- Validation and round trip ----

  /** `_validate_staged_workspace`; `intact` is SQLite's quick check. */
  method ValidateStagedWorkspace(staged: map<Path, Content>, manifest: Manifest, intact: string -> bool)
    returns (ok: bool)
    ensures ok <==> Accepts(staged, manifest, intact)
  {
    if MANIFEST !in staged || staged[MANIFEST] != Json(manifest) { return false; }
    if exists p | p in manifest.files :: p == [] { return false; }
    if manifest.fileCount != |manifest.files| || !Distinct(manifest.files) { return false; }
    var actual, listed := staged.Keys - {MANIFEST}, set p | p in manifest.files;
    assert forall p :: p in actual <==> p in staged && p != MANIFEST;
    assert forall p :: p in listed <==> p in manifest.files;
    if actual != listed { return false; }
    if DATABASE in staged && (staged[DATABASE].Json? || !intact(staged[DATABASE].text)) { return false; }
    return true;
  }

  /** The staged files are exactly those of the inventory, and the database passes its check. */
  ghost predicate Accepts(staged: map<Path, Content>, manifest: Manifest, intact: string -> bool) {
    && MANIFEST in staged && staged[MANIFEST] == Json(manifest)
    && manifest.fileCount == |manifest.files| && Distinct(manifest.files)
    && (forall p | p in manifest.files :: p != [])
    && (forall p :: p in staged && p != MANIFEST <==> p in manifest.files)
    && (DATABASE in staged ==> staged[DATABASE].Bytes? && intact(staged[DATABASE].text))
  }

  /** Whatever is missing, added, listed twice or miscounted makes a staged workspace be refused. */
  lemma DeviationsAreRefused(staged: map<Path, Content>, manifest: Manifest, intact: string -> bool, p: Path)
    ensures [Name("manifest.json", [])] !in staged ==> !Accepts(staged, manifest, intact)
    ensures p in staged && p != [Name("manifest.json", [])] && p !in manifest.files ==> !Accepts(staged, manifest, intact)
    ensures p in manifest.files && (p !in staged || p == [] || p == [Name("manifest.json", [])]) ==>
      !Accepts(staged, manifest, intact)
    ensures manifest.fileCount != |manifest.files| ==> !Accepts(staged, manifest, intact)
    ensures (exists i, j :: 0 <= i < j < |manifest.files| && manifest.files[i] == manifest.files[j]) ==>
      !Accepts(staged, manifest, intact)
    ensures var db := [Name("marvis.sqlite", [])];
      db in staged && !(staged[db].Bytes? && intact(staged[db].text)) ==> !Accepts(staged, manifest, intact)
  {
  }

  /** Unpacking the members of an inventory gives each listed file its content, sockets aside. */
  lemma {:induction false} InventoryUnpacksAt(ws: Workspace, snapshot: Option<string>, inventory: seq<Path>, p: Path)
    ensures var u := Unpacked(MembersOf(ws, snapshot, inventory));
      && (p in u <==> p in inventory && !IsSocket(ws, p))
      && (p in u ==> u[p] == ContentAt(ws, snapshot, p))
  {
    hide IsSocket, ContentAt;
    if inventory != [] {
      var init, last := inventory[..|inventory| - 1], inventory[|inventory| - 1];
      InventoryUnpacksAt(ws, snapshot, init, p);
      hide MembersOf, Unpacked;
      MembersNext(ws, snapshot, init, last);
      assert inventory == init + [last];
      var before := MembersOf(ws, snapshot, init);
      UnpackedAppends(before, Member(last, ContentAt(ws, snapshot, last)));
      assert before + [] == before;
    }
  }

  lemma InventoryUnpacks(ws: Workspace, snapshot: Option<string>, inventory: seq<Path>)
    ensures var u := Unpacked(MembersOf(ws, snapshot, inventory));
      && (forall p :: p in u <==> p in inventory && !IsSocket(ws, p))
      && (forall p | p in u :: u[p] == ContentAt(ws, snapshot, p))
  {
    var u := Unpacked(MembersOf(ws, snapshot, inventory));
    forall p ensures p in u <==> p in inventory && !IsSocket(ws, p) { InventoryUnpacksAt(ws, snapshot, inventory, p); }
    forall p | p in u ensures u[p] == ContentAt(ws, snapshot, p) { InventoryUnpacksAt(ws, snapshot, inventory, p); }
  }

  lemma InventoryIsListed(ws: Workspace, dirs: set<Name>, snapshot: Option<string>, members: seq<Member>,
                          inventory: seq<Path>)
    requires Archived(ws, Included(ws, dirs), snapshot, members, inventory)
    ensures forall p :: p in inventory <==> p in Listed(ws, dirs, snapshot)
  {
  }

  lemma ArchiveUnpacks(ws: Workspace, dirs: set<Name>, snapshot: Option<string>, members: seq<Member>,
                       inventory: seq<Path>)
    requires Archived(ws, Included(ws, dirs), snapshot, members, inventory)
    ensures Unpacked(members) == BackedUp(ws, dirs, snapshot)
  {
    hide Unpacked, MembersOf, Listed, ContentAt, IsSocket, Distinct;
    InventoryUnpacks(ws, snapshot, inventory);
    InventoryIsListed(ws, dirs, snapshot, members, inventory);
  }

  lemma LastMember(ws: Workspace, dirs: set<Name>, snapshot: Option<string>, members: seq<Member>, manifest: Manifest)
    requires IsBackup(ws, dirs, snapshot, members, manifest)
    ensures var init := members[..|members| - 1];
      members == init + [Member(MANIFEST, Some(Json(manifest)))] && Archived(ws, Included(ws, dirs), snapshot, init, manifest.files)
  {
  }

  /** Unpacking a backup gives exactly the backed-up part and the manifest. */
  lemma UnpackedBackup(ws: Workspace, dirs: set<Name>, snapshot: Option<string>, members: seq<Member>,
                       manifest: Manifest)
    requires IsBackup(ws, dirs, snapshot, members, manifest)
    ensures Unpacked(members) == BackedUp(ws, dirs, snapshot)[MANIFEST := Some(Json(manifest))]
  {
    LastMember(ws, dirs, snapshot, members, manifest);
    ArchiveUnpacks(ws, dirs, snapshot, members[..|members| - 1], manifest.files);
    UnpackedAppends(members[..|members| - 1], Member(MANIFEST, Some(Json(manifest))));
  }

  /** Nothing but regular files that can be read among what is backed up. */
  predicate OnlyRegular(ws: Workspace, dirs: set<Name>) {
    forall p | p in Included(ws, dirs) :: ws.entries[p].Regular?
  }

  lemma {:induction false} InventoryHasContent(ws: Workspace, snapshot: Option<string>, inventory: seq<Path>)
    ensures (forall x | x in MembersOf(ws, snapshot, inventory) :: x.content.Some?)
        <==> forall p | p in inventory :: IsSocket(ws, p) || ContentAt(ws, snapshot, p).Some?
  {
    if inventory != [] {
      var init, last := inventory[..|inventory| - 1], inventory[|inventory| - 1];
      InventoryHasContent(ws, snapshot, init);
      MembersNext(ws, snapshot, init, last);
      assert inventory == init + [last];
      var more := if IsSocket(ws, last) then [] else [Member(last, ContentAt(ws, snapshot, last))];
      assert forall x :: x in MembersOf(ws, snapshot, init) + more <==> x in MembersOf(ws, snapshot, init) || x in more;
      assert forall p :: p in inventory <==> p in init || p == last;
    }
  }

  /** No pipe or device among what is backed up. */
  predicate NothingSpecial(ws: Workspace, dirs: set<Name>) {
    forall p | p in Included(ws, dirs) :: !ws.entries[p].Special?
  }

  /** Where a backup could be made, nothing included is a link or a closed file. */
  predicate Openable(ws: Workspace, dirs: set<Name>) {
    forall p | p in Included(ws, dirs) :: !ws.entries[p].Symlink? && !ws.entries[p].Closed?
  }

  lemma BackedUpIsOpenable(ws: Workspace, dirs: set<Name>, snapshot: Result<string>)
    requires CanBackUp(ws, dirs, snapshot)
    ensures Openable(ws, dirs)
  {
    forall p | p in Included(ws, dirs) ensures !ws.entries[p].Symlink? { assert NoLinks(ws, p[0]); }
  }

  predicate NoSockets(ws: Workspace, dirs: set<Name>) {
    forall p | p in Included(ws, dirs) :: !ws.entries[p].Socket?
  }

  lemma ListedHasContent(ws: Workspace, dirs: set<Name>, snapshot: Option<string>)
    requires Openable(ws, dirs)
    ensures (forall p | p in Listed(ws, dirs, snapshot) :: IsSocket(ws, p) || ContentAt(ws, snapshot, p).Some?)
        <==> NothingSpecial(ws, dirs)
  {
    forall p | p in Included(ws, dirs)
      ensures IsSocket(ws, p) || ContentAt(ws, snapshot, p).Some? <==> !ws.entries[p].Special?
    {
      assert |p| > 1 && p != DATABASE;
    }
    assert forall p | p in Included(ws, dirs) :: p in Listed(ws, dirs, snapshot);
  }

  /** Unpacking works exactly when no pipe or device was archived. */
  lemma MembersHaveContent(ws: Workspace, dirs: set<Name>, snapshot: Option<string>, members: seq<Member>,
                           manifest: Manifest)
    requires IsBackup(ws, dirs, snapshot, members, manifest) && Openable(ws, dirs)
    ensures (forall x | x in members :: x.content.Some?) <==> NothingSpecial(ws, dirs)
  {
    LastMember(ws, dirs, snapshot, members, manifest);
    InventoryHasContent(ws, snapshot, manifest.files);
    InventoryIsListed(ws, dirs, snapshot, members[..|members| - 1], manifest.files);
    ListedHasContent(ws, dirs, snapshot);
    assert forall x | x in members[..|members| - 1] :: x in members;
  }

  /** The listed files are the unpacked ones exactly when no socket is listed. */
  lemma ListedIsUnpacked(ws: Workspace, dirs: set<Name>, snapshot: Option<string>)
    ensures Listed(ws, dirs, snapshot) == BackedUp(ws, dirs, snapshot).Keys <==> NoSockets(ws, dirs)
  {
    forall p | p in Included(ws, dirs) ensures IsSocket(ws, p) <==> ws.entries[p].Socket? { assert |p| > 1 && p != DATABASE; }
    if NoSockets(ws, dirs) {
      assert Listed(ws, dirs, snapshot) == BackedUp(ws, dirs, snapshot).Keys;
    } else {
      var p :| p in Included(ws, dirs) && ws.entries[p].Socket?;
      assert p in Listed(ws, dirs, snapshot) && p !in BackedUp(ws, dirs, snapshot);
    }
  }

  /** What the validation of unpacked files comes down to. */
  lemma AcceptsParts(staged: map<Path, Content>, manifest: Manifest, intact: string -> bool, listed: set<Path>)
    requires MANIFEST in staged && staged[MANIFEST] == Json(manifest) && manifest.fileCount == |manifest.files|
    requires Distinct(manifest.files) && (forall p :: p in manifest.files <==> p in listed) && [] !in listed
    requires DATABASE in staged ==> staged[DATABASE].Bytes?
    ensures Accepts(staged, manifest, intact) <==>
      staged.Keys - {MANIFEST} == listed && (DATABASE in staged ==> intact(staged[DATABASE].text))
  {
    assert forall p :: p in staged && p != MANIFEST <==> p in staged.Keys - {MANIFEST};
  }

  lemma DatabaseStaged(ws: Workspace, dirs: set<Name>, snapshot: Option<string>)
    ensures var part := BackedUp(ws, dirs, snapshot);
      && MANIFEST !in part && [] !in Listed(ws, dirs, snapshot)
      && (DATABASE in part <==> snapshot.Some?) && (snapshot.Some? ==> part[DATABASE] == Some(Bytes(snapshot.value)))
  {
  }

  /** A backup that unpacks is accepted exactly when no socket was listed and the database snapshot is intact. */
  lemma BackupIsAccepted(ws: Workspace, dirs: set<Name>, snapshot: Option<string>, members: seq<Member>,
                         manifest: Manifest, staged: map<Path, Content>, intact: string -> bool)
    requires IsBackup(ws, dirs, snapshot, members, manifest)
    requires Matches(staged, members)
    ensures Accepts(staged, manifest, intact) <==> NoSockets(ws, dirs) && (snapshot.Some? ==> intact(snapshot.value))
  {
    var part := BackedUp(ws, dirs, snapshot);
    UnpackedBackup(ws, dirs, snapshot, members, manifest);
    LastMember(ws, dirs, snapshot, members, manifest);
    InventoryIsListed(ws, dirs, snapshot, members[..|members| - 1], manifest.files);
    DatabaseStaged(ws, dirs, snapshot);
    ListedIsUnpacked(ws, dirs, snapshot);
    StagedPart(staged, members, part, manifest);
    AcceptsParts(staged, manifest, intact, Listed(ws, dirs, snapshot));
  }

  lemma StagedPart(staged: map<Path, Content>, members: seq<Member>, part: map<Path, Option<Content>>, manifest: Manifest)
    requires Matches(staged, members) && Unpacked(members) == part[MANIFEST := Some(Json(manifest))] && MANIFEST !in part
    ensures MANIFEST in staged && staged[MANIFEST] == Json(manifest) && staged.Keys - {MANIFEST} == part.Keys
    ensures DATABASE in staged <==> DATABASE in part
    ensures DATABASE in staged ==> part[DATABASE] == Some(staged[DATABASE])
  {
    assert Unpacked(members)[MANIFEST] == Some(staged[MANIFEST]);
    assert DATABASE in staged ==> Unpacked(members)[DATABASE] == Some(staged[DATABASE]);
  }

  /** The archive unpacks to these files. */
  ghost predicate Matches(staged: map<Path, Content>, members: seq<Member>) {
    staged.Keys == Unpacked(members).Keys && forall p | p in staged :: Unpacked(members)[p] == Some(staged[p])
  }

  /** The archive unpacks, and what it unpacks to is accepted. */
  ghost predicate Stages(members: seq<Member>, manifest: Manifest, intact: string -> bool) {
    (forall x | x in members :: x.content.Some?) && (forall files | Matches(files, members) :: Accepts(files, manifest, intact))
  }

  /** Unpacks, validates and drops the manifest, as a restore does before its swap. */
  method Stage(members: seq<Member>, manifest: Manifest, intact: string -> bool)
    returns (staged: Option<map<Path, Content>>)
    ensures staged.Some? <==> Stages(members, manifest, intact)
    ensures staged.Some? ==> staged.value.Keys == Unpacked(members).Keys - {MANIFEST}
                             && forall p | p in staged.value :: Unpacked(members)[p] == Some(staged.value[p])
  {
    var files := Extract(members);
    if files.Failure? { return None; }
    assert Matches(files.value, members);
    forall other | Matches(other, members) ensures other == files.value { MatchUnique(other, files.value, members); }
    var ok := ValidateStagedWorkspace(files.value, manifest, intact);
    if !ok { return None; }
    return Some(files.value - {MANIFEST});
  }

  lemma MatchUnique(a: map<Path, Content>, b: map<Path, Content>, members: seq<Member>)
    requires Matches(a, members) && Matches(b, members)
    ensures a == b
  {
    assert a.Keys == b.Keys;
    forall p | p in a ensures a[p] == b[p] { assert Some(a[p]) == Unpacked(members)[p] == Some(b[p]); }
  }

  /** Every unpacking of a special-file-free archive exists, so acceptance can be decided on it. */
  lemma MatchExists(members: seq<Member>) returns (staged: map<Path, Content>)
    requires forall x | x in members :: x.content.Some?
    ensures Matches(staged, members)
  {
    AllUnpackedHaveContent(members);
    staged := map p | p in Unpacked(members) :: Unpacked(members)[p].value;
  }

  lemma {:induction false} AllUnpackedHaveContent(members: seq<Member>)
    requires forall x | x in members :: x.content.Some?
    ensures forall p | p in Unpacked(members) :: Unpacked(members)[p].Some?
  {
    if members != [] {
      assert members == members[..|members| - 1] + [members[|members| - 1]];
      AllUnpackedHaveContent(members[..|members| - 1]);
    }
  }

  lemma RegularMeans(ws: Workspace, dirs: set<Name>)
    requires Openable(ws, dirs)
    ensures OnlyRegular(ws, dirs) <==> NothingSpecial(ws, dirs) && NoSockets(ws, dirs)
  {
  }

  /** A backup stages exactly when its files are regular and its database snapshot is intact. */
  lemma BackupStages(ws: Workspace, dirs: set<Name>, snapshot: Option<string>, members: seq<Member>,
                     manifest: Manifest, intact: string -> bool)
    requires IsBackup(ws, dirs, snapshot, members, manifest) && Openable(ws, dirs)
    ensures Stages(members, manifest, intact) <==> OnlyRegular(ws, dirs) && (snapshot.Some? ==> intact(snapshot.value))
  {
    MembersHaveContent(ws, dirs, snapshot, members, manifest);
    RegularMeans(ws, dirs);
    forall files | Matches(files, members)
      ensures Accepts(files, manifest, intact) <==> NoSockets(ws, dirs) && (snapshot.Some? ==> intact(snapshot.value))
    {
      BackupIsAccepted(ws, dirs, snapshot, members, manifest, files, intact);
    }
    if forall x | x in members :: x.content.Some? { var files := MatchExists(members); }
  }

  /** The backed-up part as plain contents. */
  ghost predicate IsRestored(files: map<Path, Content>, part: map<Path, Option<Content>>) {
    files.Keys == part.Keys && forall p | p in files :: part[p] == Some(files[p])
  }

  lemma NoManifestInPart(ws: Workspace, dirs: set<Name>, snapshot: Option<string>)
    ensures MANIFEST !in BackedUp(ws, dirs, snapshot)
  {
  }

  /** Like `Stages`, but on the condition for what was saved. */
  predicate Restorable(ws: Workspace, dirs: set<Name>, snapshot: Result<string>, intact: string -> bool) {
    OnlyRegular(ws, dirs) && (Saved(ws, snapshot).Some? ==> intact(Saved(ws, snapshot).value))
  }

  /** What a backup unpacks to, and when it stages. */
  lemma BackupRestores(ws: Workspace, dirs: set<Name>, snapshot: Result<string>, members: seq<Member>,
                       manifest: Manifest, intact: string -> bool)
    requires CanBackUp(ws, dirs, snapshot) && IsBackup(ws, dirs, Saved(ws, snapshot), members, manifest)
    ensures var part := BackedUp(ws, dirs, Saved(ws, snapshot));
      MANIFEST !in part && Unpacked(members) == part[MANIFEST := Some(Json(manifest))]
    ensures Stages(members, manifest, intact) <==> Restorable(ws, dirs, snapshot, intact)
  {
    BackedUpIsOpenable(ws, dirs, snapshot);
    BackupStages(ws, dirs, Saved(ws, snapshot), members, manifest, intact);
    UnpackedBackup(ws, dirs, Saved(ws, snapshot), members, manifest);
    NoManifestInPart(ws, dirs, Saved(ws, snapshot));
  }

  lemma StagedIsRestored(files: map<Path, Content>, members: seq<Member>, part: map<Path, Option<Content>>,
                         manifest: Manifest)
    requires MANIFEST !in part && Unpacked(members) == part[MANIFEST := Some(Json(manifest))]
    requires files.Keys == Unpacked(members).Keys - {MANIFEST}
    requires forall p | p in files :: Unpacked(members)[p] == Some(files[p])
    ensures IsRestored(files, part)
  {
    assert Unpacked(members).Keys - {MANIFEST} == part.Keys;
    assert forall p | p in files :: part[p] == Unpacked(members)[p];
  }

  /**
   * Backing up and restoring is the identity on the backed-up part.  It succeeds exactly when nothing is in the way of
   * the backup, all backed-up files are regular and the database snapshot is intact, and then gives them all back.
   */
  method RoundTrip(ws: Workspace, includeDatasets: bool, snapshot: Result<string>, intact: string -> bool)
    returns (restored: Option<map<Path, Content>>)
    requires IsTree(ws.entries)
    ensures var dirs := IncludedDirs(includeDatasets);
      restored.Some? <==> CanBackUp(ws, dirs, snapshot) && Restorable(ws, dirs, snapshot, intact)
    ensures restored.Some? ==>
      IsRestored(restored.value, BackedUp(ws, IncludedDirs(includeDatasets), Saved(ws, snapshot)))
  {
    hide CanBackUp, IsBackup, Stages, Restorable, Unpacked, BackedUp, Saved, IncludedDirs, IsRestored;
    var backup := CreateBackup(ws, includeDatasets, snapshot);
    if backup.None? { return None; }
    BackupRestores(ws, IncludedDirs(includeDatasets), snapshot, backup.value.0, backup.value.1, intact);
    restored := Stage(backup.value.0, backup.value.1, intact);
    if restored.Some? {
      ghost var part := BackedUp(ws, IncludedDirs(includeDatasets), Saved(ws, snapshot));
      StagedIsRestored(restored.value, backup.value.0, part, backup.value.1);
    }
  }

  /**
   * When that is: no link in the directories, all names UTF-8, and nothing there but folders and files that can be
   * read; the database, if there is one, is no link, can be copied, and its copy is intact.
   */
  lemma RoundTripExactly(ws: Workspace, includeDatasets: bool, snapshot: Result<string>, intact: string -> bool)
    ensures var dirs := IncludedDirs(includeDatasets);
      CanBackUp(ws, dirs, snapshot) && Restorable(ws, dirs, snapshot, intact) <==>
      && (ws.database.None? || ws.database.value == Symlink(true)
          || (!ws.database.value.Symlink? && snapshot.Success? && intact(snapshot.value)))
      && (forall p | p in ws.entries && InBackupDirectory(includeDatasets, p) :: !ws.entries[p].Symlink?)
      && forall p | p in ws.entries && BelongsToBackup(includeDatasets, p) && !ws.entries[p].Directory? ::
           ws.entries[p].Regular? && forall name | name in p :: name.rest == []
  {
    hide IncludedDirs, IsTemporary, IsExcluded, InBackupDirectory;
    var dirs := IncludedDirs(includeDatasets);
    forall part ensures IsTemporary(part) <==> IsExcluded(part) { TemporaryExactly(part); }
    forall p: Path ensures |p| > 0 ==> (p[0] in dirs <==> InBackupDirectory(includeDatasets, p)) {
      DirsExactly(includeDatasets, p);
    }
    EmptyIsNowhere(includeDatasets);
    assert forall p | p in ws.entries :: p in Included(ws, dirs) <==>
      BelongsToBackup(includeDatasets, p) && !ws.entries[p].Directory?;
  }

  // ---- A regular file that stops a backup ----

  const TASKS := Name("tasks", [])

  /** Two characters in GBK, no UTF-8 at all. */
  const GBK_NAME := Name("", [0xC4, 0xE3])

  const GBK_WORKSPACE := Workspace(map[[TASKS] := Directory, [TASKS, GBK_NAME] := Regular("content")], None)

  lemma NotExcluded(name: Name)
    requires name.text == "" || name.text == "tasks"
    ensures !IsExcluded(name)
  {
    assert name.text != "" ==> name.text[0] == 't';
  }

  lemma GbkTree()
    ensures IsTree(GBK_WORKSPACE.entries)
  {
    assert [TASKS, GBK_NAME][..1] == [TASKS];
  }

  lemma GbkIncluded(dirs: set<Name>)
    requires TASKS in dirs
    ensures Included(GBK_WORKSPACE, dirs) == {[TASKS, GBK_NAME]}
  {
    hide IsExcluded;
    NotExcluded(TASKS);
    NotExcluded(GBK_NAME);
  }

  lemma GbkLinkFree(dirs: set<Name>)
    ensures LinkFree(GBK_WORKSPACE, dirs)
  {
  }

  lemma GbkNotUtf8()
    ensures !IsUtf8([TASKS, GBK_NAME])
  {
    assert GBK_NAME in [TASKS, GBK_NAME];
  }

  /** Links are absent and all files regular and open, yet the manifest cannot be written. */
  lemma GbkNameStopsBackup(includeDatasets: bool, snapshot: Result<string>)
    ensures var dirs := IncludedDirs(includeDatasets);
      && IsTree(GBK_WORKSPACE.entries) && LinkFree(GBK_WORKSPACE, dirs) && OnlyRegular(GBK_WORKSPACE, dirs)
      && !CanBackUp(GBK_WORKSPACE, dirs, snapshot)
  {
    hide IsTree, Included, LinkFree;
    GbkTree();
    GbkIncluded(IncludedDirs(includeDatasets));
    GbkLinkFree(IncludedDirs(includeDatasets));
    GbkNotUtf8();
  }
}
