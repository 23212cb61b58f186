/** Workspace archives: deterministic creation and fail-closed extraction. */
module Archives {
  import opened Models
  import opened Strings
  import opened PosixPaths

  type Path = seq<string>

  datatype Attributes = Attributes(mode: nat, mtime: int, owner: string)

  datatype Node =
    | Dir(attributes: Attributes)
    | File(attributes: Attributes, content: seq<bv8>)
    | Link(target: string)
    | Special

  datatype Kind = DirMember | FileMember | OtherMember

  /** A tar member; its size is the length of its content. */
  datatype Member = Member(name: string, kind: Kind, mode: nat, content: seq<bv8>)

  /** headers counts the bytes of the archive that are not payload. */
  datatype Tar = Tar(members: seq<Member>, headers: nat)

  /** Unsafe is the contract error of the checks, OsError what the operating system raises. */
  datatype Fault = Unsafe | OsError

  type Disk = map<Path, Node>

  const MAX_ARCHIVE_BYTES := 67_108_864
  const MAX_ENTRIES := 10_000
  const MAX_EXTRACTED_BYTES := 536_870_912

  function Permissions(mode: nat): nat {
    mode % 512
  }

  function TotalSize(members: seq<Member>): nat {
    if |members| == 0 then 0
    else TotalSize(members[..|members| - 1]) + |members[|members| - 1].content|
  }

  function Size(tar: Tar): nat {
    tar.headers + TotalSize(tar.members)
  }

  // ------------------------------------------------------------------ creation

  /** A listed directory: entries have proper components, and lie in directories. */
  ghost predicate WellFormed(tree: Disk) {
    forall p | p in tree ::
      && |p| > 0
      && (forall part | part in p :: Proper(part) && '/' !in part)
      && (forall k | 0 < k < |p| :: p[..k] in tree && tree[p[..k]].Dir?)
  }

  function Joined(paths: set<Path>): set<string> {
    set p | p in paths :: Join(p)
  }

  function Names(tree: Disk): set<string> {
    Joined(tree.Keys)
  }

  /** The entries in the order of their names. */
  function Listing(tree: Disk): (names: seq<string>)
    ensures Ascending(names)
    ensures forall name :: name in names <==> name in Names(tree)
  {
    Sorted(Names(tree))
  }

  function MemberFor(name: string, node: Node): Result<Member, Fault> {
    if !ValidName(name) then Err(Unsafe)
    else
      match node
      case Dir(attributes) => Ok(Member(name, DirMember, Permissions(attributes.mode), []))
      case File(attributes, content) => Ok(Member(name, FileMember, Permissions(attributes.mode), content))
      case _ => Err(Unsafe)
  }

  function MembersFor(tree: Disk, names: seq<string>): Result<seq<Member>, Fault>
    requires forall name | name in names :: Split(name) in tree
  {
    if |names| == 0 then Ok([])
    else
      var last := names[|names| - 1];
      var before := MembersFor(tree, names[..|names| - 1]);
      if before.Err? then before
      else
        var member := MemberFor(last, tree[Split(last)]);
        if member.Err? then Err(member.error) else Ok(before.value + [member.value])
  }

  lemma NamesSplit(tree: Disk)
    requires WellFormed(tree)
    ensures forall name | name in Names(tree) :: Split(name) in tree && Join(Split(name)) == name
    ensures forall p | p in tree :: Split(Join(p)) == p
  {
    forall p | p in tree ensures Split(Join(p)) == p { SplitJoin(p); }
  }

  function Create(tree: Disk, headers: nat): Result<Tar, Fault>
    requires WellFormed(tree)
  {
    NamesSplit(tree);
    var names := Listing(tree);
    if |names| > MAX_ENTRIES then Err(Unsafe)
    else
      var members := MembersFor(tree, names);
      if members.Err? then Err(members.error)
      else
        var tar := Tar(members.value, headers);
        if Size(tar) > MAX_ARCHIVE_BYTES then Err(Unsafe) else Ok(tar)
  }

  method CollectMembers(tree: Disk, entries: seq<string>) returns (r: Result<seq<Member>, Fault>)
    requires forall name | name in entries :: Split(name) in tree
    ensures r == MembersFor(tree, entries)
  {
    var members: seq<Member> := [];
    for i := 0 to |entries|
      invariant MembersFor(tree, entries[..i]) == Ok(members)
    {
      var relative := entries[i];
      var node := tree[Split(relative)];
      assert entries[..i + 1][..i] == entries[..i];
      if !ValidName(relative) || node.Link? || node.Special? {
        FailureStays(tree, entries, i + 1);
        return Err(Unsafe);
      }
      var kind := if node.Dir? then DirMember else FileMember;
      var content := if node.Dir? then [] else node.content;
      members := members + [Member(relative, kind, Permissions(node.attributes.mode), content)];
    }
    assert entries[..|entries|] == entries;
    r := Ok(members);
  }

  method CreateArchive(tree: Disk, headers: nat) returns (r: Result<Tar, Fault>)
    requires WellFormed(tree)
    ensures r == Create(tree, headers)
  {
    NamesSplit(tree);
    var entries := Listing(tree);
    if |entries| > MAX_ENTRIES {
      return Err(Unsafe);
    }
    var members := CollectMembers(tree, entries);
    if members.Err? {
      return Err(members.error);
    }
    var tar := Tar(members.value, headers);
    if Size(tar) > MAX_ARCHIVE_BYTES {
      return Err(Unsafe);
    }
    r := Ok(tar);
  }

  lemma {:induction false} FailureStays(tree: Disk, names: seq<string>, i: nat)
    requires i <= |names| && forall name | name in names :: Split(name) in tree
    requires MembersFor(tree, names[..i]) == Err(Unsafe)
    ensures MembersFor(tree, names) == Err(Unsafe)
    decreases |names|
  {
    if i == |names| {
      assert names[..i] == names;
    } else {
      assert names[..|names| - 1][..i] == names[..i];
      FailureStays(tree, names[..|names| - 1], i);
    }
  }

  // ------------------------------------------------------------------ extraction

  const DEFAULT := Attributes(0, 0, "")

  predicate CrossesLink(disk: Disk, destination: Path, parts: seq<string>) {
    exists k | 0 < k <= |parts| :: destination + parts[..k] in disk && disk[destination + parts[..k]].Link?
  }

  /** A disk, and whether the operating system did what was asked of it. */
  datatype Attempt = Attempt(disk: Disk, done: bool)

  /** mkdir(parents=True, exist_ok=True); what it made before failing stays. */
  function MakeDirs(disk: Disk, destination: Path, parts: seq<string>): Attempt
    decreases |parts|
  {
    var target := destination + parts;
    var made := if |parts| == 0 then Attempt(disk, true) else MakeDirs(disk, destination, parts[..|parts| - 1]);
    if !made.done then made
    else if target in made.disk then Attempt(made.disk, made.disk[target].Dir?)
    else Attempt(made.disk[target := Dir(DEFAULT)], true)
  }

  function Place(disk: Disk, destination: Path, member: Member): Attempt {
    var parts := Parts(member.name);
    var target := destination + parts;
    if member.kind.DirMember? then
      var made := MakeDirs(disk, destination, parts);
      if !made.done || target !in made.disk then Attempt(made.disk, false)
      else Attempt(made.disk[target := Dir(DEFAULT.(mode := Permissions(member.mode)))], true)
    else if |parts| == 0 then Attempt(disk, false)
    else
      var made := MakeDirs(disk, destination, parts[..|parts| - 1]);
      if !made.done || (target in made.disk && !made.disk[target].File?) then Attempt(made.disk, false)
      else Attempt(made.disk[target := File(DEFAULT.(mode := Permissions(member.mode)), member.content)], true)
  }

  /** attempted lists the members that passed every check, in order. */
  datatype Extracted = Extracted(disk: Disk, fault: Option<Fault>, attempted: seq<Member>)

  predicate Acceptable(disk: Disk, destination: Path, member: Member, names: set<string>, total: nat) {
    && ValidName(member.name)
    && member.name !in names
    && !member.kind.OtherMember?
    && total + |member.content| <= MAX_EXTRACTED_BYTES
    && !CrossesLink(disk, destination, Parts(member.name))
  }

  function ExtractFrom(disk: Disk, destination: Path, members: seq<Member>, names: set<string>, total: nat): Extracted
    decreases |members|
  {
    if |members| == 0 then Extracted(disk, None, [])
    else
      var member := members[0];
      if !Acceptable(disk, destination, member, names, total) then Extracted(disk, Some(Unsafe), [])
      else
        var placed := Place(disk, destination, member);
        if !placed.done then Extracted(placed.disk, Some(OsError), [member])
        else
          var rest := ExtractFrom(placed.disk, destination, members[1..], names + {member.name},
                                  total + |member.content|);
          rest.(attempted := [member] + rest.attempted)
  }

  /** The destination and its missing ancestors are made first. */
  function WithDestination(disk: Disk, destination: Path): Attempt {
    MakeDirs(disk, [], destination)
  }

  /** The links among the ancestors of the destination have been followed. */
  function Extract(disk: Disk, destination: Path, tar: Tar): Extracted {
    if Size(tar) > MAX_ARCHIVE_BYTES then Extracted(disk, Some(Unsafe), [])
    else if destination in disk && disk[destination].Link? then Extracted(disk, Some(Unsafe), [])
    else
      var made := WithDestination(disk, destination);
      if !made.done then Extracted(made.disk, Some(OsError), [])
      else if |tar.members| > MAX_ENTRIES then Extracted(made.disk, Some(Unsafe), [])
      else ExtractFrom(made.disk, destination, tar.members, {}, 0)
  }

  /** The same on a file system that is changed in place. */
  class Filesystem {
    var disk: Disk

    constructor (disk: Disk)
      ensures this.disk == disk
    {
      this.disk := disk;
    }

    method MakeDirectories(destination: Path, parts: seq<string>) returns (done: bool)
      modifies this
      ensures Attempt(disk, done) == MakeDirs(old(disk), destination, parts)
    {
      done := true;
      for k := 0 to |parts| + 1
        invariant done
        invariant k > 0 ==> Attempt(disk, true) == MakeDirs(old(disk), destination, parts[..k - 1])
        invariant k == 0 ==> disk == old(disk)
      {
        var target := destination + parts[..k];
        if k > 0 { assert parts[..k][..k - 1] == parts[..k - 1]; }
        if target !in disk {
          disk := disk[target := Dir(DEFAULT)];
        } else if !disk[target].Dir? {
          Blocked(old(disk), destination, parts, k);
          return false;
        }
      }
      assert parts[..|parts|] == parts;
    }

    method PlaceMember(destination: Path, member: Member) returns (done: bool)
      modifies this
      ensures Attempt(disk, done) == Place(old(disk), destination, member)
    {
      var parts := Parts(member.name);
      var target := destination + parts;
      if member.kind.DirMember? {
        done := MakeDirectories(destination, parts);
        if !done || target !in disk {
          return false;
        }
        disk := disk[target := Dir(DEFAULT.(mode := Permissions(member.mode)))];
        return true;
      }
      if |parts| == 0 {
        return false;
      }
      done := MakeDirectories(destination, parts[..|parts| - 1]);
      if !done || (target in disk && !disk[target].File?) {
        return false;
      }
      disk := disk[target := File(DEFAULT.(mode := Permissions(member.mode)), member.content)];
    }

    method ExtractArchive(destination: Path, tar: Tar) returns (fault: Option<Fault>)
      modifies this
      ensures disk == Extract(old(disk), destination, tar).disk
      ensures fault == Extract(old(disk), destination, tar).fault
    {
      if Size(tar) > MAX_ARCHIVE_BYTES {
        return Some(Unsafe);
      }
      if destination in disk && disk[destination].Link? {
        return Some(Unsafe);
      }
      var made := MakeDirectories([], destination);
      if !made {
        return Some(OsError);
      }
      if |tar.members| > MAX_ENTRIES {
        return Some(Unsafe);
      }
      fault := ExtractMembers(destination, tar.members);
    }

    method ExtractMembers(destination: Path, members: seq<Member>) returns (fault: Option<Fault>)
      modifies this
      ensures disk == ExtractFrom(old(disk), destination, members, {}, 0).disk
      ensures fault == ExtractFrom(old(disk), destination, members, {}, 0).fault
    {
      hide Place, ValidName, CrossesLink;
      ghost var whole := ExtractFrom(disk, destination, members, {}, 0);
      var total: nat := 0;
      var names: set<string> := {};
      for i := 0 to |members|
        invariant ExtractFrom(disk, destination, members[i..], names, total).disk == whole.disk
        invariant ExtractFrom(disk, destination, members[i..], names, total).fault == whole.fault
      {
        var member := members[i];
        assert members[i..][1..] == members[i + 1..];
        if !ValidName(member.name) || member.name in names || member.kind.OtherMember? {
          return Some(Unsafe);
        }
        names := names + {member.name};
        total := total + |member.content|;
        if total > MAX_EXTRACTED_BYTES || CrossesLink(disk, destination, Parts(member.name)) {
          return Some(Unsafe);
        }
        var done := PlaceMember(destination, member);
        if !done {
          return Some(OsError);
        }
      }
      fault := None;
    }
  }

  /** A directory that cannot be made stops everything below it. */
  lemma {:induction false} Blocked(disk: Disk, destination: Path, parts: seq<string>, k: nat)
    requires k <= |parts| && !MakeDirs(disk, destination, parts[..k]).done
    ensures MakeDirs(disk, destination, parts) == MakeDirs(disk, destination, parts[..k])
    decreases |parts|
  {
    if k == |parts| {
      assert parts[..k] == parts;
    } else {
      assert parts[..|parts| - 1][..k] == parts[..k];
      Blocked(disk, destination, parts[..|parts| - 1], k);
    }
  }
}
