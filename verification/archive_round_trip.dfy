/** Extracting what was created restores the directory. */
module ArchiveRoundTrip {
  import opened Models
  import opened Strings
  import opened PosixPaths
  import opened Archives
  import opened ArchiveLaws

  /** The node that extraction writes: content and permissions, with times and owner of the extractor. */
  function Restored(node: Node): Node {
    match node
    case Dir(a) => Dir(DEFAULT.(mode := Permissions(a.mode)))
    case File(a, content) => File(DEFAULT.(mode := Permissions(a.mode)), content)
    case _ => node
  }

  /** The destination holds nothing or does not exist yet, and no file is in its way. */
  ghost predicate EmptyDestination(disk: Disk, destination: Path) {
    && (forall k | 0 <= k <= |destination| && destination[..k] in disk :: disk[destination[..k]].Dir?)
    && forall q | q in disk && destination <= q :: q == destination
  }

  /** The disk after the first of the listed entries were restored. */
  function Rebuilt(disk: Disk, destination: Path, tree: Disk, names: seq<string>): Disk
    requires forall name | name in names :: Split(name) in tree
  {
    if |names| == 0 then disk
    else
      var last := Split(names[|names| - 1]);
      Rebuilt(disk, destination, tree, names[..|names| - 1])[destination + last := Restored(tree[last])]
  }

  lemma {:induction false} RebuiltKeeps(disk: Disk, destination: Path, tree: Disk, names: seq<string>, q: Path)
    requires forall name | name in names :: Split(name) in tree && q != destination + Split(name)
    ensures q in Rebuilt(disk, destination, tree, names) <==> q in disk
    ensures q in disk ==> Rebuilt(disk, destination, tree, names)[q] == disk[q]
    decreases |names|
  {
    if |names| > 0 {
      RebuiltKeeps(disk, destination, tree, names[..|names| - 1], q);
    }
  }

  lemma {:induction false} RebuiltHas(disk: Disk, destination: Path, tree: Disk, names: seq<string>, name: string)
    requires forall x | x in names :: Split(x) in tree
    requires name in names
    ensures destination + Split(name) in Rebuilt(disk, destination, tree, names)
    ensures Rebuilt(disk, destination, tree, names)[destination + Split(name)] == Restored(tree[Split(name)])
    decreases |names|
  {
    var last := names[|names| - 1];
    if Split(last) == Split(name) {
      assert destination + Split(name) == destination + Split(last);
    } else {
      RebuiltHas(disk, destination, tree, names[..|names| - 1], name);
      assert (destination + Split(name))[|destination|..] == Split(name);
      assert (destination + Split(last))[|destination|..] == Split(last);
    }
  }

  lemma SameName(destination: Path, a: string, b: string)
    requires destination + Split(a) == destination + Split(b)
    ensures a == b
  {
    assert (destination + Split(a))[|destination|..] == Split(a);
    assert (destination + Split(b))[|destination|..] == Split(b);
    JoinSplit(a);
    JoinSplit(b);
  }

  lemma {:induction false} MakeDirsIdle(disk: Disk, destination: Path, parts: seq<string>)
    requires forall k | 0 <= k <= |parts| :: destination + parts[..k] in disk && disk[destination + parts[..k]].Dir?
    ensures MakeDirs(disk, destination, parts) == Attempt(disk, true)
    decreases |parts|
  {
    assert parts[..|parts|] == parts;
    if |parts| > 0 {
      var parent := parts[..|parts| - 1];
      forall k | 0 <= k <= |parent| ensures destination + parent[..k] in disk && disk[destination + parent[..k]].Dir? {
        assert parent[..k] == parts[..k];
      }
      MakeDirsIdle(disk, destination, parent);
    }
  }

  /** A listed entry whose turn has come, and the disk that holds all entries before it. */
  ghost predicate Turn(base: Disk, destination: Path, tree: Disk, i: nat) {
    && WellFormed(tree)
    && destination in base && EmptyDestination(base, destination)
    && (forall name | name in Listing(tree) :: Split(name) in tree)
    && i < |Listing(tree)|
  }

  /** Its directories are there. */
  lemma ParentsReady(base: Disk, destination: Path, tree: Disk, i: nat, k: nat)
    requires Turn(base, destination, tree, i)
    requires k < |Split(Listing(tree)[i])|
    ensures
      var disk := Rebuilt(base, destination, tree, Listing(tree)[..i]);
      var parent := destination + Split(Listing(tree)[i])[..k];
      parent in disk && disk[parent].Dir?
  {
    var names := Listing(tree);
    var p := Split(names[i]);
    NamesSplit(tree);
    if k == 0 {
      assert destination + p[..0] == destination && destination[..|destination|] == destination;
      forall name | name in names[..i] ensures destination != destination + Split(name) {
        assert |Split(name)| > 0;
      }
      RebuiltKeeps(base, destination, tree, names[..i], destination);
    } else {
      ListedInOrder(tree, p, k);
      var a, b :| 0 <= a < b < |names| && names[a] == Join(p[..k]) && names[b] == Join(p);
      JoinSplit(names[i]);
      if b < i { AscendingDistinct(names, b, i); } else if i < b { AscendingDistinct(names, i, b); }
      assert names[a] in names[..i];
      assert p[..k] in tree;
      RebuiltHas(base, destination, tree, names[..i], names[a]);
    }
  }

  /** It is not there itself. */
  lemma TargetFree(base: Disk, destination: Path, tree: Disk, i: nat)
    requires Turn(base, destination, tree, i)
    ensures destination + Split(Listing(tree)[i]) !in Rebuilt(base, destination, tree, Listing(tree)[..i])
  {
    var names := Listing(tree);
    var target := destination + Split(names[i]);
    forall name | name in names[..i] ensures target != destination + Split(name) {
      var j :| 0 <= j < i && names[j] == name;
      AscendingDistinct(names, j, i);
      if target == destination + Split(name) { SameName(destination, name, names[i]); }
    }
    RebuiltKeeps(base, destination, tree, names[..i], target);
    assert destination <= target && |target| > |destination|;
  }

  /** A path whose directories exist, and which is free itself. */
  ghost predicate Vacant(disk: Disk, destination: Path, p: Path) {
    && |p| > 0
    && destination + p !in disk
    && forall k | 0 <= k < |p| :: destination + p[..k] in disk && disk[destination + p[..k]].Dir?
  }

  lemma EntryVacant(base: Disk, destination: Path, tree: Disk, i: nat)
    requires Turn(base, destination, tree, i)
    ensures Vacant(Rebuilt(base, destination, tree, Listing(tree)[..i]), destination, Split(Listing(tree)[i]))
  {
    TargetFree(base, destination, tree, i);
    forall k | 0 <= k < |Split(Listing(tree)[i])|
      ensures
        var disk := Rebuilt(base, destination, tree, Listing(tree)[..i]);
        var parent := destination + Split(Listing(tree)[i])[..k];
        parent in disk && disk[parent].Dir?
    {
      ParentsReady(base, destination, tree, i, k);
    }
  }

  /** So it is restored. */
  lemma EntryPlaced(base: Disk, destination: Path, tree: Disk, i: nat, member: Member)
    requires Turn(base, destination, tree, i)
    requires MemberFor(Listing(tree)[i], tree[Split(Listing(tree)[i])]) == Ok(member)
    ensures
      var disk := Rebuilt(base, destination, tree, Listing(tree)[..i]);
      && !CrossesLink(disk, destination, Parts(member.name))
      && Place(disk, destination, member) == Attempt(Rebuilt(base, destination, tree, Listing(tree)[..i + 1]), true)
  {
    hide WellFormed, EmptyDestination, ValidName, Parts, CrossesLink, Place;
    var names := Listing(tree);
    var disk := Rebuilt(base, destination, tree, names[..i]);
    assert names[..i + 1][..i] == names[..i];
    EntryIsProper(tree, names[i]);
    EntryVacant(base, destination, tree, i);
    VacantPlaced(disk, destination, Split(names[i]), member);
  }

  lemma EntryIsProper(tree: Disk, name: string)
    requires WellFormed(tree) && Split(name) in tree
    ensures Parts(name) == Split(name)
  {
    ProperIsKept(name);
  }

  /** Placing a new entry into an existing directory. */
  lemma VacantPlaced(disk: Disk, destination: Path, p: Path, member: Member)
    requires Vacant(disk, destination, p) && Parts(member.name) == p && !member.kind.OtherMember?
    ensures !CrossesLink(disk, destination, p)
    ensures
      var attributes := DEFAULT.(mode := Permissions(member.mode));
      Place(disk, destination, member)
      == Attempt(disk[destination + p := if member.kind.DirMember? then Dir(attributes)
                                         else File(attributes, member.content)], true)
  {
    hide Parts;
    var parent := p[..|p| - 1];
    forall k | 0 <= k <= |parent| ensures destination + parent[..k] in disk && disk[destination + parent[..k]].Dir? {
      assert parent[..k] == p[..k];
    }
    MakeDirsIdle(disk, destination, parent);
    assert MakeDirs(disk, destination, p) == Attempt(disk[destination + p := Dir(DEFAULT)], true);
    assert p[..|p|] == p;
  }

  lemma {:induction false} TotalGrows(members: seq<Member>, i: nat)
    requires i <= |members|
    ensures TotalSize(members[..i]) <= TotalSize(members)
    decreases |members|
  {
    if i == |members| {
      assert members[..i] == members;
    } else {
      assert members[..|members| - 1][..i] == members[..i];
      TotalGrows(members[..|members| - 1], i);
    }
  }

  function NameSet(names: seq<string>): set<string> {
    set name | name in names
  }

  lemma ExtractsNext(disk: Disk, destination: Path, members: seq<Member>, i: nat, names: set<string>, total: nat,
                     disk': Disk)
    requires i < |members| && Acceptable(disk, destination, members[i], names, total)
    requires Place(disk, destination, members[i]) == Attempt(disk', true)
    ensures
      var r := ExtractFrom(disk, destination, members[i..], names, total);
      var rest := ExtractFrom(disk', destination, members[i + 1..], names + {members[i].name},
                              total + |members[i].content|);
      r.disk == rest.disk && r.fault == rest.fault
  {
    hide Acceptable, Place;
    assert members[i..][0] == members[i] && members[i..][1..] == members[i + 1..];
  }

  /** From entry i on, extraction completes the directory. */
  ghost predicate RestDone(base: Disk, destination: Path, tree: Disk, members: seq<Member>, i: nat)
    requires forall name | name in Listing(tree) :: Split(name) in tree
    requires i <= |Listing(tree)| == |members|
  {
    var names := Listing(tree);
    var r := ExtractFrom(Rebuilt(base, destination, tree, names[..i]), destination, members[i..], NameSet(names[..i]),
                         TotalSize(members[..i]));
    r.fault.None? && r.disk == Rebuilt(base, destination, tree, names)
  }

  lemma NothingLeft(base: Disk, destination: Path, tree: Disk, members: seq<Member>)
    requires forall name | name in Listing(tree) :: Split(name) in tree
    requires |Listing(tree)| == |members|
    ensures RestDone(base, destination, tree, members, |members|)
  {
    hide Acceptable, Place;
    assert Listing(tree)[..|members|] == Listing(tree);
  }

  lemma OneMore(base: Disk, destination: Path, tree: Disk, members: seq<Member>, i: nat)
    requires Turn(base, destination, tree, i)
    requires MembersFor(tree, Listing(tree)) == Ok(members) && TotalSize(members) <= MAX_EXTRACTED_BYTES
    requires |Listing(tree)| == |members| && RestDone(base, destination, tree, members, i + 1)
    ensures RestDone(base, destination, tree, members, i)
  {
    hide WellFormed, EmptyDestination, MembersFor, Acceptable, Place, Rebuilt, TotalSize, NameSet, ExtractFrom;
    var names := Listing(tree);
    EntryAcceptable(base, destination, tree, members, i);
    ExtractsNext(Rebuilt(base, destination, tree, names[..i]), destination, members, i, NameSet(names[..i]),
                 TotalSize(members[..i]), Rebuilt(base, destination, tree, names[..i + 1]));
    NextEntry(names, members, i);
  }

  lemma {:induction false} RestPlaced(base: Disk, destination: Path, tree: Disk, members: seq<Member>, i: nat)
    requires WellFormed(tree) && destination in base && EmptyDestination(base, destination)
    requires forall name | name in Listing(tree) :: Split(name) in tree
    requires MembersFor(tree, Listing(tree)) == Ok(members) && TotalSize(members) <= MAX_EXTRACTED_BYTES
    requires i <= |Listing(tree)| == |members|
    ensures RestDone(base, destination, tree, members, i)
    decreases |members| - i
  {
    hide WellFormed, EmptyDestination, MembersFor, RestDone, TotalSize, Rebuilt, ExtractFrom, NameSet, Listing, Split;
    if i == |members| {
      NothingLeft(base, destination, tree, members);
    } else {
      RestPlaced(base, destination, tree, members, i + 1);
      OneMore(base, destination, tree, members, i);
    }
  }

  /** The member of an entry. */
  lemma EntryMember(tree: Disk, members: seq<Member>, i: nat)
    requires forall name | name in Listing(tree) :: Split(name) in tree
    requires MembersFor(tree, Listing(tree)) == Ok(members) && i < |Listing(tree)|
    ensures |members| == |Listing(tree)|
    ensures MemberFor(Listing(tree)[i], tree[Split(Listing(tree)[i])]) == Ok(members[i])
    ensures members[i].name == Listing(tree)[i] && ValidName(members[i].name) && !members[i].kind.OtherMember?
  {
    MembersForEach(tree, Listing(tree));
    hide MembersFor, ValidName, Split;
    assert MemberFor(Listing(tree)[i], tree[Split(Listing(tree)[i])]) == Ok(members[i]);
  }

  lemma EntryAcceptable(base: Disk, destination: Path, tree: Disk, members: seq<Member>, i: nat)
    requires Turn(base, destination, tree, i)
    requires MembersFor(tree, Listing(tree)) == Ok(members) && TotalSize(members) <= MAX_EXTRACTED_BYTES
    ensures |members| == |Listing(tree)| && members[i].name == Listing(tree)[i]
    ensures
      var names := Listing(tree);
      var disk := Rebuilt(base, destination, tree, names[..i]);
      && Acceptable(disk, destination, members[i], NameSet(names[..i]), TotalSize(members[..i]))
      && Place(disk, destination, members[i]) == Attempt(Rebuilt(base, destination, tree, names[..i + 1]), true)
  {
    hide WellFormed, EmptyDestination, CrossesLink, Place, Parts, ValidName, Rebuilt, TotalSize, NameSet, MemberFor;
    EntryMember(tree, members, i);
    hide MembersFor;
    EntryPlaced(base, destination, tree, i, members[i]);
    TotalGrows(members, i + 1);
    NextEntry(Listing(tree), members, i);
  }

  lemma NextEntry(names: seq<string>, members: seq<Member>, i: nat)
    requires Ascending(names) && i < |names| == |members|
    ensures names[i] !in NameSet(names[..i]) && NameSet(names[..i]) + {names[i]} == NameSet(names[..i + 1])
    ensures TotalSize(members[..i + 1]) == TotalSize(members[..i]) + |members[i].content|
    ensures members[i..][0] == members[i] && members[i..][1..] == members[i + 1..]
  {
    assert members[..i + 1][..i] == members[..i];
    if names[i] in names[..i] {
      var j :| 0 <= j < i && names[j] == names[i];
      AscendingDistinct(names, j, i);
    }
    assert names[..i + 1] == names[..i] + [names[i]];
  }

  /**
   * If a directory can be archived, extraction into an empty destination passes every limit and
   * restores the same paths, kinds, contents and permissions there. Nothing else changes anywhere, but
   * for the directories on the way to the destination, which exist afterwards.
   */
  lemma RoundTrip(tree: Disk, headers: nat, disk: Disk, destination: Path)
    requires WellFormed(tree) && Create(tree, headers).Ok?
    requires EmptyDestination(disk, destination)
    ensures
      var r := Extract(disk, destination, Create(tree, headers).value);
      && r.fault.None?
      && (forall p | p in tree :: destination + p in r.disk && r.disk[destination + p] == Restored(tree[p]))
      && (forall q | q in r.disk && (forall p | p in tree :: q != destination + p) ::
            if q in disk then r.disk[q] == disk[q] else q <= destination && r.disk[q] == Dir(DEFAULT))
      && (forall q | q in disk :: q in r.disk)
      && (forall k | 0 <= k <= |destination| :: destination[..k] in r.disk)
  {
    var names := Listing(tree);
    var base := WithDestination(disk, destination).disk;
    DestinationReady(disk, destination);
    NamesSplit(tree);
    Rebuilds(tree, headers, disk, destination);
    hide WellFormed, EmptyDestination, Create, Extract, Rebuilt, WithDestination, Split, Join;
    var r := Rebuilt(base, destination, tree, names);
    forall p | p in tree ensures destination + p in r && r[destination + p] == Restored(tree[p]) {
      assert Join(p) in names;
      RebuiltHas(base, destination, tree, names, Join(p));
    }
    forall q | q in r && (forall p | p in tree :: q != destination + p) ensures q in base && r[q] == base[q] {
      RebuiltKeeps(base, destination, tree, names, q);
    }
    forall q | q in base ensures q in r {
      RebuiltGrows(base, destination, tree, names, q);
    }
  }

  lemma {:induction false} MakesAll(disk: Disk, parts: seq<string>)
    requires forall k | 0 <= k <= |parts| && parts[..k] in disk :: disk[parts[..k]].Dir?
    ensures MakeDirs(disk, [], parts).done
    ensures forall k | 0 <= k <= |parts| :: parts[..k] in MakeDirs(disk, [], parts).disk
    decreases |parts|
  {
    assert [] + parts == parts && parts[..|parts|] == parts;
    MakeDirsMakes(disk, [], parts);
    if |parts| > 0 {
      var parent := parts[..|parts| - 1];
      forall k | 0 <= k <= |parent| ensures parent[..k] == parts[..k] {}
      MakeDirsMakes(disk, [], parent);
      assert [] + parent == parent;
      MakesAll(disk, parent);
    }
  }

  lemma DestinationReady(disk: Disk, destination: Path)
    requires EmptyDestination(disk, destination)
    ensures
      var made := WithDestination(disk, destination);
      && made.done
      && EmptyDestination(made.disk, destination)
      && (forall k | 0 <= k <= |destination| :: destination[..k] in made.disk)
      && (forall q | q in disk :: q in made.disk && made.disk[q] == disk[q])
      && (forall q | q in made.disk && q !in disk :: q <= destination && made.disk[q] == Dir(DEFAULT))
  {
    MakesAll(disk, destination);
    MakeDirsMakes(disk, [], destination);
    assert [] + destination == destination;
  }

  lemma Rebuilds(tree: Disk, headers: nat, disk: Disk, destination: Path)
    requires WellFormed(tree) && Create(tree, headers).Ok?
    requires EmptyDestination(disk, destination)
    ensures forall name | name in Listing(tree) :: Split(name) in tree
    ensures
      var r := Extract(disk, destination, Create(tree, headers).value);
      var base := WithDestination(disk, destination).disk;
      r.fault.None? && r.disk == Rebuilt(base, destination, tree, Listing(tree))
  {
    var names := Listing(tree);
    var tar := Create(tree, headers).value;
    var base := WithDestination(disk, destination).disk;
    DestinationReady(disk, destination);
    assert destination[..|destination|] == destination;
    NamesSplit(tree);
    MembersForEach(tree, names);
    hide WellFormed, EmptyDestination, WithDestination, Split, Join;
    RestPlaced(base, destination, tree, tar.members, 0);
    assert tar.members[0..] == tar.members && TotalSize([]) == 0;
    StartsEmpty(base, destination, tree, names, tar.members);
  }

  lemma StartsEmpty(base: Disk, destination: Path, tree: Disk, names: seq<string>, members: seq<Member>)
    requires forall name | name in names :: Split(name) in tree
    ensures Rebuilt(base, destination, tree, names[..0]) == base
    ensures NameSet(names[..0]) == {} && TotalSize(members[..0]) == 0
  {
  }

  lemma {:induction false} RebuiltGrows(disk: Disk, destination: Path, tree: Disk, names: seq<string>, q: Path)
    requires (forall name | name in names :: Split(name) in tree) && q in disk
    ensures q in Rebuilt(disk, destination, tree, names)
    decreases |names|
  {
    if |names| > 0 {
      RebuiltGrows(disk, destination, tree, names[..|names| - 1], q);
    }
  }
}
