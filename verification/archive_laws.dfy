/** What extraction can touch, and that it undoes creation. */
module ArchiveLaws {
  import opened Models
  import opened Strings
  import opened PosixPaths
  import opened Archives

  // ------------------------------------------------------------------ containment

  /** Nothing is removed, nothing changes kind, and only paths below the destination change. */
  ghost predicate Contained(disk: Disk, disk': Disk, destination: Path) {
    && disk.Keys <= disk'.Keys
    && (forall p | p in disk :: KindKept(disk[p], disk'[p]))
    && (forall p | p in disk && !(destination <= p) :: disk'[p] == disk[p])
    && (forall p | p in disk' && p !in disk :: destination <= p && !disk'[p].Link?)
  }

  /**
   * Nothing is removed, nothing changes kind, and besides the missing ancestors of the destination, which
   * become directories, only paths below the destination change.
   */
  ghost predicate Confined(disk: Disk, disk': Disk, destination: Path) {
    && disk.Keys <= disk'.Keys
    && (forall p | p in disk :: KindKept(disk[p], disk'[p]))
    && (forall p | p in disk && !(destination <= p) :: disk'[p] == disk[p])
    && (forall p | p in disk' && p !in disk ::
          if destination <= p then !disk'[p].Link? else p <= destination && disk'[p] == Dir(DEFAULT))
  }

  ghost predicate KindKept(a: Node, b: Node) {
    match a
    case Dir(_) => b.Dir?
    case File(_, _) => b.File?
    case _ => b == a
  }

  lemma ContainedTransitive(a: Disk, b: Disk, c: Disk, destination: Path)
    requires Contained(a, b, destination) && Contained(b, c, destination)
    ensures Contained(a, c, destination)
  {
  }

  lemma {:induction false} MakeDirsContained(disk: Disk, destination: Path, parts: seq<string>)
    ensures Contained(disk, MakeDirs(disk, destination, parts).disk, destination)
    ensures MakeDirs(disk, destination, parts).done ==>
              destination + parts in MakeDirs(disk, destination, parts).disk
              && MakeDirs(disk, destination, parts).disk[destination + parts].Dir?
    decreases |parts|
  {
    if |parts| > 0 {
      MakeDirsContained(disk, destination, parts[..|parts| - 1]);
    }
  }

  lemma PlaceContained(disk: Disk, destination: Path, member: Member)
    ensures Contained(disk, Place(disk, destination, member).disk, destination)
  {
    hide Parts, MakeDirs;
    var parts := Parts(member.name);
    MakeDirsContained(disk, destination, parts);
    if |parts| > 0 {
      MakeDirsContained(disk, destination, parts[..|parts| - 1]);
    }
    assert destination <= destination + parts;
  }

  /** A change on disk, and the member that explains it. */
  ghost predicate Explained(disk: Disk, disk': Disk, destination: Path, members: seq<Member>) {
    forall p | p in disk' && (p !in disk || disk'[p] != disk[p]) ::
      exists m | m in members :: p <= destination + Parts(m.name) && ExplainedBy(disk', destination, m, p)
  }

  ghost predicate ExplainedBy(disk': Disk, destination: Path, m: Member, p: Path)
    requires p in disk'
  {
    disk'[p].File? ==> p == destination + Parts(m.name) && disk'[p].content == m.content
  }

  lemma {:induction false} MakeDirsMakes(disk: Disk, destination: Path, parts: seq<string>)
    ensures
      var disk' := MakeDirs(disk, destination, parts).disk;
      && (forall p | p in disk :: p in disk' && disk'[p] == disk[p])
      && (forall p | p in disk' && p !in disk :: p <= destination + parts && disk'[p] == Dir(DEFAULT))
    decreases |parts|
  {
    if |parts| > 0 {
      MakeDirsMakes(disk, destination, parts[..|parts| - 1]);
      assert destination + parts[..|parts| - 1] <= destination + parts;
    }
  }

  lemma PlaceExplained(disk: Disk, destination: Path, member: Member)
    ensures Explained(disk, Place(disk, destination, member).disk, destination, [member])
  {
    var parts := Parts(member.name);
    var disk' := Place(disk, destination, member).disk;
    MakeDirsMakes(disk, destination, parts);
    if |parts| > 0 {
      MakeDirsMakes(disk, destination, parts[..|parts| - 1]);
      assert destination + parts[..|parts| - 1] <= destination + parts;
    }
    forall p | p in disk' && (p !in disk || disk'[p] != disk[p])
      ensures exists m | m in [member] :: p <= destination + Parts(m.name) && ExplainedBy(disk', destination, m, p)
    {
      assert member in [member];
    }
  }

  ghost predicate DistinctNames(members: seq<Member>, names: set<string>) {
    && (forall m | m in members :: m.name !in names && ValidName(m.name) && !m.kind.OtherMember?)
    && (forall i, j | 0 <= i < j < |members| :: members[i].name != members[j].name)
  }

  lemma {:induction false} TotalSizeCons(member: Member, rest: seq<Member>)
    ensures TotalSize([member] + rest) == |member.content| + TotalSize(rest)
    decreases |rest|
  {
    var all := [member] + rest;
    if |rest| == 0 {
      assert all[..0] == [];
    } else {
      assert all[..|all| - 1] == [member] + rest[..|rest| - 1];
      TotalSizeCons(member, rest[..|rest| - 1]);
    }
  }

  lemma {:induction false} MembersContained(disk: Disk, destination: Path, members: seq<Member>, names: set<string>,
                                            total: nat)
    ensures Contained(disk, ExtractFrom(disk, destination, members, names, total).disk, destination)
    decreases |members|
  {
    hide Place, ValidName, CrossesLink;
    if |members| > 0 && Acceptable(disk, destination, members[0], names, total) {
      var member := members[0];
      var placed := Place(disk, destination, member);
      PlaceContained(disk, destination, member);
      if placed.done {
        var rest :=
          ExtractFrom(placed.disk, destination, members[1..], names + {member.name}, total + |member.content|);
        MembersContained(placed.disk, destination, members[1..], names + {member.name}, total + |member.content|);
        ContainedTransitive(disk, placed.disk, rest.disk, destination);
      }
    }
  }

  lemma Attempts(disk: Disk, destination: Path, members: seq<Member>, names: set<string>, total: nat)
    requires |members| > 0
    ensures
      var r := ExtractFrom(disk, destination, members, names, total);
      var member := members[0];
      var placed := Place(disk, destination, member);
      var rest := ExtractFrom(placed.disk, destination, members[1..], names + {member.name}, total + |member.content|);
      if !Acceptable(disk, destination, member, names, total) then r.attempted == [] && r.fault.Some?
      else if !placed.done then r.attempted == [member] && r.fault.Some?
      else r.attempted == [member] + rest.attempted && r.fault == rest.fault
  {
    hide Place, Acceptable;
  }

  lemma {:induction false} AttemptedIsPrefix(disk: Disk, destination: Path, members: seq<Member>, names: set<string>,
                                             total: nat)
    ensures
      var r := ExtractFrom(disk, destination, members, names, total);
      r.attempted <= members && (r.fault.None? ==> r.attempted == members)
    decreases |members|
  {
    hide Place, ValidName, CrossesLink;
    if |members| > 0 {
      var member := members[0];
      var placed := Place(disk, destination, member);
      Attempts(disk, destination, members, names, total);
      AttemptedIsPrefix(placed.disk, destination, members[1..], names + {member.name}, total + |member.content|);
      assert members == [member] + members[1..];
    }
  }

  lemma {:induction false} AttemptedBounded(disk: Disk, destination: Path, members: seq<Member>, names: set<string>,
                                            total: nat)
    requires total <= MAX_EXTRACTED_BYTES
    ensures total + TotalSize(ExtractFrom(disk, destination, members, names, total).attempted) <= MAX_EXTRACTED_BYTES
    decreases |members|
  {
    hide Place, ValidName, CrossesLink, TotalSize;
    assert TotalSize([]) == 0 by { TotalSizeEmpty(); }
    if |members| > 0 {
      Attempts(disk, destination, members, names, total);
    }
    hide ExtractFrom;
    if |members| > 0 && Acceptable(disk, destination, members[0], names, total) {
      var member := members[0];
      var placed := Place(disk, destination, member);
      var rest := ExtractFrom(placed.disk, destination, members[1..], names + {member.name}, total + |member.content|);
      AttemptedBounded(placed.disk, destination, members[1..], names + {member.name}, total + |member.content|);
      TotalSizeCons(member, []);
      TotalSizeCons(member, rest.attempted);
      assert [member] + [] == [member];
    } else {
      NothingAttempted(disk, destination, members, names, total);
    }
  }

  lemma NothingAttempted(disk: Disk, destination: Path, members: seq<Member>, names: set<string>, total: nat)
    requires |members| == 0 || !Acceptable(disk, destination, members[0], names, total)
    ensures ExtractFrom(disk, destination, members, names, total).attempted == []
  {
  }

  lemma TotalSizeEmpty()
    ensures TotalSize([]) == 0
  {
  }

  lemma {:induction false} AttemptedDistinct(disk: Disk, destination: Path, members: seq<Member>, names: set<string>,
                                             total: nat)
    ensures DistinctNames(ExtractFrom(disk, destination, members, names, total).attempted, names)
    decreases |members|
  {
    hide Place, ValidName, CrossesLink;
    if |members| > 0 && Acceptable(disk, destination, members[0], names, total) {
      var member := members[0];
      var placed := Place(disk, destination, member);
      Attempts(disk, destination, members, names, total);
      if placed.done {
        var rest :=
          ExtractFrom(placed.disk, destination, members[1..], names + {member.name}, total + |member.content|);
        AttemptedDistinct(placed.disk, destination, members[1..], names + {member.name}, total + |member.content|);
        DistinctCons(member, rest.attempted, names);
      }
    }
  }

  lemma DistinctCons(member: Member, rest: seq<Member>, names: set<string>)
    requires DistinctNames(rest, names + {member.name})
    requires member.name !in names && ValidName(member.name) && !member.kind.OtherMember?
    ensures DistinctNames([member] + rest, names)
  {
    var all := [member] + rest;
    forall i, j | 0 <= i < j < |all| ensures all[i].name != all[j].name {
      assert rest[j - 1] in rest;
    }
  }

  lemma {:induction false} MembersExplained(disk: Disk, destination: Path, members: seq<Member>, names: set<string>,
                                            total: nat)
    ensures
      var r := ExtractFrom(disk, destination, members, names, total);
      Explained(disk, r.disk, destination, r.attempted)
    decreases |members|
  {
    hide Place, ValidName, CrossesLink;
    if |members| > 0 && Acceptable(disk, destination, members[0], names, total) {
      var member := members[0];
      var placed := Place(disk, destination, member);
      PlaceExplained(disk, destination, member);
      if placed.done {
        var rest :=
          ExtractFrom(placed.disk, destination, members[1..], names + {member.name}, total + |member.content|);
        MembersExplained(placed.disk, destination, members[1..], names + {member.name}, total + |member.content|);
        MembersContained(placed.disk, destination, members[1..], names + {member.name}, total + |member.content|);
        ExplainedTogether(disk, placed.disk, rest.disk, destination, member, rest.attempted);
      }
    }
  }

  lemma ExplainedTogether(a: Disk, b: Disk, c: Disk, destination: Path, member: Member, rest: seq<Member>)
    requires Explained(a, b, destination, [member]) && Explained(b, c, destination, rest)
    requires Contained(b, c, destination)
    ensures Explained(a, c, destination, [member] + rest)
  {
    var all := [member] + rest;
    forall p | p in c && (p !in a || c[p] != a[p])
      ensures exists m | m in all :: p <= destination + Parts(m.name) && ExplainedBy(c, destination, m, p)
    {
      if p in b && c[p] == b[p] {
        var m :| m in [member] && p <= destination + Parts(m.name) && ExplainedBy(b, destination, m, p);
        assert m in all && ExplainedBy(c, destination, m, p);
      } else {
        var m :| m in rest && p <= destination + Parts(m.name) && ExplainedBy(c, destination, m, p);
        assert m in all;
      }
    }
  }

  /**
   * For every member list and every disk, also when extraction fails midway: nothing outside the
   * destination changes but its missing ancestors, no link is made or replaced, no two members are
   * extracted to one target, every written file holds the content of the member that names it, and the
   * members written stay below the bound.
   */
  lemma ExtractionIsContained(disk: Disk, destination: Path, tar: Tar)
    ensures
      var r := Extract(disk, destination, tar);
      && Confined(disk, r.disk, destination)
      && r.attempted <= tar.members
      && DistinctNames(r.attempted, {})
      && (forall i, j | 0 <= i < j < |r.attempted| :: Parts(r.attempted[i].name) != Parts(r.attempted[j].name))
      && TotalSize(r.attempted) <= 512 * 1024 * 1024
      && Explained(WithDestination(disk, destination).disk, r.disk, destination, r.attempted)
  {
    var base := WithDestination(disk, destination).disk;
    var r := Extract(disk, destination, tar);
    Untouched(disk, destination);
    ThenContained(disk, base, base, destination);
    hide Explained, DistinctNames, TotalSize, ExtractFrom, MakeDirs, Confined, Contained;
    MembersContained(base, destination, tar.members, {}, 0);
    MembersExplained(base, destination, tar.members, {}, 0);
    AttemptedIsPrefix(base, destination, tar.members, {}, 0);
    AttemptedBounded(base, destination, tar.members, {}, 0);
    AttemptedDistinct(base, destination, tar.members, {}, 0);
    ThenContained(disk, base, ExtractFrom(base, destination, tar.members, {}, 0).disk, destination);
    DistinctTargets(r.attempted);
  }

  lemma DistinctTargets(members: seq<Member>)
    requires DistinctNames(members, {})
    ensures forall i, j | 0 <= i < j < |members| :: Parts(members[i].name) != Parts(members[j].name)
  {
    hide ValidName;
    forall i, j | 0 <= i < j < |members| ensures Parts(members[i].name) != Parts(members[j].name) {
      assert members[i] in members && members[j] in members;
      if Parts(members[i].name) == Parts(members[j].name) {
        ValidNamesDiffer(members[i].name, members[j].name);
      }
    }
  }

  lemma Untouched(disk: Disk, destination: Path)
    ensures
      var base := WithDestination(disk, destination).disk;
      && Confined(disk, disk, destination) && Confined(disk, base, destination) && Contained(base, base, destination)
      && (forall d | d == disk || d == base :: Explained(base, d, destination, []))
    ensures DistinctNames([], {}) && TotalSize([]) == 0
  {
    MakeDirsMakes(disk, [], destination);
    assert [] + destination == destination;
  }

  lemma ThenContained(a: Disk, b: Disk, c: Disk, destination: Path)
    requires Confined(a, b, destination) && Contained(b, c, destination)
    ensures Confined(a, c, destination)
  {
  }

  // ------------------------------------------------------------------ creation

  /** What a listed node becomes. */
  ghost predicate Archivable(tree: Disk, p: Path)
    requires p in tree
  {
    ValidName(Join(p)) && (tree[p].Dir? || tree[p].File?)
  }

  lemma {:induction false} MembersForIff(tree: Disk, names: seq<string>)
    requires forall name | name in names :: Split(name) in tree
    ensures MembersFor(tree, names).Ok? <==> forall name | name in names :: MemberFor(name, tree[Split(name)]).Ok?
    decreases |names|
  {
    hide ValidName, Split, MemberFor;
    if |names| > 0 {
      var n := |names| - 1;
      MembersForIff(tree, names[..n]);
      forall name | name in names ensures name in names[..n] || name == names[n] {}
      if MembersFor(tree, names[..n]).Err? {
        var bad :| bad in names[..n] && MemberFor(bad, tree[Split(bad)]).Err?;
        assert bad in names;
      }
      assert names[n] in names;
    }
  }

  lemma {:induction false} MembersForEach(tree: Disk, names: seq<string>)
    requires forall name | name in names :: Split(name) in tree
    requires MembersFor(tree, names).Ok?
    ensures |MembersFor(tree, names).value| == |names|
    ensures forall i | 0 <= i < |names| ::
              Ok(MembersFor(tree, names).value[i]) == MemberFor(names[i], tree[Split(names[i])])
    decreases |names|
  {
    hide ValidName, Split, MemberFor;
    if |names| > 0 {
      MembersForEach(tree, names[..|names| - 1]);
    }
  }

  lemma NamesInjective(tree: Disk)
    requires WellFormed(tree)
    ensures |Names(tree)| == |tree|
  {
    NamesSplit(tree);
    JoinedSize(tree.Keys);
  }

  lemma {:induction false} JoinedSize(paths: set<Path>)
    requires forall p | p in paths :: Split(Join(p)) == p
    ensures |Joined(paths)| == |paths|
    decreases |paths|
  {
    if paths == {} {
      assert Joined(paths) == {};
    } else {
      var p :| p in paths;
      var rest := paths - {p};
      JoinedSize(rest);
      assert Joined(paths) == Joined(rest) + {Join(p)};
      forall q | q in rest ensures Join(q) != Join(p) {
        assert Split(Join(q)) == q && Split(Join(p)) == p;
      }
      assert Join(p) !in Joined(rest);
    }
  }

  /** Exactly which directories can be archived. */
  lemma CreateSucceedsIff(tree: Disk, headers: nat)
    requires WellFormed(tree)
    ensures
      Create(tree, headers).Ok?
      <==>
        && |tree| <= 10_000
        && (forall p | p in tree :: Archivable(tree, p))
        && headers + Payload(tree, Listing(tree)) <= 64 * 1024 * 1024
  {
    hide MemberFor, Archivable, ValidName, WellFormed, Split, Join, MembersFor, Payload, TotalSize, Names;
    var names := Listing(tree);
    NamesSplit(tree);
    NamesInjective(tree);
    MembersForIff(tree, names);
    ArchivableIff(tree, names);
    if MembersFor(tree, names).Ok? {
      PayloadIsTotal(tree, names);
    }
  }

  lemma ArchivableIff(tree: Disk, names: seq<string>)
    requires WellFormed(tree) && (forall name :: name in names <==> name in Names(tree))
    requires forall name | name in names :: Split(name) in tree
    ensures (forall name | name in names :: MemberFor(name, tree[Split(name)]).Ok?)
            <==> forall p | p in tree :: Archivable(tree, p)
  {
    NamesSplit(tree);
    if forall p | p in tree :: Archivable(tree, p) {
      forall name | name in names ensures MemberFor(name, tree[Split(name)]).Ok? {
        assert Archivable(tree, Split(name));
      }
    }
    if forall name | name in names :: MemberFor(name, tree[Split(name)]).Ok? {
      forall p | p in tree ensures Archivable(tree, p) {
        assert Join(p) in names;
      }
    }
  }

  /** The bytes of the listed files. */
  function Payload(tree: Disk, names: seq<string>): nat
  {
    if |names| == 0 then 0
    else
      var p := Split(names[|names| - 1]);
      Payload(tree, names[..|names| - 1]) + if p in tree && tree[p].File? then |tree[p].content| else 0
  }

  lemma {:induction false} PayloadIsTotal(tree: Disk, names: seq<string>)
    requires forall name | name in names :: Split(name) in tree
    requires MembersFor(tree, names).Ok?
    ensures TotalSize(MembersFor(tree, names).value) == Payload(tree, names)
    decreases |names|
  {
    if |names| > 0 {
      PayloadIsTotal(tree, names[..|names| - 1]);
    }
  }

  /** Two directories that differ in times and owners only. */
  ghost predicate SameButMetadata(tree: Disk, tree': Disk) {
    && tree.Keys == tree'.Keys
    && forall p | p in tree ::
         match tree[p]
         case Dir(a) => tree'[p].Dir? && Permissions(tree'[p].attributes.mode) == Permissions(a.mode)
         case File(a, content) =>
           && tree'[p].File? && tree'[p].content == content
           && Permissions(tree'[p].attributes.mode) == Permissions(a.mode)
         case _ => tree'[p] == tree[p]
  }

  lemma MetadataIsIgnored(tree: Disk, tree': Disk, headers: nat)
    requires WellFormed(tree) && WellFormed(tree') && SameButMetadata(tree, tree')
    ensures Create(tree, headers) == Create(tree', headers)
  {
    NamesSplit(tree);
    assert Names(tree) == Names(tree');
    SameMembers(tree, tree', Listing(tree));
  }

  lemma {:induction false} SameMembers(tree: Disk, tree': Disk, names: seq<string>)
    requires SameButMetadata(tree, tree') && forall name | name in names :: Split(name) in tree
    ensures MembersFor(tree, names) == MembersFor(tree', names)
    decreases |names|
  {
    if |names| > 0 {
      SameMembers(tree, tree', names[..|names| - 1]);
    }
  }

  lemma {:induction false} PrefixIsLess(a: string, b: string)
    requires a < b
    ensures Less(a, b)
    decreases |a|
  {
    if |a| > 0 {
      assert a[1..] < b[1..];
      PrefixIsLess(a[1..], b[1..]);
    }
  }

  lemma {:induction false} JoinPrefix(parts: seq<string>, k: nat)
    requires 0 < k < |parts|
    ensures Join(parts[..k]) < Join(parts)
    decreases |parts|
  {
    if k == 1 {
      assert parts[..1] == [parts[0]];
    } else {
      JoinPrefix(parts[1..], k - 1);
      assert parts[..k][1..] == parts[1..][..k - 1];
      assert parts[..k][0] == parts[0];
    }
  }

  lemma InOrder(names: seq<string>, a: string, b: string)
    requires Ascending(names) && a in names && b in names && Less(a, b)
    ensures exists i, j :: 0 <= i < j < |names| && names[i] == a && names[j] == b
  {
    var i :| 0 <= i < |names| && names[i] == a;
    var j :| 0 <= j < |names| && names[j] == b;
    LessTotal(a, b);
  }

  /** The entries of a directory follow it in the listing. */
  lemma ListedInOrder(tree: Disk, p: Path, k: nat)
    requires WellFormed(tree) && p in tree && 0 < k < |p|
    ensures
      var names := Listing(tree);
      exists i, j :: 0 <= i < j < |names| && names[i] == Join(p[..k]) && names[j] == Join(p)
  {
    var names := Listing(tree);
    assert p[..k] in tree;
    assert Join(p[..k]) in names && Join(p) in names;
    JoinPrefix(p, k);
    PrefixIsLess(Join(p[..k]), Join(p));
    InOrder(names, Join(p[..k]), Join(p));
  }

  /** The member of a listed entry carries its name and kind. */
  lemma MemberOfEntry(tree: Disk, headers: nat, i: nat)
    requires WellFormed(tree) && Create(tree, headers).Ok? && i < |Listing(tree)|
    ensures Split(Listing(tree)[i]) in tree
    ensures
      var members, name := Create(tree, headers).value.members, Listing(tree)[i];
      && |members| == |Listing(tree)|
      && members[i].name == name
      && (members[i].kind.DirMember? <==> tree[Split(name)].Dir?)
      && (members[i].kind.FileMember? <==> tree[Split(name)].File?)
      && (tree[Split(name)].Dir? || tree[Split(name)].File?)
  {
    NamesSplit(tree);
    hide ValidName, Split, WellFormed, Names;
    var names := Listing(tree);
    assert names[i] in names;
    MembersForEach(tree, names);
  }

  /** In a created archive every entry has a member of its kind, and its directories come before it. */
  lemma DirectoriesFirst(tree: Disk, headers: nat, p: Path, k: nat)
    requires WellFormed(tree) && p in tree && 0 < k < |p|
    requires Create(tree, headers).Ok?
    ensures
      var members := Create(tree, headers).value.members;
      exists i, j :: 0 <= i < j < |members|
        && members[i].name == Join(p[..k]) && members[i].kind.DirMember?
        && members[j].name == Join(p)
        && (if tree[p].Dir? then members[j].kind.DirMember? else members[j].kind.FileMember?)
  {
    NamesSplit(tree);
    ListedInOrder(tree, p, k);
    assert p[..k] in tree && tree[p[..k]].Dir?;
    hide ValidName, Split, Join, Create, WellFormed, Names;
    var names, members := Listing(tree), Create(tree, headers).value.members;
    var i, j :| 0 <= i < j < |names| && names[i] == Join(p[..k]) && names[j] == Join(p);
    MemberOfEntry(tree, headers, i);
    MemberOfEntry(tree, headers, j);
  }
}
