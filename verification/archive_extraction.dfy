/** Exactly which archives can be extracted to a disk, and what they leave there. */
module ArchiveExtraction {
  import opened Models
  import opened Strings
  import opened PosixPaths
  import opened Archives
  import opened ArchiveLaws

  // ------------------------------------------------------------------ directories on the way

  /** Nothing but directories stands at the first n places of the way. */
  ghost predicate WayClear(disk: Disk, destination: Path, parts: seq<string>, n: int) {
    forall k | 0 <= k < n && k <= |parts| && destination + parts[..k] in disk :: disk[destination + parts[..k]].Dir?
  }

  ghost predicate OnWay(destination: Path, parts: seq<string>, p: Path) {
    exists k :: 0 <= k <= |parts| && p == destination + parts[..k]
  }

  /** The way to an entry is the way to its directory, and the entry. */
  lemma WayGrows(disk: Disk, destination: Path, parts: seq<string>)
    requires |parts| > 0
    ensures
      var front := parts[..|parts| - 1];
      && (WayClear(disk, destination, parts, |parts|) <==> WayClear(disk, destination, front, |front| + 1))
      && forall p :: OnWay(destination, parts, p) <==> OnWay(destination, front, p) || p == destination + parts
  {
    var front := parts[..|parts| - 1];
    assert forall k | 0 <= k <= |front| :: front[..k] == parts[..k];
    assert parts[..|parts|] == parts;
    forall p ensures OnWay(destination, parts, p) <==> OnWay(destination, front, p) || p == destination + parts {
      if OnWay(destination, front, p) {
        var k :| 0 <= k <= |front| && p == destination + front[..k];
        assert p == destination + parts[..k];
      }
      if OnWay(destination, parts, p) {
        var k :| 0 <= k <= |parts| && p == destination + parts[..k];
        assert k < |parts| ==> p == destination + front[..k];
      }
    }
  }

  /** The directories are made exactly if nothing else stands in their way, and nothing else changes. */
  lemma {:induction false} MakeDirsIff(disk: Disk, destination: Path, parts: seq<string>)
    ensures
      var made := MakeDirs(disk, destination, parts);
      && (made.done <==> WayClear(disk, destination, parts, |parts| + 1))
      && (made.done ==>
            && (forall p :: p in made.disk <==> p in disk || OnWay(destination, parts, p))
            && (forall p | p in made.disk :: made.disk[p] == if p in disk then disk[p] else Dir(DEFAULT)))
    decreases |parts|
  {
    assert parts[..|parts|] == parts;
    if |parts| == 0 {
      assert destination + parts == destination + parts[..0];
    } else {
      var front := parts[..|parts| - 1];
      MakeDirsIff(disk, destination, front);
      WayGrows(disk, destination, parts);
      assert WayClear(disk, destination, parts, |parts| + 1) <==>
             WayClear(disk, destination, front, |front| + 1)
             && (destination + parts in disk ==> disk[destination + parts].Dir?);
      NotYetMade(destination, parts);
    }
  }

  lemma NotYetMade(destination: Path, parts: seq<string>)
    requires |parts| > 0
    ensures !OnWay(destination, parts[..|parts| - 1], destination + parts)
  {
    var front := parts[..|parts| - 1];
    forall k | 0 <= k <= |front| ensures destination + front[..k] != destination + parts {
      assert |destination + front[..k]| < |destination + parts|;
    }
  }

  // ------------------------------------------------------------------ one member

  function Target(destination: Path, m: Member): Path {
    destination + Parts(m.name)
  }

  /** The disk has room for the member: directories on its way, and nothing of another kind at its target. */
  ghost predicate Clear(disk: Disk, destination: Path, m: Member) {
    && WayClear(disk, destination, Parts(m.name), |Parts(m.name)|)
    && (m.kind.FileMember? ==> Parts(m.name) != [])
    && (Target(destination, m) in disk ==>
          && (m.kind.DirMember? ==> disk[Target(destination, m)].Dir?)
          && (m.kind.FileMember? ==> disk[Target(destination, m)].File?))
  }

  /** The node that a member describes. */
  ghost predicate Describes(m: Member, node: Node) {
    match node
    case Dir(a) => m.kind.DirMember? && a == Attributes(m.mode % 512, 0, "")
    case File(a, content) => m.kind.FileMember? && a == Attributes(m.mode % 512, 0, "") && content == m.content
    case _ => false
  }

  /** What one placed member leaves. */
  ghost predicate Adds(disk: Disk, disk': Disk, destination: Path, m: Member) {
    && (forall p :: p in disk' <==> p in disk || OnWay(destination, Parts(m.name), p))
    && Target(destination, m) in disk' && Describes(m, disk'[Target(destination, m)])
    && (forall p | p in disk' && p != Target(destination, m) ::
          disk'[p] == if p in disk then disk[p] else Dir(DEFAULT))
  }

  lemma PlaceIff(disk: Disk, destination: Path, m: Member)
    requires !m.kind.OtherMember?
    ensures Place(disk, destination, m).done <==> Clear(disk, destination, m)
    ensures Place(disk, destination, m).done ==> Adds(disk, Place(disk, destination, m).disk, destination, m)
  {
    var parts := Parts(m.name);
    hide Parts, MakeDirs;
    if m.kind.DirMember? {
      MakeDirsIff(disk, destination, parts);
      assert parts[..|parts|] == parts && OnWay(destination, parts, destination + parts);
      assert WayClear(disk, destination, parts, |parts| + 1) <==> Clear(disk, destination, m);
      hide WayClear, OnWay;
    } else if |parts| > 0 {
      MakeDirsIff(disk, destination, parts[..|parts| - 1]);
      NotYetMade(destination, parts);
      WayGrows(disk, destination, parts);
      hide WayClear, OnWay;
    }
  }

  // ------------------------------------------------------------------ two members

  /** A file is not on the way to the other entry. */
  ghost predicate Apart(a: Member, b: Member) {
    && (a.kind.FileMember? ==> !(Parts(a.name) < Parts(b.name)))
    && (b.kind.FileMember? ==> !(Parts(b.name) < Parts(a.name)))
  }

  lemma PrefixOnWay(destination: Path, a: seq<string>, b: seq<string>)
    ensures OnWay(destination, b, destination + a) <==> a <= b
  {
    if a <= b { assert destination + a == destination + b[..|a|]; }
    if OnWay(destination, b, destination + a) {
      var k :| 0 <= k <= |b| && destination + a == destination + b[..k];
      assert a == (destination + a)[|destination|..] == (destination + b[..k])[|destination|..] == b[..k];
    }
  }

  /** After one member, there is room for another exactly if there was before, and the two are apart. */
  lemma ClearAfter(disk: Disk, disk': Disk, destination: Path, a: Member, b: Member)
    requires Clear(disk, destination, a) && Adds(disk, disk', destination, a)
    requires !a.kind.OtherMember? && !b.kind.OtherMember? && Parts(a.name) != Parts(b.name)
    ensures Clear(disk', destination, b) <==> Clear(disk, destination, b) && Apart(a, b)
  {
    var x, y := Parts(a.name), Parts(b.name);
    hide Parts;
    PrefixOnWay(destination, y, x);
    PrefixOnWay(destination, x, y);
    WayAfter(disk, disk', destination, a, y);
    assert Target(destination, a)[|destination|..] == x && Target(destination, b)[|destination|..] == y;
    TargetAfter(disk, disk', destination, a, b);
    hide WayClear, Adds;
  }

  lemma WayAfter(disk: Disk, disk': Disk, destination: Path, a: Member, parts: seq<string>)
    requires Clear(disk, destination, a) && Adds(disk, disk', destination, a) && !a.kind.OtherMember?
    ensures WayClear(disk', destination, parts, |parts|)
            <==> WayClear(disk, destination, parts, |parts|) && !(a.kind.FileMember? && Parts(a.name) < parts)
  {
    var x := Parts(a.name);
    hide Parts;
    forall k | 0 <= k < |parts|
      ensures destination + parts[..k] == destination + x <==> parts[..k] == x
    {
      assert (destination + parts[..k])[|destination|..] == parts[..k] && (destination + x)[|destination|..] == x;
    }
    if a.kind.FileMember? && x < parts {
      assert destination + parts[..|x|] == destination + x;
    }
  }

  lemma TargetAfter(disk: Disk, disk': Disk, destination: Path, a: Member, b: Member)
    requires Clear(disk, destination, a) && Adds(disk, disk', destination, a)
    requires Target(destination, a) != Target(destination, b)
    ensures Target(destination, b) in disk' <==>
            Target(destination, b) in disk || OnWay(destination, Parts(a.name), Target(destination, b))
    ensures Target(destination, b) in disk' ==>
              disk'[Target(destination, b)]
              == if Target(destination, b) in disk then disk[Target(destination, b)] else Dir(DEFAULT)
    ensures OnWay(destination, Parts(a.name), Target(destination, b)) && Target(destination, b) in disk ==>
              disk[Target(destination, b)].Dir?
  {
    var t := Target(destination, b);
    hide Parts;
    if OnWay(destination, Parts(a.name), t) && t in disk {
      var k :| 0 <= k <= |Parts(a.name)| && t == destination + Parts(a.name)[..k];
      assert Parts(a.name)[..|Parts(a.name)|] == Parts(a.name);
    }
  }

  // ------------------------------------------------------------------ all members

  ghost predicate AllClear(disk: Disk, destination: Path, members: seq<Member>) {
    forall m | m in members :: Clear(disk, destination, m)
  }

  ghost predicate AllApart(members: seq<Member>) {
    forall i, j | 0 <= i < j < |members| :: Apart(members[i], members[j])
  }

  /** The members fit the disk and each other, and the bytes that are left. */
  ghost predicate Extractable(disk: Disk, destination: Path, members: seq<Member>, names: set<string>, total: nat) {
    && DistinctNames(members, names)
    && total + TotalSize(members) <= 512 * 1024 * 1024
    && AllClear(disk, destination, members)
    && AllApart(members)
  }

  ghost predicate Acceptance(m: Member, names: set<string>, total: nat) {
    ValidName(m.name) && m.name !in names && !m.kind.OtherMember? && total + |m.content| <= 512 * 1024 * 1024
  }

  /** One member passes its checks and is placed exactly if it is acceptable and there is room. */
  lemma OneIff(disk: Disk, destination: Path, m: Member, names: set<string>, total: nat)
    ensures Acceptable(disk, destination, m, names, total) && Place(disk, destination, m).done
            <==> Acceptance(m, names, total) && Clear(disk, destination, m)
    ensures Acceptance(m, names, total) && Clear(disk, destination, m) ==>
              Adds(disk, Place(disk, destination, m).disk, destination, m)
    ensures Acceptance(m, names, total) ==> total + |m.content| <= 512 * 1024 * 1024
  {
    if !m.kind.OtherMember? {
      PlaceIff(disk, destination, m);
      assert Parts(m.name)[..|Parts(m.name)|] == Parts(m.name);
    }
    hide Place, Adds, ValidName, Parts;
  }

  lemma AllAfter(disk: Disk, disk': Disk, destination: Path, m: Member, rest: seq<Member>, names: set<string>)
    requires Clear(disk, destination, m) && Adds(disk, disk', destination, m)
    requires DistinctNames([m] + rest, names)
    ensures AllClear(disk', destination, rest) && AllApart(rest)
            <==> AllClear(disk, destination, [m] + rest) && AllApart([m] + rest)
  {
    var all := [m] + rest;
    assert all[0] == m && forall j | 0 <= j < |rest| :: all[j + 1] == rest[j];
    hide Adds, Clear, Apart, Parts, ValidName;
    forall j | 0 <= j < |rest|
      ensures Clear(disk', destination, rest[j]) <==> Clear(disk, destination, rest[j]) && Apart(m, rest[j])
    {
      assert m in all && rest[j] in all && all[0].name != all[j + 1].name;
      if Parts(m.name) == Parts(rest[j].name) { ValidNamesDiffer(m.name, rest[j].name); }
      ClearAfter(disk, disk', destination, m, rest[j]);
    }
    assert AllApart(all) <==> AllApart(rest) && forall j | 0 <= j < |rest| :: Apart(m, rest[j]);
  }

  lemma DistinctIff(m: Member, rest: seq<Member>, names: set<string>)
    ensures DistinctNames([m] + rest, names) <==>
            DistinctNames(rest, names + {m.name}) && m.name !in names && ValidName(m.name) && !m.kind.OtherMember?
  {
    hide ValidName;
    var all := [m] + rest;
    assert all[0] == m && forall j | 0 <= j < |rest| :: all[j + 1] == rest[j];
    if DistinctNames(rest, names + {m.name}) && m.name !in names && ValidName(m.name) && !m.kind.OtherMember? {
      DistinctCons(m, rest, names);
    }
    if DistinctNames(all, names) {
      forall x | x in rest ensures x.name !in names + {m.name} && ValidName(x.name) && !x.kind.OtherMember? {
        var j :| 0 <= j < |rest| && rest[j] == x;
        assert all[j + 1] in all && all[0].name != all[j + 1].name;
      }
      forall i, j | 0 <= i < j < |rest| ensures rest[i].name != rest[j].name {
        assert all[i + 1].name != all[j + 1].name;
      }
      assert m in all;
    }
  }

  lemma ExtractsCons(disk: Disk, destination: Path, members: seq<Member>, names: set<string>, total: nat)
    requires |members| > 0
    ensures
      var m := members[0];
      var placed := Place(disk, destination, m);
      ExtractFrom(disk, destination, members, names, total).fault.None?
      <==>
        && Acceptable(disk, destination, m, names, total) && placed.done
        && ExtractFrom(placed.disk, destination, members[1..], names + {m.name}, total + |m.content|).fault.None?
  {
    hide Acceptable, Place;
  }

  lemma ExtractableCons(disk: Disk, disk': Disk, destination: Path, m: Member, rest: seq<Member>, names: set<string>,
                        total: nat)
    requires Acceptance(m, names, total) && Clear(disk, destination, m) ==> Adds(disk, disk', destination, m)
    ensures Extractable(disk, destination, [m] + rest, names, total)
            <==>
              && Acceptance(m, names, total) && Clear(disk, destination, m)
              && Extractable(disk', destination, rest, names + {m.name}, total + |m.content|)
  {
    TotalSizeCons(m, rest);
    DistinctIff(m, rest, names);
    assert m in [m] + rest;
    hide Clear, Adds, ValidName, DistinctNames, TotalSize, AllApart;
    if Acceptance(m, names, total) && Clear(disk, destination, m) {
      if DistinctNames([m] + rest, names) { AllAfter(disk, disk', destination, m, rest, names); }
    }
  }

  lemma EmptyIff(disk: Disk, destination: Path, members: seq<Member>, names: set<string>, total: nat)
    requires |members| == 0 && total <= 512 * 1024 * 1024
    ensures ExtractFrom(disk, destination, members, names, total).fault.None?
    ensures Extractable(disk, destination, members, names, total)
  {
  }

  lemma {:induction false} MembersIff(disk: Disk, destination: Path, members: seq<Member>, names: set<string>,
                                      total: nat)
    requires total <= 512 * 1024 * 1024
    ensures ExtractFrom(disk, destination, members, names, total).fault.None?
            <==> Extractable(disk, destination, members, names, total)
    decreases |members|
  {
    hide *;
    if |members| == 0 {
      EmptyIff(disk, destination, members, names, total);
    } else {
      var m, rest := members[0], members[1..];
      var disk' := Place(disk, destination, m).disk;
      assert members == [m] + rest;
      OneIff(disk, destination, m, names, total);
      ExtractsCons(disk, destination, members, names, total);
      ExtractableCons(disk, disk', destination, m, rest, names, total);
      if Acceptance(m, names, total) && Clear(disk, destination, m) {
        MembersIff(disk', destination, rest, names + {m.name}, total + |m.content|);
      }
    }
  }

  // ------------------------------------------------------------------ what is left

  ghost predicate IsTarget(destination: Path, members: seq<Member>, p: Path) {
    exists m :: m in members && p == Target(destination, m)
  }

  ghost predicate OnSomeWay(destination: Path, members: seq<Member>, p: Path) {
    exists m :: m in members && OnWay(destination, Parts(m.name), p)
  }

  /**
   * Every member is at its target, with its permissions and content; on the ways to them new directories
   * were made; everything else is as before.
   */
  ghost predicate Leaves(disk: Disk, disk': Disk, destination: Path, members: seq<Member>) {
    && (forall m | m in members :: Target(destination, m) in disk' && Describes(m, disk'[Target(destination, m)]))
    && (forall p :: p in disk' <==> p in disk || OnSomeWay(destination, members, p))
    && (forall p | p in disk' && !IsTarget(destination, members, p) ::
          disk'[p] == if p in disk then disk[p] else Dir(DEFAULT))
  }

  lemma LeavesCons(disk: Disk, mid: Disk, disk': Disk, destination: Path, m: Member, rest: seq<Member>)
    requires Adds(disk, mid, destination, m) && Leaves(mid, disk', destination, rest)
    requires forall x | x in rest :: Target(destination, x) != Target(destination, m)
    ensures Leaves(disk, disk', destination, [m] + rest)
  {
    var all := [m] + rest;
    hide Parts, Describes;
    forall p ensures OnSomeWay(destination, all, p) <==>
                     OnSomeWay(destination, rest, p) || OnWay(destination, Parts(m.name), p)
    {
      assert m in all;
      if OnSomeWay(destination, rest, p) {
        var x :| x in rest && OnWay(destination, Parts(x.name), p);
        assert x in all;
      }
    }
    forall p ensures IsTarget(destination, all, p) <==>
                     IsTarget(destination, rest, p) || p == Target(destination, m)
    {
      assert m in all;
      if IsTarget(destination, rest, p) {
        var x :| x in rest && p == Target(destination, x);
        assert x in all;
      }
    }
    assert !IsTarget(destination, rest, Target(destination, m));
    hide OnSomeWay, OnWay, IsTarget;
    forall x | x in all ensures Target(destination, x) in disk' && Describes(x, disk'[Target(destination, x)]) {
      assert x == m || x in rest;
    }
  }

  lemma NoneLeaves(disk: Disk, destination: Path, members: seq<Member>, names: set<string>, total: nat)
    requires |members| == 0
    ensures Leaves(disk, ExtractFrom(disk, destination, members, names, total).disk, destination, members)
  {
    hide Parts;
    assert members == [];
  }

  lemma RestDisk(disk: Disk, destination: Path, members: seq<Member>, names: set<string>, total: nat)
    requires |members| > 0 && ExtractFrom(disk, destination, members, names, total).fault.None?
    ensures
      var m := members[0];
      var mid := Place(disk, destination, m).disk;
      var rest := ExtractFrom(mid, destination, members[1..], names + {m.name}, total + |m.content|);
      rest.fault.None? && ExtractFrom(disk, destination, members, names, total).disk == rest.disk
  {
    hide Acceptable, Place;
  }

  /** Distinct accepted names have distinct targets. */
  lemma TargetsDiffer(destination: Path, m: Member, rest: seq<Member>, names: set<string>)
    requires DistinctNames([m] + rest, names)
    ensures forall x | x in rest :: Target(destination, x) != Target(destination, m)
  {
    var all := [m] + rest;
    hide ValidName, Parts;
    forall x | x in rest ensures Target(destination, x) != Target(destination, m) {
      var j :| 0 <= j < |rest| && rest[j] == x;
      assert all[0] == m && all[j + 1] == x && m in all && x in all;
      if Parts(x.name) == Parts(m.name) { ValidNamesDiffer(x.name, m.name); }
      assert Target(destination, x)[|destination|..] == Parts(x.name);
      assert Target(destination, m)[|destination|..] == Parts(m.name);
    }
  }

  lemma {:induction false} MembersLeave(disk: Disk, destination: Path, members: seq<Member>, names: set<string>,
                                        total: nat)
    requires total <= 512 * 1024 * 1024
    requires ExtractFrom(disk, destination, members, names, total).fault.None?
    ensures Leaves(disk, ExtractFrom(disk, destination, members, names, total).disk, destination, members)
    decreases |members|
  {
    hide *;
    if |members| == 0 {
      NoneLeaves(disk, destination, members, names, total);
    } else {
      var m, rest := members[0], members[1..];
      var mid := Place(disk, destination, m).disk;
      assert members == [m] + rest;
      MembersIff(disk, destination, members, names, total);
      ExtractsCons(disk, destination, members, names, total);
      OneIff(disk, destination, m, names, total);
      RestDisk(disk, destination, members, names, total);
      MembersLeave(mid, destination, rest, names + {m.name}, total + |m.content|);
      ExtractableDistinct(disk, destination, members, names, total);
      TargetsDiffer(destination, m, rest, names);
      LeavesCons(disk, mid, ExtractFrom(disk, destination, members, names, total).disk, destination, m, rest);
    }
  }

  lemma ExtractableDistinct(disk: Disk, destination: Path, members: seq<Member>, names: set<string>, total: nat)
    requires Extractable(disk, destination, members, names, total)
    ensures DistinctNames(members, names)
  {
  }

  // ------------------------------------------------------------------ whole archives

  /** There is room below a destination that was made exactly if there was before. */
  lemma ClearBelow(disk: Disk, base: Disk, destination: Path, m: Member)
    requires forall p :: p in base <==> p in disk || p <= destination
    requires forall p | p in base :: base[p] == if p in disk then disk[p] else Dir(DEFAULT)
    requires destination in disk ==> disk[destination].Dir?
    ensures Clear(base, destination, m) <==> Clear(disk, destination, m)
  {
    var parts := Parts(m.name);
    hide Parts;
    assert destination + [] == destination;
    BelowIsSame(disk, base, destination, parts);
    forall k | 0 <= k <= |parts| {
      BelowIsSame(disk, base, destination, parts[..k]);
    }
  }

  lemma BelowIsSame(disk: Disk, base: Disk, destination: Path, q: seq<string>)
    requires forall p :: p in base <==> p in disk || p <= destination
    requires forall p | p in base :: base[p] == if p in disk then disk[p] else Dir(DEFAULT)
    ensures destination + q in disk ==> destination + q in base && base[destination + q] == disk[destination + q]
    ensures destination + q in base && destination + q !in disk ==> q == [] && base[destination + q].Dir?
  {
    if destination + q <= destination {
      assert |destination + q| <= |destination|;
    }
  }

  lemma MadeIff(disk: Disk, destination: Path)
    ensures
      var made := WithDestination(disk, destination);
      && (made.done <==> forall k | 0 <= k <= |destination| && destination[..k] in disk :: disk[destination[..k]].Dir?)
      && (made.done ==>
            && (forall p :: p in made.disk <==> p in disk || p <= destination)
            && (forall p | p in made.disk :: made.disk[p] == if p in disk then disk[p] else Dir(DEFAULT)))
  {
    MakeDirsIff(disk, [], destination);
    assert forall k | 0 <= k <= |destination| :: [] + destination[..k] == destination[..k];
    forall p ensures OnWay([], destination, p) <==> p <= destination {
      PrefixOnWay([], p, destination);
      assert [] + p == p;
    }
  }

  /**
   * For every disk and every member list: extraction succeeds exactly if the archive is within its limits, the
   * destination is a directory or can be made, all names are acceptable and different, all members are files
   * or directories, nothing of another kind or on the way stands where they go, and no file is on the way to
   * another member. Then every member is where its name says, with its permissions and content, the
   * directories on the ways to them exist, and everything else is as before.
   */
  lemma ExtractSucceedsIff(disk: Disk, destination: Path, tar: Tar)
    ensures
      var r := Extract(disk, destination, tar);
      && (r.fault.None?
          <==>
            && Size(tar) <= 64 * 1024 * 1024
            && (forall k | 0 <= k <= |destination| && destination[..k] in disk :: disk[destination[..k]].Dir?)
            && |tar.members| <= 10_000
            && Extractable(disk, destination, tar.members, {}, 0))
      && (r.fault.None? ==> Leaves(WithDestination(disk, destination).disk, r.disk, destination, tar.members))
  {
    assert destination[..|destination|] == destination;
    MadeIff(disk, destination);
    hide Clear, DistinctNames, WithDestination, ExtractFrom, TotalSize, Leaves, AllApart;
    var made := WithDestination(disk, destination);
    if made.done {
      forall m ensures Clear(made.disk, destination, m) <==> Clear(disk, destination, m) {
        ClearBelow(disk, made.disk, destination, m);
      }
      MembersIff(made.disk, destination, tar.members, {}, 0);
      if ExtractFrom(made.disk, destination, tar.members, {}, 0).fault.None? {
        MembersLeave(made.disk, destination, tar.members, {}, 0);
      }
    }
  }
}
