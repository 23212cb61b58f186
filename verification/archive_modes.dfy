/** What an archive keeps of each entry, stated on modes and bits, and that it keeps nothing else. */
module ArchiveModes {
  import opened Models
  import opened Strings
  import opened PosixPaths
  import opened Archives
  import opened ArchiveLaws
  import RoundTrips = ArchiveRoundTrip

  // ------------------------------------------------------------------ permission bits

  /** (mode >> k) & 1 */
  function Bit(mode: nat, k: nat): nat {
    if k == 0 then mode % 2 else Bit(mode / 2, k - 1)
  }

  function PowerOfTwo(n: nat): nat {
    if n == 0 then 1 else 2 * PowerOfTwo(n - 1)
  }

  lemma Multiple(d: nat, k: int)
    requires d > 0
    ensures k >= 1 ==> d * k >= d
    ensures k <= -1 ==> d * k + d <= 0
  {
    if k <= -1 { assert d * (-k) >= d; }
  }

  lemma Remainder(m: nat, d: nat, q: nat, r: nat)
    requires m == d * q + r && r < d
    ensures m % d == r
  {
    var q' := m / d;
    assert m == d * q' + m % d;
    assert d * (q' - q) == d * q' - d * q;
    Multiple(d, q' - q);
  }

  /** The lowest bit, and the others. */
  lemma Half(m: nat, w: nat)
    requires w > 0
    ensures m % (2 * w) == 2 * (m / 2 % w) + m % 2
  {
    var half := m / 2;
    assert half == w * (half / w) + half % w;
    assert m == 2 * w * (half / w) + (2 * (half % w) + m % 2);
    Remainder(m, 2 * w, half / w, 2 * (half % w) + m % 2);
  }

  /** The n lowest bits agree. */
  predicate SameLow(a: nat, b: nat, n: nat) {
    n == 0 || (a % 2 == b % 2 && SameLow(a / 2, b / 2, n - 1))
  }

  lemma {:induction false} SameLowIff(a: nat, b: nat, n: nat)
    ensures PowerOfTwo(n) > 0
    ensures a % PowerOfTwo(n) == b % PowerOfTwo(n) <==> SameLow(a, b, n)
  {
    if n > 0 {
      var w := PowerOfTwo(n - 1);
      SameLowIff(a / 2, b / 2, n - 1);
      Half(a, w);
      Half(b, w);
    }
  }

  ghost predicate BitsAgree(a: nat, b: nat, n: nat) {
    forall k: nat | k < n :: Bit(a, k) == Bit(b, k)
  }

  lemma {:induction false} SameLowBits(a: nat, b: nat, n: nat)
    ensures SameLow(a, b, n) <==> BitsAgree(a, b, n)
  {
    if n > 0 {
      SameLowBits(a / 2, b / 2, n - 1);
      if SameLow(a, b, n) {
        forall k: nat | k < n ensures Bit(a, k) == Bit(b, k) {
          if k > 0 { assert Bit(a / 2, k - 1) == Bit(b / 2, k - 1); }
        }
      }
      if BitsAgree(a, b, n) {
        assert a % 2 == b % 2 by { assert Bit(a, 0) == Bit(b, 0); }
        forall k: nat | k < n - 1 ensures Bit(a / 2, k) == Bit(b / 2, k) {
          assert Bit(a, k + 1) == Bit(b, k + 1);
        }
        assert BitsAgree(a / 2, b / 2, n - 1);
      }
    }
  }

  /** The nine permission bits, 0o777. */
  ghost predicate SameBits(a: nat, b: nat) {
    BitsAgree(a, b, 9)
  }

  lemma BitsIff(a: nat, b: nat)
    ensures Permissions(a) == Permissions(b) <==> SameBits(a, b)
  {
    assert PowerOfTwo(3) == 8;
    assert PowerOfTwo(6) == 64;
    assert PowerOfTwo(9) == 512;
    SameLowIff(a, b, 9);
    SameLowBits(a, b, 9);
    hide SameLow, BitsAgree;
  }

  // ------------------------------------------------------------------ what comes back

  /** The kind, the content and the nine permission bits of an entry; every other bit is dropped. */
  ghost predicate ComesBack(node: Node, restored: Node) {
    && (node.Dir? || node.File?)
    && restored.Dir? == node.Dir? && restored.File? == node.File?
    && (node.File? ==> restored.content == node.content)
    && restored.attributes.mode < 512
    && SameBits(restored.attributes.mode, node.attributes.mode)
    && (node.attributes.mode < 512 ==> restored.attributes.mode == node.attributes.mode)
  }

  /** Every entry of an archived directory comes back with its kind, content and permission bits. */
  lemma EntriesComeBack(tree: Disk, headers: nat, disk: Disk, destination: Path, p: Path)
    requires WellFormed(tree) && Create(tree, headers).Ok? && RoundTrips.EmptyDestination(disk, destination)
    requires p in tree
    ensures
      var r := Extract(disk, destination, Create(tree, headers).value);
      r.fault.None? && destination + p in r.disk && ComesBack(tree[p], r.disk[destination + p])
  {
    hide WellFormed, Create, Extract, SameBits, RoundTrips.EmptyDestination;
    RoundTrips.RoundTrip(tree, headers, disk, destination);
    CreateSucceedsIff(tree, headers);
    assert Archivable(tree, p);
    hide ValidName;
    RestoredComesBack(tree[p]);
  }

  lemma RestoredComesBack(node: Node)
    requires node.Dir? || node.File?
    ensures ComesBack(node, RoundTrips.Restored(node))
  {
    BitsIff(Permissions(node.attributes.mode), node.attributes.mode);
    hide SameBits;
  }

  // ------------------------------------------------------------------ what an archive determines

  /** The same entries with the same kinds, contents and permission bits. */
  ghost predicate SameEntries(tree: Disk, tree': Disk) {
    && tree.Keys == tree'.Keys
    && forall p | p in tree ::
         && tree[p].Dir? == tree'[p].Dir? && tree[p].File? == tree'[p].File?
         && (tree[p].Dir? ==> SameBits(tree[p].attributes.mode, tree'[p].attributes.mode))
         && (tree[p].File? ==> tree'[p].content == tree[p].content
                               && SameBits(tree[p].attributes.mode, tree'[p].attributes.mode))
  }

  lemma MemberTells(name: string, node: Node, node': Node)
    requires MemberFor(name, node).Ok? && MemberFor(name, node) == MemberFor(name, node')
    ensures node.Dir? == node'.Dir? && node.File? == node'.File? && (node.Dir? || node.File?)
    ensures SameBits(node.attributes.mode, node'.attributes.mode) && (node.File? ==> node.content == node'.content)
  {
    BitsIff(node.attributes.mode, node'.attributes.mode);
    hide ValidName, SameBits;
  }

  lemma NamesTell(tree: Disk, tree': Disk)
    requires WellFormed(tree) && WellFormed(tree') && Names(tree) == Names(tree')
    ensures tree.Keys == tree'.Keys
  {
    NamesSplit(tree);
    NamesSplit(tree');
    forall p ensures p in tree <==> p in tree' {
      if p in tree { assert Join(p) in Names(tree'); }
      if p in tree' { assert Join(p) in Names(tree); }
    }
  }

  lemma ListingTells(tree: Disk, tree': Disk, headers: nat)
    requires WellFormed(tree) && WellFormed(tree')
    requires Create(tree, headers).Ok? && Create(tree', headers) == Create(tree, headers)
    ensures Listing(tree) == Listing(tree')
    ensures forall i | 0 <= i < |Listing(tree)| ::
              Split(Listing(tree)[i]) in tree && Split(Listing(tree)[i]) in tree'
    ensures forall i | 0 <= i < |Listing(tree)| ::
              var name := Listing(tree)[i];
              && MemberFor(name, tree[Split(name)]).Ok?
              && MemberFor(name, tree[Split(name)]) == MemberFor(name, tree'[Split(name)])
  {
    hide ValidName, WellFormed, Split, Names, Listing, Create, MemberFor;
    CreatedMembers(tree, headers);
    CreatedMembers(tree', headers);
    assert Listing(tree) == Listing(tree');
  }

  lemma CreatedMembers(tree: Disk, headers: nat)
    requires WellFormed(tree) && Create(tree, headers).Ok?
    ensures |Create(tree, headers).value.members| == |Listing(tree)|
    ensures forall i | 0 <= i < |Listing(tree)| ::
              var name := Listing(tree)[i];
              && Split(name) in tree
              && MemberFor(name, tree[Split(name)]) == Ok(Create(tree, headers).value.members[i])
              && Create(tree, headers).value.members[i].name == name
  {
    CreateIs(tree, headers);
    hide *;
    var names, members := Listing(tree), Create(tree, headers).value.members;
    MembersForEach(tree, names);
    forall i | 0 <= i < |names|
      ensures Split(names[i]) in tree
      ensures MemberFor(names[i], tree[Split(names[i])]) == Ok(members[i]) && members[i].name == names[i]
    {
      assert names[i] in names;
      MemberIsNamed(names[i], tree[Split(names[i])]);
    }
  }

  lemma MemberIsNamed(name: string, node: Node)
    ensures MemberFor(name, node).Ok? ==> MemberFor(name, node).value.name == name
  {
    hide ValidName;
  }

  lemma CreateIs(tree: Disk, headers: nat)
    requires WellFormed(tree) && Create(tree, headers).Ok?
    ensures forall name | name in Listing(tree) :: Split(name) in tree
    ensures MembersFor(tree, Listing(tree)) == Ok(Create(tree, headers).value.members)
  {
    NamesSplit(tree);
    hide ValidName, WellFormed, Split, Names, MembersFor, TotalSize;
  }

  /** Two directories have one archive exactly if they differ in times, owners and the other mode bits only. */
  lemma SameArchiveIff(tree: Disk, tree': Disk, headers: nat)
    requires WellFormed(tree) && WellFormed(tree') && Create(tree, headers).Ok?
    ensures Create(tree', headers) == Create(tree, headers) <==> SameEntries(tree, tree')
  {
    if SameEntries(tree, tree') {
      EntriesSuffice(tree, tree', headers);
    }
    if Create(tree', headers) == Create(tree, headers) {
      ListingTells(tree, tree', headers);
      NamesAre(tree);
      NamesAre(tree');
      NamesTell(tree, tree');
      NamesSplit(tree);
      hide WellFormed, Create, Names, MemberFor, SameBits, Join, Split;
      forall p | p in tree
        ensures tree[p].Dir? == tree'[p].Dir? && tree[p].File? == tree'[p].File? && (tree[p].Dir? || tree[p].File?)
        ensures SameBits(tree[p].attributes.mode, tree'[p].attributes.mode)
        ensures tree[p].File? ==> tree'[p].content == tree[p].content
      {
        ListedAt(tree, p);
        var i :| 0 <= i < |Listing(tree)| && Listing(tree)[i] == Join(p);
        MemberTells(Join(p), tree[p], tree'[p]);
      }
    }
  }

  lemma NamesAre(tree: Disk)
    ensures Names(tree) == set name | name in Listing(tree)
  {
  }

  lemma ListedAt(tree: Disk, p: Path)
    requires p in tree
    ensures exists i :: 0 <= i < |Listing(tree)| && Listing(tree)[i] == Join(p)
  {
    assert Join(p) in Names(tree);
    assert Join(p) in Listing(tree);
  }

  lemma EntriesSuffice(tree: Disk, tree': Disk, headers: nat)
    requires WellFormed(tree) && WellFormed(tree') && Create(tree, headers).Ok? && SameEntries(tree, tree')
    ensures Create(tree', headers) == Create(tree, headers)
  {
    CreateSucceedsIff(tree, headers);
    forall p | p in tree
      ensures tree[p].Dir? || tree[p].File?
      ensures Permissions(tree'[p].attributes.mode) == Permissions(tree[p].attributes.mode)
    {
      assert Archivable(tree, p);
      BitsIff(tree'[p].attributes.mode, tree[p].attributes.mode);
    }
    hide WellFormed, Create, Archivable, Permissions;
    MetadataIsIgnored(tree, tree', headers);
  }
}
