/** Relative POSIX paths as the archive names its members. */
module PosixPaths {

  /** s.split("/") */
  function Split(s: string): (parts: seq<string>)
    ensures |parts| > 0
  {
    if |s| == 0 then [""]
    else
      var rest := Split(s[1..]);
      if s[0] == '/' then [""] + rest else [[s[0]] + rest[0]] + rest[1..]
  }

  /** "/".join(parts) */
  function Join(parts: seq<string>): string {
    if |parts| == 0 then ""
    else if |parts| == 1 then parts[0]
    else parts[0] + "/" + Join(parts[1..])
  }

  /** What a pure path drops: empty components and single dots. */
  function Kept(parts: seq<string>): seq<string> {
    if |parts| == 0 then []
    else (if parts[0] == "" || parts[0] == "." then [] else [parts[0]]) + Kept(parts[1..])
  }

  predicate IsAbsolute(s: string) {
    |s| > 0 && s[0] == '/'
  }

  function Root(s: string): string {
    if !IsAbsolute(s) then ""
    else if |s| >= 2 && s[1] == '/' && (|s| == 2 || s[2] != '/') then "//"
    else "/"
  }

  function Parts(s: string): seq<string> {
    Kept(Split(s))
  }

  function AsPosix(s: string): string {
    if !IsAbsolute(s) && Parts(s) == [] then "." else Root(s) + Join(Parts(s))
  }

  const MAX_PATH_LENGTH := 240

  /** The check that create and extract make of every name. */
  predicate ValidName(s: string) {
    && s != ""
    && |s| <= MAX_PATH_LENGTH
    && '\0' !in s
    && '\\' !in s
    && !IsAbsolute(s)
    && ".." !in Parts(s)
    && "." !in Parts(s)
    && AsPosix(s) == s
  }

  predicate Proper(part: string) {
    part != "" && part != "." && part != ".."
  }

  // ------------------------------------------------------------------ splitting and joining

  lemma {:induction false} JoinSplit(s: string)
    ensures Join(Split(s)) == s
  {
    if |s| > 0 {
      JoinSplit(s[1..]);
      var rest := Split(s[1..]);
      if s[0] == '/' {
        assert ([""] + rest)[1..] == rest;
      } else {
        var parts := [[s[0]] + rest[0]] + rest[1..];
        assert parts[1..] == rest[1..];
        assert Join(parts) == [s[0]] + Join(rest);
      }
    }
  }

  lemma {:induction false} SplitWhole(a: string)
    requires '/' !in a
    ensures Split(a) == [a]
  {
    if |a| > 0 {
      SplitWhole(a[1..]);
      assert [a[0]] + a[1..] == a;
    }
  }

  lemma {:induction false} SplitFirst(a: string, s: string)
    requires '/' !in a
    ensures Split(a + "/" + s) == [a] + Split(s)
  {
    if |a| == 0 {
      assert (a + "/" + s)[1..] == s;
    } else {
      var whole := a + "/" + s;
      assert whole[1..] == a[1..] + "/" + s && whole[0] == a[0];
      SplitFirst(a[1..], s);
      assert [a[0]] + a[1..] == a;
      assert ([a[1..]] + Split(s))[1..] == Split(s);
    }
  }

  /** Components without a slash survive joining and splitting. */
  lemma {:induction false} SplitJoin(parts: seq<string>)
    requires |parts| > 0 && forall part | part in parts :: '/' !in part
    ensures Split(Join(parts)) == parts
  {
    if |parts| == 1 {
      SplitWhole(parts[0]);
    } else {
      SplitFirst(parts[0], Join(parts[1..]));
      SplitJoin(parts[1..]);
    }
  }

  lemma {:induction false} SplitClean(s: string)
    ensures forall part | part in Split(s) :: '/' !in part
  {
    if |s| > 0 {
      SplitClean(s[1..]);
      var rest := Split(s[1..]);
      assert rest[0] in rest;
    }
  }

  // ------------------------------------------------------------------ which names are accepted

  function Letters(parts: seq<string>): nat {
    if |parts| == 0 then 0 else |parts[0]| + Letters(parts[1..])
  }

  lemma {:induction false} JoinLength(parts: seq<string>)
    requires |parts| > 0
    ensures |Join(parts)| == Letters(parts) + |parts| - 1
  {
    if |parts| > 1 {
      JoinLength(parts[1..]);
    }
  }

  lemma {:induction false} KeptShorter(parts: seq<string>)
    ensures Letters(Kept(parts)) <= Letters(parts) && |Kept(parts)| <= |parts|
    ensures |Kept(parts)| == |parts| ==> Kept(parts) == parts
    ensures |Kept(parts)| == |parts| <==> forall part | part in parts :: part != "" && part != "."
  {
    if |parts| > 0 {
      var rest := Kept(parts[1..]);
      KeptShorter(parts[1..]);
      assert parts == [parts[0]] + parts[1..];
      assert ([parts[0]] + rest)[1..] == rest;
      assert forall part :: part in parts <==> part == parts[0] || part in parts[1..];
      if parts[0] == "" || parts[0] == "." {
        assert Kept(parts) == rest && parts[0] in parts;
      } else {
        assert Kept(parts) == [parts[0]] + rest;
      }
    }
  }

  lemma {:induction false} KeptHasNoDot(parts: seq<string>)
    ensures "." !in Kept(parts) && (".." in Kept(parts) <==> ".." in parts)
  {
    if |parts| > 0 {
      KeptHasNoDot(parts[1..]);
      assert parts == [parts[0]] + parts[1..];
    }
  }

  lemma AbsoluteSplits(s: string)
    ensures IsAbsolute(s) ==> Split(s)[0] == ""
    ensures s == "" ==> Split(s)[0] == ""
  {
  }

  lemma ProperIsKept(s: string)
    requires forall part | part in Split(s) :: Proper(part)
    ensures s != "" && !IsAbsolute(s) && Parts(s) == Split(s) && AsPosix(s) == s
  {
    KeptShorter(Split(s));
    AbsoluteSplits(s);
    JoinSplit(s);
    assert Split(s)[0] in Split(s);
  }

  lemma KeptIsProper(s: string)
    requires !IsAbsolute(s) && AsPosix(s) == s && ".." !in Parts(s) && s != "."
    ensures forall part | part in Split(s) :: Proper(part)
  {
    JoinSplit(s);
    JoinLength(Split(s));
    JoinLength(Parts(s));
    KeptShorter(Split(s));
    KeptHasNoDot(Split(s));
  }

  /**
   * Besides the length and the two forbidden characters, an accepted name is a sequence of proper
   * components, or the single name ".".
   */
  lemma ValidNameIff(s: string)
    ensures
      ValidName(s)
      <==> && |s| <= 240 && '\0' !in s && '\\' !in s
           && (s == "." || forall part | part in Split(s) :: Proper(part))
  {
    KeptHasNoDot(Split(s));
    if s == "." {
      DotIsValid();
    } else if ValidName(s) {
      KeptIsProper(s);
    } else if forall part | part in Split(s) :: Proper(part) {
      ProperIsKept(s);
    }
  }

  lemma DotIsValid()
    ensures ValidName(".") && Parts(".") == []
  {
    SplitWhole(".");
  }

  /** Different accepted names have different components, so they name different files. */
  lemma ValidNamesDiffer(s: string, t: string)
    requires ValidName(s) && ValidName(t) && Parts(s) == Parts(t)
    ensures s == t
  {
  }
}
