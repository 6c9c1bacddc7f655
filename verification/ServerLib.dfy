/**
 The server's handlers over a directory tree whose entries readdir yields in any order: the scans for the oldest
 directory and the lowest point cloud, the answer to SEND_NEXT, and the removals.
 */
module ServerLib {
  import opened Basics
  import opened Archive
  import opened Text
  import opened Timestamps
  import opened Wire

  // ---------- listings ----------

  predicate Hidden(name: string) {
    StartsWith(name, ".")
  }

  predicate IsDirEntry(name: string) { !Hidden(name) }

  predicate IsCloudEntry(name: string) { name != "data.csv" && !Hidden(name) }

  /** The scans leave out what begins with a dot, so "." and "..", and nothing else but data.csv. */
  lemma EntriesIff(name: string)
    ensures IsDirEntry(name) <==> name == "" || name[0] != '.'
    ensures IsCloudEntry(name) <==> (name == "" || name[0] != '.') && name != "data.csv"
  {
  }

  predicate NoDup(s: seq<string>) {
    forall i, j | 0 <= i < j < |s| :: s[i] != s[j]
  }

  function Select(s: seq<string>, p: string -> bool): (r: seq<string>) {
    if s == [] then [] else (if p(s[0]) then [s[0]] else []) + Select(s[1..], p)
  }

  lemma {:induction false} SelectIn(s: seq<string>, p: string -> bool, x: string)
    ensures x in Select(s, p) <==> x in s && p(x)
  {
    if s != [] {
      SelectIn(s[1..], p, x);
      assert s == [s[0]] + s[1..];
    }
  }

  lemma {:induction false} SelectNoDup(s: seq<string>, p: string -> bool)
    requires NoDup(s)
    ensures NoDup(Select(s, p))
  {
    if s != [] {
      SelectNoDup(s[1..], p);
      SelectIn(s[1..], p, s[0]);
      assert s[0] !in s[1..];
    }
  }

  lemma {:induction false} SelectSnoc(s: seq<string>, x: string, p: string -> bool)
    ensures Select(s + [x], p) == Select(s, p) + (if p(x) then [x] else [])
  {
    var t := s + [x];
    if s == [] {
      assert t == [x] && t[1..] == [];
    } else {
      SelectSnoc(s[1..], x, p);
      assert t[0] == s[0] && t[1..] == s[1..] + [x];
    }
  }

  /** What readdir may yield for the data directory: each session once, in any order, among hidden entries. */
  ghost predicate IsRootListing(order: seq<string>, t: Tree) {
    && NoDup(order)
    && (forall name | name in order && IsDirEntry(name) :: IsStamp(name) && StringToTime(name) in t)
    && (forall d | d in t :: exists name :: name in order && IsDirEntry(name) && StringToTime(name) == d)
  }

  /** What readdir may yield for the directory of the point clouds: each of them once, in any order, among hidden
      entries and data.csv. */
  ghost predicate IsTofListing(order: seq<string>, dir: Dir) {
    && NoDup(order)
    && (forall name | name in order && IsCloudEntry(name) :: exists n :: n in dir.files.clouds && name == CloudName(n))
    && (forall n | n in dir.files.clouds :: CloudName(n) in order)
  }

  lemma {:induction false} ImageSize(names: seq<string>, f: string -> int, image: set<int>)
    requires forall i, j | 0 <= i < j < |names| :: f(names[i]) != f(names[j])
    requires forall v :: v in image <==> exists i :: 0 <= i < |names| && f(names[i]) == v
    ensures |names| == |image|
  {
    if names == [] {
      assert forall v :: v !in image;
    } else {
      var k := |names| - 1;
      forall v ensures v in image - {f(names[k])} <==> exists i :: 0 <= i < |names[..k]| && f(names[..k][i]) == v {
        if v in image - {f(names[k])} {
          var i :| 0 <= i < |names| && f(names[i]) == v;
          assert names[..k][i] == names[i];
        }
      }
      ImageSize(names[..k], f, image - {f(names[k])});
    }
  }

  // ---------- scans ----------

  /** What ExtractFileNumber returns: the number in a point cloud's name or, for a name without one, whatever its
      variable happens to hold. */
  function NumberIn(name: string, stale: string -> int): int {
    match ExtractFileNumber(name)
    case Some(n) => n
    case None => stale(name)
  }

  /** FindFirstDir: how many entries, and those with the least and greatest time. */
  method FindFirstDir(order: seq<string>) returns (count: nat, first: string, last: string)
    ensures count == |Select(order, IsDirEntry)|
    ensures count > 0 ==>
              && first in order && IsDirEntry(first)
              && last in order && IsDirEntry(last)
              && forall name | name in order && IsDirEntry(name) ::
                   StringToTime(first) <= StringToTime(name) <= StringToTime(last)
    ensures count == 0 ==> forall name | name in order :: Hidden(name)
  {
    hide StringToTime;
    count, first, last := 0, "", "";
    var tsFirst, tsLast := -1, -1;
    for i := 0 to |order|
      invariant count == |Select(order[..i], IsDirEntry)|
      invariant count == 0 ==> forall name | name in order[..i] :: Hidden(name)
      invariant count > 0 ==>
                  && first in order && IsDirEntry(first) && tsFirst == StringToTime(first)
                  && last in order && IsDirEntry(last) && tsLast == StringToTime(last)
                  && forall name | name in order[..i] && IsDirEntry(name) :: tsFirst <= StringToTime(name) <= tsLast
    {
      var name := order[i];
      assert order[..i + 1] == order[..i] + [name];
      SelectSnoc(order[..i], name, IsDirEntry);
      if !Hidden(name) {
        if count == 0 {
          tsFirst := StringToTime(name);
          first := name;
          tsLast := tsFirst;
          last := name;
        } else {
          var ts := StringToTime(name);
          if ts < tsFirst {
            tsFirst := ts;
            first := name;
          }
          if ts > tsLast {
            tsLast := ts;
            last := name;
          }
        }
        count := count + 1;
      }
    }
    assert order[..|order|] == order;
  }

  /** FindNextFile: how many point clouds, and the least and greatest number. */
  method FindNextFile(order: seq<string>, stale: string -> int) returns (count: nat, first: int, last: int)
    ensures count == |Select(order, IsCloudEntry)|
    ensures count > 0 ==>
              && (exists name :: name in order && IsCloudEntry(name) && NumberIn(name, stale) == first)
              && (exists name :: name in order && IsCloudEntry(name) && NumberIn(name, stale) == last)
              && forall name | name in order && IsCloudEntry(name) :: first <= NumberIn(name, stale) <= last
    ensures count == 0 ==> forall name | name in order :: !IsCloudEntry(name)
  {
    hide ExtractFileNumber, NumberIn, Hidden;
    count, first, last := 0, 0, 0;
    for i := 0 to |order|
      invariant count == |Select(order[..i], IsCloudEntry)|
      invariant count == 0 ==> forall name | name in order[..i] :: !IsCloudEntry(name)
      invariant count > 0 ==>
                  && (exists name :: name in order && IsCloudEntry(name) && NumberIn(name, stale) == first)
                  && (exists name :: name in order && IsCloudEntry(name) && NumberIn(name, stale) == last)
                  && forall name | name in order[..i] && IsCloudEntry(name) :: first <= NumberIn(name, stale) <= last
    {
      var name := order[i];
      assert order[..i + 1] == order[..i] + [name];
      SelectSnoc(order[..i], name, IsCloudEntry);
      if name != "data.csv" && !Hidden(name) {
        var n := NumberIn(name, stale);
        if count == 0 {
          first := n;
          last := n;
        } else {
          if n < first {
            first := n;
          }
          if n > last {
            last := n;
          }
        }
        count := count + 1;
      }
    }
    assert order[..|order|] == order;
  }

  // ---------- what the scans mean for the tree ----------

  lemma RootScanFindsOldest(order: seq<string>, t: Tree, first: string)
    requires IsRootListing(order, t)
    requires first in order && IsDirEntry(first)
    requires forall name | name in order && IsDirEntry(name) :: StringToTime(first) <= StringToTime(name)
    ensures IsOldest(t, StringToTime(first))
  {
    forall e | e in t ensures StringToTime(first) <= e {
      var name :| name in order && IsDirEntry(name) && StringToTime(name) == e;
    }
  }

  /** Choosing by decoded time is choosing by name, which the code's comments speak of. */
  lemma OldestHasLeastName(order: seq<string>, t: Tree, first: string)
    requires IsRootListing(order, t) && first in order && IsDirEntry(first)
    ensures (forall name | name in order && IsDirEntry(name) :: StringToTime(first) <= StringToTime(name)) <==>
            (forall name | name in order && IsDirEntry(name) && name != first :: NameLess(first, name))
  {
    hide StringToTime, NameLess, IsDate, DateOf;
    forall name | name in order && IsDirEntry(name)
      ensures StringToTime(first) <= StringToTime(name) <==> name == first || NameLess(first, name)
    {
      TimeOrderIsNameOrder(first, name);
      TimeOrderIsNameOrder(name, first);
    }
  }

  lemma RootScanCounts(order: seq<string>, t: Tree)
    requires IsRootListing(order, t)
    ensures |Select(order, IsDirEntry)| == |t|
  {
    var names := Select(order, IsDirEntry);
    SelectNoDup(order, IsDirEntry);
    forall name ensures name in names <==> name in order && IsDirEntry(name) {
      SelectIn(order, IsDirEntry, name);
    }
    forall i, j | 0 <= i < j < |names| ensures StringToTime(names[i]) != StringToTime(names[j]) {
      assert names[i] in names && names[j] in names;
      TimeOrderIsNameOrder(names[i], names[j]);
    }
    var stamps := t.Keys;
    forall v ensures v in stamps <==> exists i :: 0 <= i < |names| && StringToTime(names[i]) == v {
      if v in t {
        var name :| name in order && IsDirEntry(name) && StringToTime(name) == v;
        assert name in names;
      }
      if i :| 0 <= i < |names| && StringToTime(names[i]) == v {
        assert names[i] in names;
      }
    }
    ImageSize(names, StringToTime, stamps);
    assert |t| == |stamps|;
  }

  lemma CloudNameShape(digits: string)
    requires digits != ""
    ensures IsCloudEntry("data_" + digits + ".pcd")
  {
    var name := "data_" + digits + ".pcd";
    assert name[0] == 'd' && name[4] == '_' && "data.csv"[4] == '.' && "."[0] == '.';
  }

  lemma CloudEntry(n: nat, stale: string -> int)
    ensures IsCloudEntry(CloudName(n)) && NumberIn(CloudName(n), stale) == n
    ensures ExtractFileNumber(CloudName(n)) == Some(n)
  {
    ExtractsNumber(n);
    CloudNameShape(PrintInt(n));
  }

  lemma TofEntries(order: seq<string>, dir: Dir, stale: string -> int)
    requires IsTofListing(order, dir)
    ensures forall name | name in order && IsCloudEntry(name) ::
              ExtractFileNumber(name).Some? && NumberIn(name, stale) >= 0
              && NumberIn(name, stale) in dir.files.clouds && name == CloudName(NumberIn(name, stale))
    ensures forall n | n in dir.files.clouds :: exists name ::
              name in order && IsCloudEntry(name) && NumberIn(name, stale) == n
  {
    forall name | name in order && IsCloudEntry(name)
      ensures ExtractFileNumber(name).Some? && NumberIn(name, stale) >= 0
              && NumberIn(name, stale) in dir.files.clouds && name == CloudName(NumberIn(name, stale))
    {
      var n :| n in dir.files.clouds && name == CloudName(n);
      CloudEntry(n, stale);
    }
    forall n | n in dir.files.clouds ensures exists name ::
        name in order && IsCloudEntry(name) && NumberIn(name, stale) == n {
      CloudEntry(n, stale);
      assert CloudName(n) in order;
    }
  }

  lemma TofScanCounts(order: seq<string>, dir: Dir)
    requires IsTofListing(order, dir)
    ensures |Select(order, IsCloudEntry)| == |dir.files.clouds|
  {
    hide ExtractFileNumber, NumberIn, IsCloudEntry, CloudName, Select;
    var names, numbers := Select(order, IsCloudEntry), dir.files.clouds.Keys;
    SelectNoDup(order, IsCloudEntry);
    var stale: string -> int := _ => 0;
    TofEntries(order, dir, stale);
    forall name ensures name in names <==> name in order && IsCloudEntry(name) {
      SelectIn(order, IsCloudEntry, name);
    }
    forall i, j | 0 <= i < j < |names| ensures NumberIn(names[i], stale) != NumberIn(names[j], stale) {
      assert names[i] in names && names[j] in names;
    }
    var image: set<int> := set n | n in numbers :: n as int;
    assert image == numbers;
    forall v ensures v in image <==> exists i :: 0 <= i < |names| && NumberIn(names[i], stale) == v {
      if v in image {
        var name :| name in order && IsCloudEntry(name) && NumberIn(name, stale) == v;
        assert name in names;
      }
      if i :| 0 <= i < |names| && NumberIn(names[i], stale) == v {
        assert names[i] in names;
      }
    }
    ImageSize(names, name => NumberIn(name, stale), image);
  }
}
