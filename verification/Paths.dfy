/**
 MakePath, which creates a directory with all its ancestors: in-place prefixes of the path, one mkdir each.
 */
module Paths {
  const MAX_PATH_LEN := 256

  const NUL := '\0'

  /** A directory's name without trailing slashes; "" is where the path starts, the root or the working directory. */
  function Name(p: string): (n: string)
    ensures n <= p && (n == "" || n[|n| - 1] != '/')
  {
    if p == "" || p[|p| - 1] != '/' then p else Name(p[..|p| - 1])
  }

  /** The path up to and without its last component. */
  function DirPart(p: string): (n: string)
    ensures n <= p
  {
    if p == "" || p[|p| - 1] == '/' then p else DirPart(p[..|p| - 1])
  }

  function Parent(name: string): string {
    Name(DirPart(name))
  }

  /** The text in a character array: what comes before the first NUL. */
  function CString(a: seq<char>): (s: string)
    ensures s <= a && NUL !in s
  {
    if a == [] || a[0] == NUL then "" else [a[0]] + CString(a[1..])
  }

  lemma {:induction false} CStringIs(a: seq<char>, s: string)
    requires |s| < |a| && (forall k | 0 <= k < |s| :: a[k] == s[k]) && a[|s|] == NUL && NUL !in s
    ensures CString(a) == s
  {
    if s != "" {
      assert s == [s[0]] + s[1..];
      CStringIs(a[1..], s[1..]);
    }
  }

  datatype Result = Made | Exists | NotADirectory | NoParent | Refused

  /** mkdir(2), given the directories and other files that exist, and the directories that cannot be created. */
  function MkdirResult(dirs: set<string>, files: set<string>, refused: set<string>, p: string): Result {
    if Name(p) in dirs + files then Exists
    else if Parent(Name(p)) in files then NotADirectory
    else if Parent(Name(p)) !in dirs then NoParent
    else if Name(p) in refused then Refused
    else Made
  }

  /** The directories and other files that exist, the directories that cannot be created, and the calls of mkdir. */
  class Disk {
    var dirs: set<string>
    var calls: seq<string>
    const files: set<string>
    const refused: set<string>

    constructor (dirs: set<string>, files: set<string>, refused: set<string>)
      ensures this.dirs == dirs && this.files == files && this.refused == refused && calls == []
    {
      this.dirs, this.files, this.refused, this.calls := dirs, files, refused, [];
    }

    method Mkdir(p: string) returns (r: Result)
      modifies this
      ensures r == MkdirResult(old(dirs), files, refused, p)
      ensures dirs == old(dirs) + (if r == Made then {Name(p)} else {})
      ensures calls == old(calls) + [p]
    {
      r := MkdirResult(dirs, files, refused, p);
      if r == Made {
        dirs := dirs + {Name(p)};
      }
      calls := calls + [p];
    }
  }

  // ---------- the ancestors of a path ----------

  /** k characters of the path are one of its ancestors, or all of it. */
  predicate IsCut(path: string, k: nat) {
    0 < k <= |path| && (k == |path| || path[k - 1] == '/')
  }

  /** The ancestors among the first n characters, from the root to the leaf. */
  function Ancestors(path: string, n: nat): (s: seq<string>)
    requires n <= |path|
  {
    if n == 0 then []
    else Ancestors(path, n - 1) + if IsCut(path, n) then [path[..n]] else []
  }

  lemma {:induction false} AncestorsSkip(path: string, a: nat, b: nat)
    requires a <= b <= |path| && forall k | a < k <= b :: !IsCut(path, k)
    ensures Ancestors(path, b) == Ancestors(path, a)
    decreases b - a
  {
    if a < b {
      AncestorsSkip(path, a, b - 1);
    }
  }

  /** Exactly the ancestors, each once and shorter ones first. */
  lemma {:induction false} AncestorsAre(path: string, n: nat)
    requires n <= |path|
    ensures forall p :: p in Ancestors(path, n) <==> p <= path && |p| <= n && IsCut(path, |p|)
    ensures forall i, j | 0 <= i < j < |Ancestors(path, n)| :: |Ancestors(path, n)[i]| < |Ancestors(path, n)[j]|
  {
    if n > 0 {
      AncestorsAre(path, n - 1);
      var before := Ancestors(path, n - 1);
      forall p ensures p in Ancestors(path, n) <==> p <= path && |p| <= n && IsCut(path, |p|) {
        assert p <= path && |p| == n ==> p == path[..n];
      }
      forall i, j | 0 <= i < j < |Ancestors(path, n)| ensures |Ancestors(path, n)[i]| < |Ancestors(path, n)[j]| {
        assert Ancestors(path, n)[i] in before;
      }
    }
  }

  function Names(ps: seq<string>): set<string> {
    set p | p in ps :: Name(p)
  }

  lemma {:induction false} DirPartStops(path: string, a: nat, b: nat)
    requires a <= b <= |path| && (a == 0 || path[a - 1] == '/')
    requires forall k | a <= k < b :: path[k] != '/'
    ensures DirPart(path[..b]) == path[..a]
    decreases b - a
  {
    if a < b {
      assert path[..b][..b - 1] == path[..b - 1];
      DirPartStops(path, a, b - 1);
    }
  }

  /** The next ancestor is the same directory again, when a component is empty, or a child of the one before. */
  lemma NextIsChild(path: string, a: nat, b: nat)
    requires a < b <= |path| && (a == 0 || path[a - 1] == '/')
    requires IsCut(path, b) && forall k | a <= k < b - 1 :: path[k] != '/'
    ensures Name(path[..b]) == Name(path[..a]) || Parent(Name(path[..b])) == Name(path[..a])
  {
    var end := if path[b - 1] == '/' then b - 1 else b;
    assert path[..b][..b - 1] == path[..b - 1];
    assert Name(path[..b]) == Name(path[..end]);
    if end > a {
      assert path[..end][end - 1] != '/';
      DirPartStops(path, a, end);
    }
  }

  /** What mkdir can neither find nor make: there is no such file, and the directory cannot be created, or what should
      be its parent is not a directory. */
  predicate Fails(dirs: set<string>, files: set<string>, refused: set<string>, p: string) {
    Name(p) !in dirs + files && (Parent(Name(p)) in files || Name(p) in refused)
  }

  /** The ancestors among the first n characters exist, and nothing else is new. */
  ghost predicate Progress(path: string, n: nat, dirs0: set<string>, files: set<string>, refused: set<string>,
      dirs: set<string>)
    requires n <= |path|
  {
    && dirs == dirs0 + (Names(Ancestors(path, n)) - files) && Name(path[..n]) in dirs + files
    && forall p | p in Ancestors(path, n) :: !Fails(dirs0, files, refused, p)
  }

  /** The first `done` ancestors exist, and nothing else is new; they are all, or the next one cannot be made. */
  ghost predicate Outcome(path: string, done: nat, dirs0: set<string>, files: set<string>, refused: set<string>,
                          dirs: set<string>)
  {
    var all := Ancestors(path, |path|);
    && done <= |all| && dirs == dirs0 + (Names(all[..done]) - files)
    && (forall i | 0 <= i < done :: !Fails(dirs0, files, refused, all[i]))
    && (done < |all| ==> Fails(dirs0, files, refused, all[done]))
  }

  lemma NothingYet(path: string, dirs: set<string>, files: set<string>, refused: set<string>)
    requires "" in dirs
    ensures Progress(path, 0, dirs, files, refused, dirs) && Ancestors(path, 0) == []
  {
  }

  lemma {:induction false} AncestorsGrow(path: string, a: nat, b: nat)
    requires a <= b <= |path|
    ensures Ancestors(path, a) <= Ancestors(path, b)
    decreases b - a
  {
    if a < b {
      AncestorsGrow(path, a, b - 1);
    }
  }

  lemma NextAncestor(path: string, a: nat, b: nat)
    requires a < b <= |path| && (a == 0 || path[a - 1] == '/')
    requires IsCut(path, b) && forall k | a <= k < b - 1 :: path[k] != '/'
    ensures Ancestors(path, b) == Ancestors(path, a) + [path[..b]] && Ancestors(path, b) <= Ancestors(path, |path|)
    ensures Names(Ancestors(path, b)) == Names(Ancestors(path, a)) + {Name(path[..b])}
    ensures Name(path[..b]) == Name(path[..a]) || Parent(Name(path[..b])) == Name(path[..a])
  {
    hide Name, DirPart, Names;
    AncestorsSkip(path, a, b - 1);
    AncestorsGrow(path, b, |path|);
    NextIsChild(path, a, b);
    NamesOneMore(Ancestors(path, a), path[..b]);
  }

  lemma NamesOneMore(ps: seq<string>, p: string)
    ensures Names(ps + [p]) == Names(ps) + {Name(p)}
  {
  }

  /** One more call of mkdir. */
  lemma AfterMkdir(path: string, a: nat, b: nat, dirs0: set<string>, files: set<string>, refused: set<string>,
                   before: set<string>, after: set<string>)
    requires a < b <= |path| && (a == 0 || path[a - 1] == '/')
    requires IsCut(path, b) && forall k | a <= k < b - 1 :: path[k] != '/'
    requires Progress(path, a, dirs0, files, refused, before)
    requires after == before + (if MkdirResult(before, files, refused, path[..b]) == Made then {Name(path[..b])}
             else {})
    ensures var r := MkdirResult(before, files, refused, path[..b]);
            if r == Exists || r == Made then Progress(path, b, dirs0, files, refused, after)
            else Outcome(path, |Ancestors(path, a)|, dirs0, files, refused, after)
                 && |Ancestors(path, a)| < |Ancestors(path, |path|)|
                 && Ancestors(path, b) == Ancestors(path, |path|)[..|Ancestors(path, a)| + 1]
    ensures Ancestors(path, b) == Ancestors(path, a) + [path[..b]]
  {
    hide Ancestors, Name, DirPart;
    NextAncestor(path, a, b);
    var all, made, p := Ancestors(path, |path|), Ancestors(path, a), path[..b];
    assert (made + [p])[|made|] == p;
    assert all[..|made| + 1] == (made + [p])[..|made| + 1];
    assert all[..|made|] == made;
  }

  lemma AllMade(path: string, dirs0: set<string>, files: set<string>, refused: set<string>, dirs: set<string>)
    requires Progress(path, |path|, dirs0, files, refused, dirs)
    ensures Outcome(path, |Ancestors(path, |path|)|, dirs0, files, refused, dirs)
  {
  }

  /** Returns 0 if and only if every ancestor exists or can be created; then all exist, and nothing else is new.
      Otherwise it stops at the first that cannot, with those before it created. mkdir is called on the ancestors in
      order, the indices stay together and within the buffer, and no call fails for want of a parent. */
  method MakePath(path: string, disk: Disk) returns (ret: int, ghost done: nat)
    requires NUL !in path && |path| <= MAX_PATH_LEN - 2
    requires "" in disk.dirs
    modifies disk
    ensures Outcome(path, done, old(disk.dirs), disk.files, disk.refused, disk.dirs)
    ensures var all := Ancestors(path, |path|);
            && done <= |all| && ret == (if done == |all| then 0 else -1)
            && disk.calls == old(disk.calls) + (if ret == 0 then all else all[..done + 1])
  {
    hide *;
    var len := |path|;
    var text := path + [NUL];
    var i, j := 0, 0;
    var tmp := new char[MAX_PATH_LEN];
    ghost var dirs0, calls0, all := disk.dirs, disk.calls, Ancestors(path, |path|);
    NothingYet(path, dirs0, disk.files, disk.refused);
    while i < len
      invariant i == j && 0 <= i <= len + 1
      invariant forall k | 0 <= k < i :: tmp[k] == text[k]
      invariant i < len ==> (i == 0 || path[i - 1] == '/')
      invariant Progress(path, if i <= len then i else len, dirs0, disk.files, disk.refused, disk.dirs)
      invariant disk.calls == calls0 + Ancestors(path, if i <= len then i else len)
      decreases len + 1 - i
    {
      ghost var start := i;
      tmp[j] := text[i];
      i, j := i + 1, j + 1;
      while tmp[j - 1] != '/' && tmp[j - 1] != NUL
        invariant i == j && start < i <= len + 1
        invariant forall k | 0 <= k < i :: tmp[k] == text[k]
        invariant forall k | start <= k < i - 1 :: path[k] != '/'
        modifies tmp
        decreases len + 1 - i
      {
        tmp[j] := text[i];
        i, j := i + 1, j + 1;
      }
      tmp[j] := NUL;
      ghost var n, before := if i <= len then i else len, disk.dirs;
      CStringIs(tmp[..], path[..n]);
      CutHere(path, n);
      var r := disk.Mkdir(CString(tmp[..]));
      AfterMkdir(path, start, n, dirs0, disk.files, disk.refused, before, disk.dirs);
      if r != Made && r != Exists {
        return -1, |Ancestors(path, start)|;
      }
    }
    AllMade(path, dirs0, disk.files, disk.refused, disk.dirs);
    return 0, |all|;
  }

  lemma CutHere(path: string, n: nat)
    requires 0 < n <= |path| && (n == |path| || path[n - 1] == '/')
    ensures IsCut(path, n)
  {
  }
}
