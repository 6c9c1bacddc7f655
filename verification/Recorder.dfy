/**
 The logger process: it creates its session's directory, writes point clouds 0, 1, 2, ... until it is told to stop,
 and then the metadata. Everything it does is a step of the protocol, and what it leaves can be transferred if it
 wrote a point cloud and found the metadata.
 */
module Recorder {
  import opened Basics
  import opened Archive
  import opened Drain
  import P = Protocol

  const MAX_LINE_LEN := 512

  const NUL: byte := 0

  /** fgets: up to a newline, or as much as fits. */
  function LineLength(text: Bytes, room: nat): (n: nat)
    requires room > 0
    ensures n <= |text| && n <= room && (text != [] ==> n > 0)
  {
    if text == [] then 0
    else if text[0] == 10 || room == 1 then 1
    else 1 + LineLength(text[1..], room - 1)
  }

  /** fputs writes a line up to its first NUL. */
  function Written(line: Bytes): (w: Bytes)
    ensures w <= line && (w == line <==> NUL !in line) && |w| <= |line|
  {
    if line == [] || line[0] == NUL then [] else [line[0]] + Written(line[1..])
  }

  /** A copy of a text, line by line. */
  function Copied(text: Bytes): (c: Bytes)
    ensures |c| <= |text|
    decreases |text|
  {
    if text == [] then []
    else
      var n := LineLength(text, MAX_LINE_LEN - 2);
      Written(text[..n]) + Copied(text[n..])
  }

  lemma CopiedUnfolds(text: Bytes)
    ensures text == [] ==> Copied(text) == []
    ensures text != [] ==>
              var n := LineLength(text, MAX_LINE_LEN - 2);
              Copied(text) == Written(text[..n]) + Copied(text[n..])
  {
  }

  lemma Regroup(a: Bytes, b: Bytes, c: Bytes)
    ensures a + (b + c) == (a + b) + c && a + [] == a && [] + b == b
  {
  }

  /** The copy is exact if and only if the text has no NUL. */
  lemma {:induction false} CopiedIsExactIff(text: Bytes)
    ensures Copied(text) == text <==> NUL !in text
    decreases |text|
  {
    if text != [] {
      var n := LineLength(text, MAX_LINE_LEN - 2);
      var line, more := text[..n], text[n..];
      assert text == line + more;
      CopiedIsExactIff(more);
      if Copied(text) == text {
        assert |Written(line)| == n && |Copied(more)| == |more|;
        assert Written(line) == (Written(line) + Copied(more))[..n] == line;
        assert Copied(more) == (Written(line) + Copied(more))[n..] == more;
      }
    }
  }

  lemma {:induction false} LineEnds(line: Bytes, more: Bytes, room: nat)
    requires 10 !in line && |line| < room
    ensures LineLength(line + [10] + more, room) == |line| + 1
    decreases |line|
  {
    var text := line + [10] + more;
    if line != [] {
      assert text[1..] == line[1..] + [10] + more;
      LineEnds(line[1..], more, room - 1);
    }
  }

  lemma {:induction false} LineIsSplit(line: Bytes, more: Bytes, room: nat)
    requires 10 !in line && |line| == room > 0
    ensures LineLength(line + more, room) == room
    decreases |line|
  {
    var text := line + more;
    if |line| > 1 {
      assert text[1..] == line[1..] + more;
      LineIsSplit(line[1..], more, room - 1);
    }
  }

  lemma {:induction false} WrittenStops(a: Bytes, b: Bytes)
    requires NUL !in a
    ensures Written(a + [NUL] + b) == a
  {
    var line := a + [NUL] + b;
    if a != [] {
      assert line[1..] == a[1..] + [NUL] + b;
      WrittenStops(a[1..], b);
      assert a == [a[0]] + a[1..];
    }
  }

  /** What a NUL costs is the rest of its line, newline included; of a line that is longer than the buffer, the rest of
      the buffer. */
  lemma NulCostsItsLine(a: Bytes, b: Bytes, more: Bytes)
    requires NUL !in a && 10 !in a && 10 !in b
    ensures |a| + |b| + 1 < 510 ==> Copied(a + [NUL] + b + [10] + more) == a + Copied(more)
    ensures |a| + |b| + 1 == 510 ==> Copied(a + [NUL] + b + more) == a + Copied(more)
  {
    var line := a + [NUL] + b;
    if |line| < 510 {
      LineEnds(line, more, 510);
      WrittenStops(a, b + [10]);
      var text := line + [10] + more;
      assert text[..|line| + 1] == a + [NUL] + (b + [10]) && text[|line| + 1..] == more;
      CopiedUnfolds(text);
    } else if |line| == 510 {
      LineIsSplit(line, more, 510);
      WrittenStops(a, b);
      var text := line + more;
      assert text[..510] == line && text[510..] == more;
      CopiedUnfolds(text);
    }
  }

  // ---------- writing a file, as steps of the protocol ----------

  /** The disk holds `rest` and the directory of session d, and the logger is where lg says. */
  ghost predicate Holds(s: P.State, rest: Tree, d: Stamp, dir: Dir, lg: P.Logger) {
    s.srv.dirs == rest[d := dir] && d in s.srv.logs && s.srv.logger == lg
  }

  /** About to write a file of session d: a point cloud, or a metadata file. */
  predicate Ready(lg: P.Logger, d: Stamp) {
    (lg.Recording? || (lg.Closing? && lg.k < 4)) && lg.d == d && !lg.open
  }

  function Opened(lg: P.Logger): P.Logger {
    match lg
    case Recording(d, n, _) => P.Recording(d, n, true)
    case Closing(d, k, _) => P.Closing(d, k, true)
    case _ => lg
  }

  function Finished(lg: P.Logger): P.Logger {
    match lg
    case Recording(d, n, _) => P.Recording(d, n + 1, false)
    case Closing(d, k, _) => P.Closing(d, k + 1, false)
    case _ => lg
  }

  function PutFile(files: Folder, lg: P.Logger, bytes: Bytes): Folder {
    match lg
    case Recording(_, n, _) => files.(clouds := files.clouds[n := bytes])
    case Closing(_, k, _) => if k < 4 then files.(metas := files.metas[MetaAt(k) := bytes]) else files
    case _ => files
  }

  lemma PutAgain(files: Folder, lg: P.Logger, was: Bytes, bytes: Bytes)
    ensures PutFile(PutFile(files, lg, was), lg, bytes) == PutFile(files, lg, bytes)
  {
  }

  lemma Begins(s: P.State, rest: Tree, d: Stamp, lidar: nat, files: Folder, lg: P.Logger) returns (s': P.State)
    requires Ready(lg, d) && Holds(s, rest, d, Dir(lidar, files), lg)
    ensures P.Reach(s, s') && Holds(s', rest, d, Dir(lidar, PutFile(files, lg, [])), Opened(lg))
  {
    hide P.Reach;
    P.ReachSelf(s);
    var e := if lg.Recording? then P.BeginFile([]) else P.BeginMeta([]);
    s' := P.Step(s, e);
    P.ReachStep(s, s, e);
  }

  lemma Writes(s: P.State, rest: Tree, d: Stamp, lidar: nat, files: Folder, lg: P.Logger, was: Bytes, bytes: Bytes)
    returns (s': P.State)
    requires Ready(lg, d) && Holds(s, rest, d, Dir(lidar, PutFile(files, lg, was)), Opened(lg))
    ensures P.Reach(s, s') && Holds(s', rest, d, Dir(lidar, PutFile(files, lg, bytes)), Opened(lg))
  {
    hide P.Reach;
    P.ReachSelf(s);
    s' := P.Step(s, P.Write(bytes));
    P.ReachStep(s, s, P.Write(bytes));
    PutAgain(files, lg, was, bytes);
  }

  lemma Finishes(s: P.State, rest: Tree, d: Stamp, lidar: nat, files: Folder, lg: P.Logger, bytes: Bytes)
    returns (s': P.State)
    requires Ready(lg, d) && Holds(s, rest, d, Dir(lidar, PutFile(files, lg, bytes)), Opened(lg))
    ensures P.Reach(s, s') && Holds(s', rest, d, Dir(lidar, PutFile(files, lg, bytes)), Finished(lg))
  {
    hide P.Reach;
    P.ReachSelf(s);
    var e := if lg.Recording? then P.FinishFile else P.FinishMeta;
    s' := P.Step(s, e);
    P.ReachStep(s, s, e);
  }

  lemma MakesDir(s: P.State, d: Stamp, lidar: nat) returns (s': P.State)
    requires s.srv.logger == P.Launching(d, lidar)
    ensures P.Reach(s, s') && Holds(s', s.srv.dirs, d, Dir(lidar, EMPTY_FOLDER), P.Recording(d, 0, false))
  {
    P.ReachSelf(s);
    s' := P.Step(s, P.MakeDir);
    P.ReachStep(s, s, P.MakeDir);
  }

  lemma Leaves(s: P.State, rest: Tree, d: Stamp, dir: Dir, n: nat) returns (s': P.State)
    requires Holds(s, rest, d, dir, P.Recording(d, n, false))
    ensures P.Reach(s, s') && Holds(s', rest, d, dir, P.Closing(d, 0, false))
  {
    P.ReachSelf(s);
    s' := P.Step(s, P.LeaveLoop);
    P.ReachStep(s, s, P.LeaveLoop);
  }

  lemma Exits(s: P.State, rest: Tree, d: Stamp, dir: Dir, k: nat) returns (s': P.State)
    requires Holds(s, rest, d, dir, P.Closing(d, k, false))
    ensures P.Reach(s, s') && Holds(s', rest, d, dir, P.Off)
  {
    P.ReachSelf(s);
    s' := P.Step(s, P.LoggerAbort);
    P.ReachStep(s, s, P.LoggerAbort);
    if k == 4 {
      s' := P.Step(s, P.LoggerExit);
      P.ReachStep(s, s, P.LoggerExit);
    }
  }

  class LoggerProcess {
    const d: Stamp
    const lidar: nat
    var files: Folder
    var cnt: nat
    /** The state of the protocol that this process is in, and the directories of other sessions. */
    ghost var proto: P.State
    ghost const rest: Tree

    constructor (d: Stamp, lidar: nat, ghost proto: P.State)
      requires proto.srv.logger == P.Launching(d, lidar)
      ensures this.d == d && this.lidar == lidar && this.proto == proto && rest == proto.srv.dirs
              && files == EMPTY_FOLDER && cnt == 0
    {
      this.d, this.lidar, this.files, this.cnt, this.proto, this.rest := d, lidar, EMPTY_FOLDER, 0, proto,
          proto.srv.dirs;
    }

    /** CopyFile, from a reference file, which may be missing. */
    method CopyFile(input: Option<Bytes>, lg: P.Logger) returns (ret: int)
      requires Ready(lg, d) && Holds(proto, rest, d, Dir(lidar, files), lg)
      modifies this`files, this`proto
      ensures ret == (if input.Some? then 0 else -1)
      ensures P.Reach(old(proto), proto)
      ensures files == if ret == 0 then PutFile(old(files), lg, Copied(input.value)) else old(files)
      ensures Holds(proto, rest, d, Dir(lidar, files), if ret == 0 then Finished(lg) else lg)
    {
      hide P.Reach, Ready, Holds, PutFile, Opened, Finished, Written, LineLength, Copied;
      P.ReachSelf(proto);
      if input.None? {
        return -1;
      }
      ghost var before, start := files, proto;
      var text, output := input.value, [];
      proto := Begins(proto, rest, d, lidar, files, lg);
      files := PutFile(files, lg, []);
      Regroup([], Copied(text), []);
      while text != []
        invariant output + Copied(text) == Copied(input.value)
        invariant P.Reach(start, proto) && files == PutFile(before, lg, output)
        invariant Holds(proto, rest, d, Dir(lidar, PutFile(before, lg, output)), Opened(lg))
      {
        var n := LineLength(text, MAX_LINE_LEN - 2);
        var line := text[..n];
        CopiedUnfolds(text);
        Regroup(output, Written(line), Copied(text[n..]));
        ghost var mid := proto;
        proto := Writes(proto, rest, d, lidar, before, lg, output, output + Written(line));
        P.ReachOn(start, mid, proto);
        PutAgain(before, lg, output, output + Written(line));
        output := output + Written(line);
        files := PutFile(files, lg, output);
        text := text[n..];
      }
      CopiedUnfolds(text);
      Regroup(output, [], []);
      ghost var mid := proto;
      proto := Finishes(proto, rest, d, lidar, before, lg, output);
      P.ReachOn(start, mid, proto);
      return 0;
    }

    /** The first i metadata files are there. */
    ghost predicate HasFirst(metas: map<Meta, Bytes>, i: nat)
      reads this
    {
      && (forall m :: m in files.metas <==> MetaRank(m) < i)
      && (forall m | m in files.metas :: m in metas && files.metas[m] == Copied(metas[m]))
    }

    /** One of them. */
    method CopyMeta(metas: map<Meta, Bytes>, m: Meta) returns (ret: int, ghost k: nat)
      requires var i := MetaRank(m);
               HasFirst(metas, i) && Holds(proto, rest, d, Dir(lidar, files), P.Closing(d, i, false))
      modifies this`files, this`proto
      ensures ret == (if m in metas then 0 else -1) && k == (if ret == 0 then MetaRank(m) + 1 else MetaRank(m))
      ensures P.Reach(old(proto), proto) && files.clouds == old(files).clouds
      ensures HasFirst(metas, k) && Holds(proto, rest, d, Dir(lidar, files), P.Closing(d, k, false))
    {
      hide P.Reach, Holds, MetaRank, Copied;
      ret := CopyFile(if m in metas then Some(metas[m]) else None, P.Closing(d, MetaRank(m), false));
      k := if ret == 0 then MetaRank(m) + 1 else MetaRank(m);
      RankOfNext(m);
    }

    /** CopyOtherFiles: the four metadata files, in their order; it gives up at the first that is missing. */
    method CopyOtherFiles(metas: map<Meta, Bytes>) returns (ret: int, ghost k: nat)
      requires files.metas == map[] && Holds(proto, rest, d, Dir(lidar, files), P.Closing(d, 0, false))
      modifies this`files, this`proto
      ensures ret == (if forall m: Meta :: m in metas then 0 else -1)
      ensures P.Reach(old(proto), proto)
      ensures k <= 4 && Holds(proto, rest, d, Dir(lidar, files), P.Closing(d, k, false))
      ensures files.clouds == old(files).clouds
      ensures HasFirst(metas, k)
      ensures ret == 0 <==> k == 4
    {
      hide P.Reach, Holds, Copied;
      ghost var start, mid := proto, proto;
      P.ReachSelf(proto);
      var r;
      r, k := CopyMeta(metas, TofCsv);
      P.ReachOn(start, mid, proto);
      if r < 0 {
        return -1, k;
      }
      mid := proto;
      r, k := CopyMeta(metas, TofInfo);
      P.ReachOn(start, mid, proto);
      if r < 0 {
        return -1, k;
      }
      mid := proto;
      r, k := CopyMeta(metas, ImuCsv);
      P.ReachOn(start, mid, proto);
      if r < 0 {
        return -1, k;
      }
      mid := proto;
      r, k := CopyMeta(metas, ImuInfo);
      P.ReachOn(start, mid, proto);
      if r < 0 {
        return -1, k;
      }
      ret := 0;
    }

    /** The main function, from the creation of the directory on: it notices the signal after `rounds` rounds of its
        loop. The reference has `reference[n]` for point cloud n and nothing behind, and these metadata files. */
    method Record(reference: seq<Bytes>, metas: map<Meta, Bytes>, rounds: nat) returns (success: bool)
      requires proto.srv.logger == P.Launching(d, lidar) && rest == proto.srv.dirs && files == EMPTY_FOLDER && cnt == 0
      modifies this
      ensures P.Reach(old(proto), proto) && proto.srv.logger == P.Off
      ensures proto.srv.dirs == rest[d := Dir(lidar, files)]
      ensures cnt == if rounds < |reference| then rounds else |reference|
      ensures forall n: nat :: n in files.clouds <==> n < cnt
      ensures forall n: nat | n < cnt :: files.clouds[n] == Copied(reference[n])
      ensures forall m | m in files.metas :: m in metas && files.metas[m] == Copied(metas[m])
      ensures success <==> forall m: Meta :: m in metas
      ensures Transferable(proto.srv.dirs[d]) <==> success && cnt > 0
    {
      hide P.Reach, Holds, Transferable, Copied;
      ghost var start := proto;
      proto := MakesDir(proto, d, lidar);
      for round := 0 to rounds
        invariant cnt == if round < |reference| then round else |reference|
        invariant P.Reach(start, proto) && Holds(proto, rest, d, Dir(lidar, files), P.Recording(d, cnt, false))
        invariant files.metas == map[]
        invariant forall n: nat :: n in files.clouds <==> n < cnt
        invariant forall n: nat | n < cnt :: files.clouds[n] == Copied(reference[n])
      {
        if cnt < |reference| {
          ghost var mid := proto;
          var r := CopyFile(Some(reference[cnt]), P.Recording(d, cnt, false));
          P.ReachOn(start, mid, proto);
          cnt := cnt + 1;
        }
      }
      ghost var mid := proto;
      proto := Leaves(proto, rest, d, Dir(lidar, files), cnt);
      P.ReachOn(start, mid, proto);
      ghost var loopEnd := proto;
      var r;
      ghost var k;
      r, k := CopyOtherFiles(metas);
      P.ReachOn(start, loopEnd, proto);
      success := r == 0;
      mid := proto;
      proto := Exits(proto, rest, d, Dir(lidar, files), k);
      P.ReachOn(start, mid, proto);
      HeldDir(proto, rest, d, Dir(lidar, files));
      WhenTransferable(Dir(lidar, files), cnt, k);
    }
  }

  lemma RankOfNext(m: Meta)
    ensures MetaRank(m) < 4 && MetaAt(MetaRank(m)) == m
    ensures forall l: Meta :: MetaRank(l) < MetaRank(m) + 1 <==> MetaRank(l) < MetaRank(m) || l == m
  {
  }

  lemma HeldDir(s: P.State, rest: Tree, d: Stamp, dir: Dir)
    requires Holds(s, rest, d, dir, P.Off)
    ensures s.srv.dirs == rest[d := dir] && s.srv.logger == P.Off
  {
  }

  lemma WhenTransferable(dir: Dir, cnt: nat, k: nat)
    requires forall n: nat :: n in dir.files.clouds <==> n < cnt
    requires k <= 4 && forall m :: m in dir.files.metas <==> MetaRank(m) < k
    ensures Transferable(dir) <==> k == 4 && cnt > 0
  {
    if k < 4 {
      assert MetaRank(ImuInfo) == 3;
    }
    if cnt > 0 {
      assert 0 in dir.files.clouds;
    }
  }
}
