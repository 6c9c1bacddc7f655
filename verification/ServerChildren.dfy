/**
 The server child process: the handlers as methods that change the directory tree, each proved against the effect that
 the protocol gives to its command.
 */
module ServerChildren {
  import opened Basics
  import opened Archive
  import opened Timestamps
  import opened Wire
  import opened ServerLib
  import opened MetaPaths
  import P = Protocol

  /** The outcome of one uninterrupted SendNext, given what its two scans found. */
  function Outcome(t: Tree, alive: bool, d: Stamp, first: nat, last: nat): P.Reply
    requires d in t
  {
    var clouds := t[d].files.clouds;
    match P.Decide(P.Counted(d, t[d].lidar, |t|, first, last, |clouds|), alive)
    case Working(_) => if first in clouds then P.Sending(d, t[d].lidar, first, last, |clouds|, clouds[first])
        else P.Error
    case Replied(r) => r
    case _ => P.Error
  }

  /** r is the answer to SEND_NEXT when nothing interferes: it depends on the tree and on whether a logger is alive,
      and on nothing else. */
  ghost predicate AnswersNext(t: Tree, alive: bool, r: P.Reply) {
    if t == map[] then r == P.NoTr
    else exists d, first, last ::
           && IsOldest(t, d) && P.IsScan(t[d].files.clouds, first, last)
           && r == Outcome(t, alive, d, first, last)
  }

  lemma EmptyTreeAnswer(alive: bool)
    ensures AnswersNext(map[], alive, P.NoTr)
  {
  }

  lemma AnswerOf(t: Tree, alive: bool, d: Stamp, first: nat, last: nat)
    requires IsOldest(t, d) && P.IsScan(t[d].files.clouds, first, last)
    ensures AnswersNext(t, alive, Outcome(t, alive, d, first, last))
  {
  }

  lemma AnswerIsUnique(t: Tree, alive: bool, q: P.Reply, r: P.Reply)
    requires AnswersNext(t, alive, q) && AnswersNext(t, alive, r)
    ensures q == r
  {
  }

  // ---------- when it is SENDING, WAIT or EMPTY ----------

  /** Reply r gives the lowest point cloud of session d, with what is known about the rest. */
  ghost predicate GivesLowest(dir: Dir, d: Stamp, r: P.Reply) {
    var c := dir.files.clouds;
    && r.Sending? && r.d == d && r.lidar == dir.lidar && r.count == |c|
    && r.n in c && r.last in c && (forall k | k in c :: r.n <= k <= r.last) && r.body == c[r.n]
  }

  /** The right answer to SEND_NEXT. No directory: the end. Of the oldest directory, the lowest point cloud is sent if
      there is one that no logger can be writing: any, or two where the directory may be the logger's. If there is
      none, the client is told to wait for a logger that may be at work there, or else that the directory is empty. */
  ghost predicate RightAnswer(t: Tree, alive: bool, r: P.Reply) {
    if t == map[] then r.NoTr?
    else exists d :: IsOldest(t, d) && RightFor(t, alive, d, r)
  }

  ghost predicate RightFor(t: Tree, alive: bool, d: Stamp, r: P.Reply)
    requires d in t
  {
    var c := t[d].files.clouds;
    && (r.Wait? || r.Sending? || r.Empty?)
    && (r.Sending? <==> |c| >= 2 || (|c| == 1 && !(alive && |t| == 1)))
    && (r.Wait? <==> alive && |t| == 1 && |c| <= 1)
    && (r.Empty? <==> |c| == 0 && !(alive && |t| == 1))
    && (r.Sending? ==> GivesLowest(t[d], d, r))
    && (r.Empty? ==> r.d == d && r.lidar == t[d].lidar)
  }

  /** The server's answer is the right one, and no other is. */
  lemma AnswerIsRightIff(t: Tree, alive: bool, r: P.Reply)
    ensures AnswersNext(t, alive, r) <==> RightAnswer(t, alive, r)
  {
    if t != map[] {
      forall d, first, last | IsOldest(t, d) && P.IsScan(t[d].files.clouds, first, last)
        ensures RightFor(t, alive, d, r) <==> r == Outcome(t, alive, d, first, last)
      {
        OutcomeIsRight(t, alive, d, first, last);
        if RightFor(t, alive, d, r) {
          RightIsOne(t, alive, d, Outcome(t, alive, d, first, last), r);
        }
      }
      forall d | IsOldest(t, d) ensures exists first, last :: P.IsScan(t[d].files.clouds, first, last) {
        var first, last := LeastAndGreatest(t[d].files.clouds);
      }
    }
  }

  lemma OutcomeIsRight(t: Tree, alive: bool, d: Stamp, first: nat, last: nat)
    requires IsOldest(t, d) && P.IsScan(t[d].files.clouds, first, last)
    ensures RightFor(t, alive, d, Outcome(t, alive, d, first, last))
  {
  }

  lemma RightIsOne(t: Tree, alive: bool, d: Stamp, q: P.Reply, r: P.Reply)
    requires IsOldest(t, d) && RightFor(t, alive, d, q) && RightFor(t, alive, d, r)
    ensures q == r
  {
  }

  lemma {:induction false} LeastAndGreatest(c: map<nat, Bytes>) returns (first: nat, last: nat)
    ensures P.IsScan(c, first, last)
    decreases |c|
  {
    first, last := 0, 0;
    if c != map[] {
      var n :| n in c;
      var rest := c - {n};
      assert rest.Keys == c.Keys - {n};
      first, last := LeastAndGreatest(rest);
      if rest == map[] {
        assert forall k | k in c :: k !in rest ==> k == n;
        first, last := n, n;
      } else {
        first := if n < first then n else first;
        last := if n > last then n else last;
        assert forall k | k in c :: k == n || k in rest;
      }
    }
  }

  /** One step on the connection, by the server child. */
  lemma ServerGoesOn(s: P.State, at: P.State, e: P.Event) returns (s': P.State)
    requires P.Reach(s, at) && P.ServerEnabled(at, e)
    ensures s' == P.ServerStep(at, e) && P.Reach(s, s')
  {
    hide P.Reach, P.ServerStep, P.LoggerStep;
    P.ReachStep(s, at, e);
    s' := P.ServerStep(at, e);
  }

  lemma ScanAndProbe(s: P.State, d: Stamp, first: nat, last: nat) returns (s': P.State)
    requires s.link == P.Sent(P.SendNext) && s.srv.dirs != map[]
    requires IsOldest(s.srv.dirs, d) && P.IsScan(s.srv.dirs[d].files.clouds, first, last)
    ensures P.Reach(s, s') && s'.srv == s.srv && s'.cl == s.cl && s'.past.meant == s.past.meant
    ensures var dir := s.srv.dirs[d];
            s'.link == P.Decide(P.Counted(d, dir.lidar, |s.srv.dirs|, first, last, |dir.files.clouds|),
                !s.srv.logger.Off?)
  {
    hide P.Reach, P.Decide, P.IsScan, P.Step;
    P.ReachSelf(s);
    s' := ServerGoesOn(s, s, P.ScanRoot(d));
    s' := ServerGoesOn(s, s', P.ScanFiles(first, last));
    s' := ServerGoesOn(s, s', P.Probe);
  }

  /** The answer is the one that the protocol's separate steps lead to. */
  lemma AnswerIsProtocolRun(s: P.State, r: P.Reply) returns (s': P.State)
    requires s.link == P.Sent(P.SendNext) && AnswersNext(s.srv.dirs, !s.srv.logger.Off?, r)
    ensures P.Reach(s, s') && s'.link == P.Replied(r) && s'.srv == s.srv && s'.cl == s.cl
            && s'.past.meant == s.past.meant
  {
    hide P.Reach, P.IsScan, P.Step;
    var t := s.srv.dirs;
    if t == map[] {
      P.ReachSelf(s);
      s' := ServerGoesOn(s, s, P.ScanRoot(0));
    } else {
      var d, first, last :|
        IsOldest(t, d) && P.IsScan(t[d].files.clouds, first, last)
            && r == Outcome(t, !s.srv.logger.Off?, d, first, last);
      s' := ScanAndProbe(s, d, first, last);
      if s'.link.Working? {
        s' := ServerGoesOn(s, s', P.ReadCloud);
      }
    }
  }

  /** The reply to a request for a file that has been looked for. */
  function FileReply(found: Option<Bytes>): P.Reply {
    match found case None => P.Error case Some(x) => P.Requested(x)
  }

  class ServerChild {
    var dirs: Tree
    var alive: bool
    var rootOrder: seq<string>
    var tofOrder: map<Stamp, seq<string>>

    /** The entries on disk, in the order readdir yields them, are those of the tree. */
    ghost predicate Valid()
      reads this
    {
      && IsRootListing(rootOrder, dirs)
      && (forall d | d in dirs :: dirs[d].lidar < 2 && d in tofOrder && IsTofListing(tofOrder[d], dirs[d]))
    }

    constructor (dirs: Tree, alive: bool, rootOrder: seq<string>, tofOrder: map<Stamp, seq<string>>)
      requires IsRootListing(rootOrder, dirs)
      requires forall d | d in dirs :: dirs[d].lidar < 2 && d in tofOrder && IsTofListing(tofOrder[d], dirs[d])
      ensures Valid() && this.dirs == dirs && this.alive == alive
    {
      hide StringToTime, IsStamp;
      this.dirs, this.alive, this.rootOrder, this.tofOrder := dirs, alive, rootOrder, tofOrder;
    }

    /** FindLidarDataInfo: the oldest directory, how many there are, and which log directory has the point clouds. */
    method FindLidarDataInfo() returns (count: nat, first: string, lidar: nat)
      requires Valid()
      ensures count == |dirs|
      ensures count == 0 <==> dirs == map[]
      ensures count > 0 ==>
                IsStamp(first) && IsOldest(dirs, StringToTime(first)) && lidar == dirs[StringToTime(first)].lidar
    {
      var last;
      count, first, last := FindFirstDir(rootOrder);
      RootScanCounts(rootOrder, dirs);
      lidar := 0;
      if count == 0 {
        return;
      }
      RootScanFindsOldest(rootOrder, dirs, first);
      var d := StringToTime(first);
      if dirs[d].lidar != 0 {
        lidar := 1;
      }
    }

    /** FindNextFile on the directory of the oldest session. */
    method ScanClouds(d: Stamp, stale: string -> int) returns (count: nat, first: nat, last: nat)
      requires Valid() && d in dirs
      ensures count == |dirs[d].files.clouds| && P.IsScan(dirs[d].files.clouds, first, last)
    {
      TofEntries(tofOrder[d], dirs[d], stale);
      TofScanCounts(tofOrder[d], dirs[d]);
      var low, high;
      count, low, high := FindNextFile(tofOrder[d], stale);
      first, last := 0, 0;
      if count > 0 {
        first, last := low, high;
      }
    }

    /** SendNext, with nothing happening between its scans, its probe and its reading of the file. */
    method SendNext() returns (r: P.Reply, name: string)
      requires Valid()
      ensures AnswersNext(dirs, alive, r) && RightAnswer(dirs, alive, r)
      ensures r.Sending? || r.Empty? ==> IsStamp(name) && StringToTime(name) == r.d
    {
      hide StringToTime, IsStamp, IsRootListing, IsTofListing, AnswersNext, RightAnswer;
      var dirCount, lidar;
      dirCount, name, lidar := FindLidarDataInfo();
      if dirCount == 0 {
        r := P.NoTr;
        EmptyTreeAnswer(alive);
        AnswerIsRightIff(dirs, alive, r);
        return;
      }
      var d := StringToTime(name);
      var count, first, last := ScanClouds(d, _ => 0);
      var minCount := if alive && dirCount == 1 then 2 else 1;
      if count >= minCount {
        assert first in dirs[d].files.clouds;
        r := P.Sending(d, lidar, first, last, count, dirs[d].files.clouds[first]);
      } else if alive && dirCount == 1 {
        r := P.Wait;
      } else {
        r := P.Empty(d, lidar);
      }
      AnswerOf(dirs, alive, d, first, last);
      AnswerIsRightIff(dirs, alive, r);
    }

    method RemoveFile(d: Stamp, lidar: nat, n: nat) returns (r: P.Reply)
      requires Valid()
      modifies this
      ensures Valid() && alive == old(alive)
      ensures (dirs, r) == P.ServeTree(old(dirs), P.RemoveFile(d, lidar, n))
    {
      hide IsRootListing, IsTofListing;
      if !HasCloud(dirs, d, lidar, n) {
        r := P.Error;
        return;
      }
      StillListed(rootOrder, dirs, d, n);
      CloudUnlisted(tofOrder[d], dirs[d], n);
      tofOrder := tofOrder[d := Select(tofOrder[d], x => x != CloudName(n))];
      dirs := WithoutCloud(dirs, d, n);
      r := P.FileRemoved;
    }

    /** SendFile, without the sending: what the path leads to, from the entries of the data directory and of the
        directory of the point clouds. For each path that the client prints this is the protocol's reply, and for the
        path of a point cloud it is that point cloud. */
    method SendFile(path: string) returns (r: P.Reply)
      requires Valid()
      ensures forall name, lidar, m | IsStamp(name) && lidar < 2 && path == MetaPath(name, lidar, m) ::
                (dirs, r) == P.ServeTree(dirs, P.SendFile(StringToTime(name), lidar, m))
      ensures forall name, lidar, n: nat | IsStamp(name) && lidar < 2 && path == CloudPath(name, lidar, n) ::
                r == FileReply(CloudAt(dirs, StringToTime(name), lidar, n))
      ensures r == FileReply(Lookup(dirs, path))
    {
      hide StringToTime, IsStamp, MetaPath, CloudPath, MetaUnder, CloudUnder, CloudName;
      r := P.Error;
      PathsLead(dirs, path);
      if |path| >= 15 {
        EntryIsListed(rootOrder, dirs, path[..15]);
        if path[..15] in rootOrder && !Hidden(path[..15]) {
          var dir := dirs[StringToTime(path[..15])];
          var m := MetaUnder(path[15..], dir.lidar);
          var n := CloudUnder(path[15..], dir.lidar);
          if m.Some? && m.value in dir.files.metas {
            r := P.Requested(dir.files.metas[m.value]);
          } else if m.None? && n.Some? {
            CloudIsListed(tofOrder[StringToTime(path[..15])], dir, n.value);
            if CloudName(n.value) in tofOrder[StringToTime(path[..15])] {
              r := P.Requested(dir.files.clouds[n.value]);
            }
          }
        }
      }
    }

    method RemoveDir(d: Stamp) returns (r: P.Reply)
      requires Valid()
      modifies this
      ensures Valid() && alive == old(alive)
      ensures (dirs, r) == P.ServeTree(old(dirs), P.RemoveDir(d))
    {
      hide StringToTime, IsStamp;
      if d !in dirs {
        r := P.Error;
        return;
      }
      DirUnlisted(rootOrder, dirs, d);
      rootOrder := Select(rootOrder, x => StringToTime(x) != d);
      dirs := dirs - {d};
      r := P.DirRemoved;
    }
  }

  lemma PathsLead(t: Tree, path: string)
    requires forall d | d in t :: t[d].lidar < 2
    ensures forall name, lidar, m | IsStamp(name) && lidar < 2 && path == MetaPath(name, lidar, m) ::
              Lookup(t, path) == Resolve(t, StringToTime(name), lidar, m)
    ensures forall name, lidar, n: nat | IsStamp(name) && lidar < 2 && path == CloudPath(name, lidar, n) ::
              Lookup(t, path) == CloudAt(t, StringToTime(name), lidar, n)
  {
    hide StringToTime, MetaPath, CloudPath, Lookup, Resolve;
    forall name, lidar, m | IsStamp(name) && lidar < 2 && path == MetaPath(name, lidar, m)
      ensures Lookup(t, path) == Resolve(t, StringToTime(name), lidar, m)
    {
      LookupIsResolve(t, name, lidar, m);
    }
    forall name, lidar, n: nat | IsStamp(name) && lidar < 2 && path == CloudPath(name, lidar, n)
      ensures Lookup(t, path) == CloudAt(t, StringToTime(name), lidar, n)
    {
      CloudLookup(t, name, lidar, n);
    }
  }

  /** A point cloud's name is an entry of its directory if and only if the point cloud is there. */
  lemma CloudIsListed(order: seq<string>, dir: Dir, n: nat)
    requires IsTofListing(order, dir)
    ensures CloudName(n) in order <==> n in dir.files.clouds
  {
    hide CloudName;
    CloudEntry(n, _ => 0);
    if CloudName(n) in order {
      var k :| k in dir.files.clouds && CloudName(n) == CloudName(k);
      CloudEntry(k, _ => 0);
    }
  }

  /** A name is an entry of the data directory if and only if it is the name of a session. */
  lemma EntryIsListed(order: seq<string>, t: Tree, name: string)
    requires IsRootListing(order, t)
    ensures name in order && !Hidden(name) <==> StringToTime(name) in t
  {
    if StringToTime(name) in t {
      var entry :| entry in order && IsDirEntry(entry) && StringToTime(entry) == StringToTime(name);
      TimeOrderIsNameOrder(entry, entry);
      OnlyStampsHaveTimes(name);
      TimeOrderIsNameOrder(entry, name);
    }
  }

  lemma OnlyStampsHaveTimes(name: string)
    ensures StringToTime(name) >= 0 ==> IsStamp(name)
  {
  }

  /** The data directory itself does not change when a point cloud is removed. */
  lemma StillListed(order: seq<string>, t: Tree, d: Stamp, n: nat)
    requires IsRootListing(order, t) && d in t
    ensures IsRootListing(order, WithoutCloud(t, d, n))
  {
    hide StringToTime, IsStamp;
    assert WithoutCloud(t, d, n).Keys == t.Keys;
  }

  lemma CloudUnlisted(order: seq<string>, dir: Dir, n: nat)
    requires IsTofListing(order, dir) && n in dir.files.clouds
    ensures IsTofListing(Select(order, x => x != CloudName(n)),
                         dir.(files := dir.files.(clouds := dir.files.clouds - {n})))
  {
    var p := x => x != CloudName(n);
    var rest := Select(order, p);
    SelectNoDup(order, p);
    forall name ensures name in rest <==> name in order && name != CloudName(n) {
      SelectIn(order, p, name);
    }
    forall k | k in dir.files.clouds && k != n ensures CloudName(k) in rest {
      CloudEntry(k, _ => 0);
      CloudEntry(n, _ => 0);
    }
  }

  lemma DirUnlisted(order: seq<string>, t: Tree, d: Stamp)
    requires IsRootListing(order, t)
    ensures IsRootListing(Select(order, x => StringToTime(x) != d), t - {d})
  {
    hide StringToTime, IsStamp;
    var p := x => StringToTime(x) != d;
    var rest := Select(order, p);
    SelectNoDup(order, p);
    forall name ensures name in rest <==> name in order && StringToTime(name) != d {
      SelectIn(order, p, name);
    }
    forall e | e in t - {d} ensures exists name :: name in rest && IsDirEntry(name) && StringToTime(name) == e {
      var name :| name in order && IsDirEntry(name) && StringToTime(name) == e;
      assert name in rest;
    }
  }
}
