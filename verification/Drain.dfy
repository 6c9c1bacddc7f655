/**
 The transmission thread's loop over its connection with a quiet server: no logger and no connection loss. It moves
 everything, or stops at the first directory that cannot be moved, or where the user stops it.
 */
module Drain {
  import opened Basics
  import opened Archive
  import opened Exchanges
  import opened Frames
  import opened ServerChildren
  import opened Timestamps
  import P = Protocol

  /** A directory the loop can move: it has a point cloud and all four metadata files. */
  ghost predicate Transferable(dir: Dir) {
    dir.files.clouds != map[] && forall m: Meta :: m in dir.files.metas
  }

  ghost predicate AllResolve(t: Tree, d: Stamp, lidar: nat) {
    forall m: Meta :: Resolve(t, d, lidar, m).Some?
  }

  /** The metadata in f are those that the server finds for d. */
  ghost predicate HasMetas(t: Tree, d: Stamp, lidar: nat, f: Folder)
    requires AllResolve(t, d, lidar)
  {
    forall m: Meta :: m in f.metas && f.metas[m] == Resolve(t, d, lidar, m).value
  }

  /** What the client has of session d while its transfer is unfinished. */
  function Copy(st: P.Store, d: Stamp): Folder {
    if P.Active(d) in st then st[P.Active(d)] else EMPTY_FOLDER
  }

  /** The client has all of d, under its final name: what it had before and everything the server had. */
  predicate Moved(before: P.Store, dirs: Tree, st: P.Store, d: Stamp)
    requires d in dirs
  {
    && P.Active(d) !in st && P.Final(d) in st
    && st[P.Final(d)] == Folder(Copy(before, d).clouds + dirs[d].files.clouds,
       Copy(before, d).metas + dirs[d].files.metas)
  }

  function Files(t: Tree): set<(Stamp, nat)> {
    set d, n | d in t && n in t[d].files.clouds :: (d, n)
  }

  /** Session d is as it was on the server, but for point clouds that the client now has. */
  ghost predicate Partial(before: P.Store, dirs: Tree, now: Tree, st: P.Store, d: Stamp)
    requires d in dirs && d in now
  {
    && now[d].lidar == dirs[d].lidar && now[d].files.metas == dirs[d].files.metas
    && now[d].files.clouds.Keys <= dirs[d].files.clouds.Keys
    && (forall n | n in now[d].files.clouds :: now[d].files.clouds[n] == dirs[d].files.clouds[n])
    && P.Final(d) !in st
    && Copy(st, d).clouds == Copy(before, d).clouds + (dirs[d].files.clouds - now[d].files.clouds.Keys)
    && Copy(st, d).metas == Copy(before, d).metas
  }

  /** What is left on the server is the youngest part of what was there; the rest has been moved. */
  ghost predicate Suffix(before: P.Store, dirs: Tree, now: Tree, st: P.Store) {
    && now.Keys <= dirs.Keys
    && (forall d | d in dirs && d !in now ::
          Transferable(dirs[d]) && Moved(before, dirs, st, d) && forall e | e in now :: d < e)
  }

  /** The rest of the client's disk. */
  ghost predicate OthersKept(before: P.Store, dirs: Tree, st: P.Store) {
    forall l: P.LocalDir | l.d !in dirs :: (l in st <==> l in before) && (l in st ==> st[l] == before[l])
  }

  /** The thread stopped at `bad`: everything older was moved, nothing younger was touched, the point clouds of `bad`
      are with the client and its metadata still on the server. */
  ghost predicate StoppedAt(before: P.Store, dirs: Tree, now: Tree, st: P.Store, bad: Stamp) {
    && bad in dirs && !Transferable(dirs[bad])
    && (forall d | d in dirs :: d in now <==> bad <= d)
    && (forall d | d in dirs && d < bad :: Transferable(dirs[d]) && Moved(before, dirs, st, d))
    && (forall d | d in now && d in dirs && d != bad :: now[d] == dirs[d])
    && now[bad] == dirs[bad].(files := dirs[bad].files.(clouds := map[]))
    && (forall n | n in dirs[bad].files.clouds ::
         n in Copy(st, bad).clouds && Copy(st, bad).clouds[n] == dirs[bad].files.clouds[n])
  }

  /** What holds each time the thread asks for the next file. */
  ghost predicate LoopInv(before: P.Store, dirs: Tree, now: Tree, st: P.Store,
                          tr: Option<(Stamp, nat)>, dir: Option<Stamp>, asked: nat)
  {
    && Suffix(before, dirs, now, st) && OthersKept(before, dirs, st)
    && (forall d | d in now :: d in dirs && Partial(before, dirs, now, st, d))
    && (forall d | d in now :: now[d].files == dirs[d].files || dir == Some(d))
    && (dir.Some? ==>
          && dir.value in dirs && tr == Some((dir.value, dirs[dir.value].lidar))
             && dirs[dir.value].files.clouds != map[]
          && (dir.value in now ==> P.Active(dir.value) in st && forall e | e in now :: dir.value <= e))
    && asked + |Files(now)| + |now| == |Files(dirs)| + |dirs|
  }

  /** The transfer has come part of the way, in `asked` requests: what has left the server altogether has been moved,
      and what has not is as it was, but for point clouds that the client now has. */
  ghost predicate PartWay(before: P.Store, dirs: Tree, now: Tree, st: P.Store, asked: nat) {
    && Suffix(before, dirs, now, st)
    && (forall d | d in now :: d in dirs && Partial(before, dirs, now, st, d))
    && (asked + |Files(now)| + |now| == |Files(dirs)| + |dirs|
        || (now == map[] && asked == |Files(dirs)| + |dirs| + 1))
  }

  /** What holds after a round: the thread has failed, the server has said that nothing is left, or neither. */
  ghost predicate RoundOk(before: P.Store, dirs: Tree, now: Tree, st: P.Store,
                          tr: Option<(Stamp, nat)>, dir: Option<Stamp>, asked: nat, over: bool, failed: bool)
  {
    if failed then OthersKept(before, dirs, st) && exists bad :: StoppedAt(before, dirs, now, st, bad)
    else if over then asked > 0 && now == map[] && LoopInv(before, dirs, now, st, tr, dir, asked - 1)
    else LoopInv(before, dirs, now, st, tr, dir, asked)
  }

  lemma RoundMeans(before: P.Store, dirs: Tree, now: Tree, st: P.Store, tr: Option<(Stamp, nat)>, dir: Option<Stamp>,
                   asked: nat, over: bool, failed: bool)
    ensures !failed && !over ==> (RoundOk(before, dirs, now, st, tr, dir, asked, over, failed) <==>
                                  LoopInv(before, dirs, now, st, tr, dir, asked))
    ensures !failed && over && asked > 0 && now == map[] && LoopInv(before, dirs, now, st, tr, dir, asked - 1) ==>
              RoundOk(before, dirs, now, st, tr, dir, asked, over, failed)
    ensures failed && OthersKept(before, dirs, st) && (exists bad :: StoppedAt(before, dirs, now, st, bad)) ==>
              RoundOk(before, dirs, now, st, tr, dir, asked, over, failed)
  {
  }

  /** The thread has failed at a directory that could not be moved. */
  lemma FailedMeans(before: P.Store, dirs: Tree, now: Tree, st: P.Store, tr: Option<(Stamp, nat)>, dir: Option<Stamp>,
                    asked: nat, over: bool)
    requires RoundOk(before, dirs, now, st, tr, dir, asked, over, true)
    ensures OthersKept(before, dirs, st) && exists bad :: StoppedAt(before, dirs, now, st, bad)
    ensures !forall d | d in dirs :: Transferable(dirs[d])
  {
    var bad :| StoppedAt(before, dirs, now, st, bad);
    assert bad in dirs && !Transferable(dirs[bad]);
  }

  /** The loop has ended well: at the end of everything, or because the user stopped it. */
  lemma EndedMeans(before: P.Store, dirs: Tree, now: Tree, st: P.Store, tr: Option<(Stamp, nat)>, dir: Option<Stamp>,
                   asked: nat, over: bool)
    requires RoundOk(before, dirs, now, st, tr, dir, asked, over, false)
    ensures OthersKept(before, dirs, st) && PartWay(before, dirs, now, st, asked)
    ensures over ==> now == map[] && asked == |Files(dirs)| + |dirs| + 1
                     && forall d | d in dirs :: Transferable(dirs[d]) && Moved(before, dirs, st, d)
  {
    hide Partial, Suffix, Files, Moved, Transferable;
    if over {
      AllMoved(before, dirs, st, tr, dir, asked - 1);
      AllIsPartWay(before, dirs, st, tr, dir, asked - 1);
    } else {
      LoopIsPartWay(before, dirs, now, st, tr, dir, asked);
    }
  }

  lemma FewerFiles(t: Tree, d: Stamp, n: nat)
    requires d in t && n in t[d].files.clouds
    ensures |Files(WithoutCloud(t, d, n))| == |Files(t)| - 1 && |WithoutCloud(t, d, n)| == |t|
  {
    assert Files(WithoutCloud(t, d, n)) == Files(t) - {(d, n)};
    assert WithoutCloud(t, d, n).Keys == t.Keys;
  }

  lemma FewerDirs(t: Tree, d: Stamp)
    requires d in t && t[d].files.clouds == map[]
    ensures Files(t - {d}) == Files(t) && |t - {d}| == |t| - 1
  {
  }

  lemma PartialAfterCloud(before: P.Store, dirs: Tree, now: Tree, st: P.Store, d: Stamp, n: nat)
    requires d in dirs && d in now && Partial(before, dirs, now, st, d) && n in now[d].files.clouds
    ensures Partial(before, dirs, WithoutCloud(now, d, n),
            P.WriteCloud(P.WithDir(st, d), d, n, now[d].files.clouds[n]), d)
    ensures now[d].lidar == dirs[d].lidar && dirs[d].files.clouds != map[]
  {
    var now', st' := WithoutCloud(now, d, n), P.WriteCloud(P.WithDir(st, d), d, n, now[d].files.clouds[n]);
    var got, want := Copy(st', d).clouds, Copy(before, d).clouds + (dirs[d].files.clouds - now'[d].files.clouds.Keys);
    assert got.Keys == want.Keys;
    assert got == want;
  }

  /** A session whose directories do not change stays as it is. */
  lemma PartialKept(before: P.Store, dirs: Tree, now: Tree, now': Tree, st: P.Store, st': P.Store, e: Stamp)
    requires e in dirs && e in now && e in now' && Partial(before, dirs, now, st, e) && now'[e] == now[e]
    requires forall l: P.LocalDir | l.d == e :: (l in st' <==> l in st) && (l in st ==> st'[l] == st[l])
    ensures Partial(before, dirs, now', st', e)
  {
  }

  lemma SuffixKept(before: P.Store, dirs: Tree, now: Tree, now': Tree, st: P.Store, st': P.Store, d: Stamp)
    requires Suffix(before, dirs, now, st) && d in dirs && d in now && now'.Keys == now.Keys
    requires forall l: P.LocalDir | l.d != d :: (l in st' <==> l in st) && (l in st ==> st'[l] == st[l])
    ensures Suffix(before, dirs, now', st')
  {
  }

  /** A point cloud was stored and removed. */
  lemma AfterCloud(before: P.Store, dirs: Tree, now: Tree, st: P.Store,
                   tr: Option<(Stamp, nat)>, dir: Option<Stamp>, asked: nat, d: Stamp, n: nat)
    requires LoopInv(before, dirs, now, st, tr, dir, asked) && IsOldest(now, d) && n in now[d].files.clouds
    ensures LoopInv(before, dirs, WithoutCloud(now, d, n), P.WriteCloud(P.WithDir(st, d), d, n, now[d].files.clouds[n]),
                    Some((d, now[d].lidar)), Some(d), asked + 1)
  {
    hide Partial, Suffix, Files;
    var now', st' := WithoutCloud(now, d, n), P.WriteCloud(P.WithDir(st, d), d, n, now[d].files.clouds[n]);
    FewerFiles(now, d, n);
    assert now'.Keys == now.Keys;
    PartialAfterCloud(before, dirs, now, st, d, n);
    SuffixKept(before, dirs, now, now', st, st', d);
    forall e | e in now' ensures e in dirs && Partial(before, dirs, now', st', e) {
      if e != d {
        PartialKept(before, dirs, now, now', st, st', e);
      }
    }
  }

  lemma MovedAfterDir(before: P.Store, dirs: Tree, now: Tree, st: P.Store, sm: P.Store, d: Stamp)
    requires d in dirs && d in now && Partial(before, dirs, now, st, d) && now[d].files.clouds == map[]
    requires AllResolve(now, d, now[d].lidar) && dirs[d].files.clouds != map[]
    requires P.Active(d) in st && sm.Keys == st.Keys
    requires sm[P.Active(d)].clouds == st[P.Active(d)].clouds
    requires sm[P.Active(d)].metas == st[P.Active(d)].metas + now[d].files.metas
    ensures Transferable(dirs[d]) && Moved(before, dirs, P.Rename(sm, d, d), d)
  {
    assert dirs[d].files.clouds - now[d].files.clouds.Keys == dirs[d].files.clouds;
    ResolvedIsWhole(now, d);
  }

  lemma SuffixAfterDir(before: P.Store, dirs: Tree, now: Tree, st: P.Store, st': P.Store, d: Stamp)
    requires Suffix(before, dirs, now, st) && d in dirs && IsOldest(now, d)
    requires Transferable(dirs[d]) && Moved(before, dirs, st', d)
    requires forall l: P.LocalDir | l.d != d :: (l in st' <==> l in st) && (l in st ==> st'[l] == st[l])
    ensures Suffix(before, dirs, now - {d}, st')
  {
  }

  /** The metadata was stored, and the directory removed and renamed. */
  lemma AfterDir(before: P.Store, dirs: Tree, now: Tree, st: P.Store, sm: P.Store,
                 tr: Option<(Stamp, nat)>, dir: Option<Stamp>, asked: nat, d: Stamp)
    requires LoopInv(before, dirs, now, st, tr, dir, asked)
    requires IsOldest(now, d) && now[d].files.clouds == map[] && dir == Some(d)
    requires AllResolve(now, d, now[d].lidar)
    requires sm.Keys == st.Keys && (forall l | l in sm && l != P.Active(d) :: sm[l] == st[l])
    requires P.Active(d) in st && sm[P.Active(d)].clouds == st[P.Active(d)].clouds
    requires sm[P.Active(d)].metas == st[P.Active(d)].metas + now[d].files.metas
    ensures LoopInv(before, dirs, now - {d}, P.Rename(sm, d, d), tr, dir, asked + 1)
  {
    hide Partial, Suffix, Moved, Transferable, AllResolve, Files;
    var now', st' := now - {d}, P.Rename(sm, d, d);
    FewerDirs(now, d);
    MovedAfterDir(before, dirs, now, st, sm, d);
    SuffixAfterDir(before, dirs, now, st, st', d);
    forall e | e in now' ensures e in dirs && Partial(before, dirs, now', st', e) {
      PartialKept(before, dirs, now, now', st, st', e);
    }
  }

  lemma ResolvedIsWhole(t: Tree, d: Stamp)
    requires d in t
    ensures AllResolve(t, d, t[d].lidar) <==> forall m: Meta :: m in t[d].files.metas
  {
    forall m: Meta ensures Resolve(t, d, t[d].lidar, m).Some? <==> m in t[d].files.metas {
    }
  }

  /** When the metadata of the oldest directory was obtained, it is the last session sent, and has been added. */
  lemma MetasMerged(before: P.Store, dirs: Tree, now: Tree, st: P.Store, sm: P.Store,
                    tr: Option<(Stamp, nat)>, dir: Option<Stamp>, asked: nat, d: Stamp)
    requires LoopInv(before, dirs, now, st, tr, dir, asked) && IsOldest(now, d) && dir.Some?
    requires AllResolve(now, tr.value.0, tr.value.1)
    requires P.Active(dir.value) in st && sm.Keys == st.Keys
             && HasMetas(now, tr.value.0, tr.value.1, sm[P.Active(dir.value)])
    ensures dir == Some(d) && tr == Some((d, now[d].lidar))
    ensures sm[P.Active(d)].metas == st[P.Active(d)].metas + now[d].files.metas
  {
    hide Suffix, OthersKept, Files, Transferable;
    assert Resolve(now, dir.value, tr.value.1, TofCsv).Some?;
    assert dir.value == d && Partial(before, dirs, now, st, d);
    var got, want := sm[P.Active(d)].metas, st[P.Active(d)].metas + now[d].files.metas;
    ResolvedIsWhole(now, d);
    forall m: Meta ensures m in got && m in want && got[m] == want[m] {
      assert Resolve(now, d, now[d].lidar, m) == Some(now[d].files.metas[m]);
    }
    assert got.Keys == want.Keys;
  }

  /** When a directory is reported empty and its metadata cannot be obtained, it was not transferable. */
  lemma NotTransferable(before: P.Store, dirs: Tree, now: Tree, st: P.Store,
                        tr: Option<(Stamp, nat)>, dir: Option<Stamp>, asked: nat, d: Stamp)
    requires LoopInv(before, dirs, now, st, tr, dir, asked) && IsOldest(now, d) && now[d].files.clouds == map[]
    requires !(tr.Some? && dir.Some? && P.Active(dir.value) in st && AllResolve(now, tr.value.0, tr.value.1))
    ensures !Transferable(dirs[d])
  {
  }

  lemma StoppedThere(before: P.Store, dirs: Tree, now: Tree, st: P.Store, sm: P.Store,
                     tr: Option<(Stamp, nat)>, dir: Option<Stamp>, asked: nat, d: Stamp)
    requires LoopInv(before, dirs, now, st, tr, dir, asked) && IsOldest(now, d) && now[d].files.clouds == map[]
    requires !Transferable(dirs[d])
    requires sm.Keys == st.Keys && (forall l | l in sm && (l.Final? || dir != Some(l.d)) :: sm[l] == st[l])
    requires forall l | l in sm :: sm[l].clouds == st[l].clouds
    ensures StoppedAt(before, dirs, now, sm, d) && OthersKept(before, dirs, sm)
  {
    hide Transferable, Files;
    assert Partial(before, dirs, now, st, d);
    forall e | e in dirs && e < d ensures Transferable(dirs[e]) && Moved(before, dirs, sm, e) {
      assert Moved(before, dirs, st, e);
    }
    forall e | e in now && e != d ensures now[e] == dirs[e] {
      assert Partial(before, dirs, now, st, e);
    }
  }

  lemma StartsThere(before: P.Store, dirs: Tree, tr: Option<(Stamp, nat)>)
    requires forall d | d in dirs :: P.Final(d) !in before
    ensures LoopInv(before, dirs, dirs, before, tr, None, 0)
  {
  }

  /** With no logger, SEND_NEXT is answered with the next point cloud, an empty directory, or the end. */
  lemma QuietAnswer(t: Tree, r: P.Reply)
    requires AnswersNext(t, false, r)
    ensures r == P.NoTr <==> t == map[]
    ensures r.NoTr? || r.Sending? || r.Empty?
    ensures r.Sending? ==> IsOldest(t, r.d) && HasCloud(t, r.d, r.lidar, r.n)
                           && r.d in t && r.n in t[r.d].files.clouds && r.body == t[r.d].files.clouds[r.n]
    ensures r.Empty? ==> IsOldest(t, r.d) && r.d in t && t[r.d].files.clouds == map[]
  {
  }

  lemma ServedRemovals(t: Tree, d: Stamp, lidar: nat, n: nat)
    requires IsOldest(t, d)
    ensures d in t
    ensures t[d].lidar == lidar && n in t[d].files.clouds ==> HasCloud(t, d, lidar, n)
    ensures HasCloud(t, d, lidar, n) ==>
              t[d].lidar == lidar && n in t[d].files.clouds
              && P.ServeTree(t, P.RemoveFile(d, lidar, n)) == (WithoutCloud(t, d, n), P.FileRemoved)
    ensures P.ServeTree(t, P.RemoveDir(d)) == (t - {d}, P.DirRemoved)
  {
  }

  lemma LoopCounts(before: P.Store, dirs: Tree, now: Tree, st: P.Store, tr: Option<(Stamp, nat)>, dir: Option<Stamp>,
      asked: nat)
    requires LoopInv(before, dirs, now, st, tr, dir, asked)
    ensures asked + |Files(now)| + |now| == |Files(dirs)| + |dirs|
  {
  }

  /** Nothing is left: everything was transferable and has been moved. */
  lemma AllMoved(before: P.Store, dirs: Tree, st: P.Store, tr: Option<(Stamp, nat)>, dir: Option<Stamp>, asked: nat)
    requires LoopInv(before, dirs, map[], st, tr, dir, asked)
    ensures forall d | d in dirs :: Transferable(dirs[d]) && Moved(before, dirs, st, d)
    ensures asked == |Files(dirs)| + |dirs| && OthersKept(before, dirs, st)
  {
  }

  lemma AllIsPartWay(before: P.Store, dirs: Tree, st: P.Store, tr: Option<(Stamp, nat)>, dir: Option<Stamp>, asked: nat)
    requires LoopInv(before, dirs, map[], st, tr, dir, asked)
    ensures PartWay(before, dirs, map[], st, asked + 1)
  {
    hide Partial, Moved, Transferable;
    AllMoved(before, dirs, st, tr, dir, asked);
  }

  lemma LoopIsPartWay(before: P.Store, dirs: Tree, now: Tree, st: P.Store,
                      tr: Option<(Stamp, nat)>, dir: Option<Stamp>, asked: nat)
    requires LoopInv(before, dirs, now, st, tr, dir, asked)
    ensures PartWay(before, dirs, now, st, asked) && OthersKept(before, dirs, st)
  {
    hide Partial, Suffix, Files;
  }

  /** A client that starts with nothing ends with exactly what the server had. */
  lemma EmptyClientGetsTree(dirs: Tree, st: P.Store)
    requires forall d | d in dirs :: Moved(map[], dirs, st, d)
    requires OthersKept(map[], dirs, st)
    ensures forall l :: l in st <==> l.Final? && l.d in dirs
    ensures forall d | d in dirs :: st[P.Final(d)] == dirs[d].files
  {
    forall l ensures l in st <==> l.Final? && l.d in dirs {
      if l.d in dirs {
        assert Moved(map[], dirs, st, l.d);
      }
    }
    forall d | d in dirs ensures st[P.Final(d)] == dirs[d].files {
      assert Moved(map[], dirs, st, d);
      assert map[] + dirs[d].files.clouds == dirs[d].files.clouds && map[] + dirs[d].files.metas == dirs[d].files.metas;
    }
  }

  // ---------- the exchanges as steps of the protocol ----------

  /** The protocol is in a state with this tree, logger and thread. */
  predicate Like(s: P.State, dirs: Tree, alive: bool, cl: P.Client) {
    && s.srv.dirs == dirs && (s.srv.logger.Off? <==> !alive) && s.cl == cl
    && s.past.meant.Keys == s.cl.store.Keys
  }

  /** The reply r waits for the thread. */
  predicate Replies(s: P.State, r: P.Reply) {
    s.link == P.Replied(r)
  }

  /** A command is sent. */
  lemma Asks(s: P.State) returns (s': P.State)
    requires P.CanAsk(s.cl.pc)
    ensures P.Reach(s, s')
    ensures s' == s.(cl := s.cl.(pc := P.Awaiting(s.cl.pc)), link := P.Sent(P.NextCommand(s.cl.pc)))
  {
    hide P.Reach, P.LoggerStep, P.ServerStep, P.Awaiting, P.NextCommand;
    P.ReachSelf(s);
    P.ReachStep(s, s, P.Ask);
    s' := P.Step(s, P.Ask);
  }

  /** It is served. */
  lemma IsServed(s: P.State, at: P.State) returns (s': P.State)
    requires P.Reach(s, at) && at.link.Sent? && !at.link.c.SendNext?
    ensures P.Reach(s, s')
    ensures s' == at.(srv := P.Serve(at.srv, at.link.c).0, link := P.Replied(P.Serve(at.srv, at.link.c).1))
  {
    hide P.Reach, P.LoggerStep, P.ClientStep, P.Serve;
    var e := match at.link.c
      case RemoveFile(_, _, _) => P.ServeRemoveFile
      case SendFile(_, _, _) => P.ServeSendFile
      case _ => P.ServeRemoveDir;
    P.ReachStep(s, at, e);
    s' := P.Step(at, e);
  }

  /** A step of the client. */
  lemma ClientGoesOn(s: P.State, at: P.State, e: P.Event) returns (s': P.State)
    requires P.Reach(s, at) && P.ClientEnabled(at, e)
    ensures s' == P.ClientStep(at, e) && P.Reach(s, s')
  {
    hide P.Reach, P.ClientStep, P.LoggerStep, P.ServerStep;
    P.ReachStep(s, at, e);
    s' := P.ClientStep(at, e);
  }

  lemma NextExchange(s: P.State, dirs: Tree, alive: bool, cl: P.Client, r: P.Reply) returns (s': P.State)
    requires Like(s, dirs, alive, cl) && cl.pc.Top? && AnswersNext(dirs, alive, r)
    ensures P.Reach(s, s') && Like(s', dirs, alive, cl.(pc := P.AwaitNext)) && Replies(s', r)
  {
    hide AnswersNext, P.Reach;
    var asked := Asks(s);
    s' := AnswerIsProtocolRun(asked, r);
    P.ReachOn(s, asked, s');
  }

  /** The thread goes on or, if the user has stopped the transmission, ends well. */
  function AfterRound(cl: P.Client): P.Client {
    if cl.running then cl.(pc := P.Top) else cl.(pc := P.Ended, status := 0)
  }

  lemma StopComes(s: P.State, dirs: Tree, alive: bool, cl: P.Client) returns (s': P.State)
    requires Like(s, dirs, alive, cl)
    ensures P.Reach(s, s') && Like(s', dirs, alive, cl.(running := false))
  {
    P.ReachSelf(s);
    s' := ClientGoesOn(s, s, P.UserStop);
  }

  lemma CloudExchange(s: P.State, dirs: Tree, alive: bool, cl: P.Client, r: P.Reply) returns (s': P.State)
    requires Like(s, dirs, alive, cl) && cl.pc.AwaitNext? && Replies(s, r)
    requires r.Sending? && HasCloud(dirs, r.d, r.lidar, r.n)
    ensures P.Reach(s, s')
    ensures Like(s', WithoutCloud(dirs, r.d, r.n), alive,
                 AfterRound(P.Client(P.Top, cl.status, cl.running, Some((r.d, r.lidar)), Some(r.d),
                                     P.WriteCloud(P.WithDir(cl.store, r.d), r.d, r.n, r.body))))
  {
    hide P.Reach, Like;
    var s1 := CloudArrives(s, dirs, alive, cl, r);
    var has := P.Client(P.MustRemove(r.d, r.lidar, r.n), cl.status, cl.running, Some((r.d, r.lidar)), Some(r.d),
                        P.WriteCloud(P.WithDir(cl.store, r.d), r.d, r.n, r.body));
    s' := CloudGoes(s1, dirs, alive, has);
    P.ReachOn(s, s1, s');
  }

  lemma CloudOpened(s: P.State, dirs: Tree, alive: bool, cl: P.Client, r: P.Reply) returns (s': P.State)
    requires Like(s, dirs, alive, cl) && cl.pc.AwaitNext? && Replies(s, r) && r.Sending?
    ensures P.Reach(s, s') && P.HasDir(s') && P.Active(r.d) in P.WithDir(cl.store, r.d)
    ensures Like(s', dirs, alive,
                 P.Client(P.Storing(r.d, r.lidar, r.n, r.body, 0), cl.status, cl.running, Some((r.d, r.lidar)),
                          Some(r.d), P.WriteCloud(P.WithDir(cl.store, r.d), r.d, r.n, [])))
  {
    hide P.Reach, P.WriteCloud;
    P.ReachSelf(s);
    var s1 := ClientGoesOn(s, s, P.GetReply);
    CloudKeys(s1.cl.store, r.d, r.n, [], []);
    CloudKeys(s1.past.meant, r.d, r.n, [], r.body);
    s' := ClientGoesOn(s, s1, P.GetBody);
  }

  lemma CloudArrives(s: P.State, dirs: Tree, alive: bool, cl: P.Client, r: P.Reply) returns (s': P.State)
    requires Like(s, dirs, alive, cl) && cl.pc.AwaitNext? && Replies(s, r) && r.Sending?
    ensures P.Reach(s, s')
    ensures Like(s', dirs, alive,
                 P.Client(P.MustRemove(r.d, r.lidar, r.n), cl.status, cl.running, Some((r.d, r.lidar)), Some(r.d),
                          P.WriteCloud(P.WithDir(cl.store, r.d), r.d, r.n, r.body)))
  {
    hide P.Reach, P.WriteCloud, P.WithDir;
    var begun := CloudOpened(s, dirs, alive, cl, r);
    CloudKeys(P.WithDir(cl.store, r.d), r.d, r.n, [], r.body);
    CloudKeys(P.WithDir(cl.store, r.d), r.d, r.n, [], []);
    assert r.body[..|r.body|] == r.body;
    s' := FileIsWritten(s, begun);
  }

  lemma CloudKeys(st: P.Store, d: Stamp, n: nat, was: Bytes, body: Bytes)
    requires P.Active(d) in st
    ensures P.WriteCloud(st, d, n, body).Keys == st.Keys
    ensures P.WriteCloud(P.WriteCloud(st, d, n, was), d, n, body) == P.WriteCloud(st, d, n, body)
  {
    var once, twice := P.WriteCloud(st, d, n, body), P.WriteCloud(P.WriteCloud(st, d, n, was), d, n, body);
    assert twice[P.Active(d)].clouds == once[P.Active(d)].clouds;
    assert twice[P.Active(d)] == once[P.Active(d)];
  }

  lemma MetaKeys(st: P.Store, d: Stamp, m: Meta, was: Bytes, body: Bytes)
    requires P.Active(d) in st
    ensures P.WriteLocalMeta(st, d, m, body).Keys == st.Keys
    ensures P.WriteLocalMeta(P.WriteLocalMeta(st, d, m, was), d, m, body) == P.WriteLocalMeta(st, d, m, body)
  {
    var once, twice := P.WriteLocalMeta(st, d, m, body), P.WriteLocalMeta(P.WriteLocalMeta(st, d, m, was), d, m, body);
    assert twice[P.Active(d)].metas == once[P.Active(d)].metas;
    assert twice[P.Active(d)] == once[P.Active(d)];
  }

  /** The file that has been opened is written and closed. */
  lemma FileIsWritten(s: P.State, begun: P.State) returns (s': P.State)
    requires P.Reach(s, begun) && P.IsStoring(begun.cl.pc) && begun.cl.pc.written == 0 && P.HasDir(begun)
    requires begun.cl.pc.body == [] ==> P.StoreUpTo(begun, 0) == begun
    ensures P.Reach(s, s')
    ensures s' == P.StoreUpTo(begun, |begun.cl.pc.body|).(cl := s'.cl)
    ensures s'.cl == P.StoreUpTo(begun, |begun.cl.pc.body|).cl.(pc := P.AfterStore(begun.cl.pc))
  {
    hide P.Reach, P.WriteCloud, P.WriteLocalMeta;
    var n := |begun.cl.pc.body|;
    var full := begun;
    if n > 0 {
      full := ClientGoesOn(s, begun, P.StoreMore(n));
    }
    s' := ClientGoesOn(s, full, P.StoreDone);
  }

  lemma CloudGoes(s: P.State, dirs: Tree, alive: bool, cl: P.Client) returns (s': P.State)
    requires Like(s, dirs, alive, cl) && cl.pc.MustRemove?
             && HasCloud(dirs, cl.pc.d, cl.pc.lidar, cl.pc.n)
    ensures P.Reach(s, s') && Like(s', WithoutCloud(dirs, cl.pc.d, cl.pc.n), alive, AfterRound(cl))
  {
    hide P.Reach;
    var asked := Asks(s);
    var served := IsServed(s, asked);
    s' := ClientGoesOn(s, served, P.GetReply);
  }

  function AfterMeta(folder: Stamp, from: Stamp, lidar: nat, m: Meta): P.Pc {
    if m == ImuInfo then P.MustRemoveDir(folder) else P.AskMeta(folder, from, lidar, MetaRank(m) + 1)
  }

  /** A metadata request: the file found, if it is found and there is a place for it, is stored. */
  lemma MetaExchange(s: P.State, dirs: Tree, alive: bool, cl: P.Client, folder: Stamp, from: Stamp, lidar: nat, m: Meta)
    returns (s': P.State)
    requires Like(s, dirs, alive, cl) && cl.pc == P.AskMeta(folder, from, lidar, MetaRank(m))
    ensures P.Reach(s, s')
    ensures var found := Resolve(dirs, from, lidar, m);
            if found.Some? && cl.dir.Some? && P.Active(cl.dir.value) in cl.store then
              Like(s', dirs, alive, cl.(pc := AfterMeta(folder, from, lidar, m),
                                        store := P.WriteLocalMeta(cl.store, cl.dir.value, m, found.value)))
            else Like(s', dirs, alive, cl.(pc := P.Ended, status := -1))
  {
    hide P.Reach, Resolve, P.WriteLocalMeta, P.ClientStep;
    var answered := MetaAnswered(s, MetaRank(m));
    if P.HasDir(answered) && answered.link.r.Requested? {
      s' := MetaArrives(s, answered, m);
    } else {
      s' := ClientGoesOn(s, answered, P.GetReply);
      MetaFails(answered);
    }
  }

  lemma MetaFails(s: P.State)
    requires P.ClientEnabled(s, P.GetReply) && s.cl.pc.AwaitMeta? && !(s.link.r.Requested? && P.HasDir(s))
    ensures P.ClientStep(s, P.GetReply) == P.Exit(s, -1)
  {
  }

  lemma MetaArrives(s: P.State, at: P.State, m: Meta) returns (s': P.State)
    requires P.Reach(s, at) && P.HasDir(at) && at.past.meant.Keys == at.cl.store.Keys
    requires at.cl.pc.AwaitMeta? && at.cl.pc.k == MetaRank(m) && at.link.Replied? && at.link.r.Requested?
    ensures P.Reach(s, s') && s'.srv == at.srv && s'.past.meant.Keys == at.past.meant.Keys
    ensures s'.cl == at.cl.(pc := AfterMeta(at.cl.pc.folder, at.cl.pc.from, at.cl.pc.lidar, m),
                            store := P.WriteLocalMeta(at.cl.store, at.cl.dir.value, m, at.link.r.body))
    ensures s'.cl.store.Keys == at.cl.store.Keys
  {
    hide P.Reach, P.WriteLocalMeta;
    var d, body := at.cl.dir.value, at.link.r.body;
    MetaKeys(at.cl.store, d, m, [], body);
    MetaKeys(at.past.meant, d, m, [], body);
    MetaKeys(at.cl.store, d, m, [], []);
    assert body[..|body|] == body;
    var begun := ClientGoesOn(s, at, P.GetReply);
    s' := FileIsWritten(s, begun);
  }

  lemma MetaAnswered(s: P.State, k: nat) returns (s': P.State)
    requires s.cl.pc.AskMeta? && s.cl.pc.k == k < 4
    ensures P.Reach(s, s') && s'.srv == s.srv && s'.past == s.past
    ensures var pc := s.cl.pc;
            && s'.cl == s.cl.(pc := P.AwaitMeta(pc.folder, pc.from, pc.lidar, pc.k))
            && var found := Resolve(s.srv.dirs, pc.from, pc.lidar, MetaAt(k));
               s'.link == P.Replied(if found.Some? then P.Requested(found.value) else P.Error)
  {
    hide P.Reach, Resolve;
    var asked := Asks(s);
    s' := IsServed(s, asked);
  }

  lemma EmptyComes(s: P.State, dirs: Tree, alive: bool, cl: P.Client, r: P.Reply) returns (s': P.State)
    requires Like(s, dirs, alive, cl) && cl.pc.AwaitNext? && Replies(s, r) && r.Empty?
    ensures P.Reach(s, s')
    ensures if cl.tr.Some? then Like(s', dirs, alive, cl.(pc := P.AskMeta(r.d, cl.tr.value.0, cl.tr.value.1, 0)))
            else Like(s', dirs, alive, cl.(pc := P.Ended, status := -1))
  {
    P.ReachSelf(s);
    s' := ClientGoesOn(s, s, P.GetReply);
  }

  lemma DirExchange(s: P.State, dirs: Tree, alive: bool, cl: P.Client, d: Stamp) returns (s': P.State)
    requires Like(s, dirs, alive, cl) && cl.pc == P.MustRemoveDir(d) && d in dirs && cl.dir.Some?
    ensures P.Reach(s, s')
    ensures Like(s', dirs - {d}, alive, AfterRound(cl.(pc := P.Top, store := P.Rename(cl.store, cl.dir.value, d))))
  {
    hide P.Reach;
    var asked := Asks(s);
    var served := IsServed(s, asked);
    s' := ClientGoesOn(s, served, P.GetReply);
  }

  lemma EndComes(s: P.State, dirs: Tree, alive: bool, cl: P.Client) returns (s': P.State)
    requires Like(s, dirs, alive, cl) && cl.pc.AwaitNext? && Replies(s, P.NoTr)
    ensures P.Reach(s, s') && Like(s', dirs, alive, cl.(pc := P.Ended, status := 0))
  {
    P.ReachSelf(s);
    s' := ClientGoesOn(s, s, P.GetReply);
  }

  /** Between the two lists, the four metadata files have been asked for. */
  ghost predicate FourAsked(before: seq<(P.Command, P.Store)>, after: seq<(P.Command, P.Store)>, d: Stamp, lidar: nat) {
    && |after| == |before| + 4 && before <= after
    && forall k | 0 <= k < 4 :: after[|before| + k].0 == P.SendFile(d, lidar, MetaAt(k))
  }

  lemma AskedAll(before: seq<(P.Command, P.Store)>, after: seq<(P.Command, P.Store)>, d: Stamp, lidar: nat,
                 a: P.Store, b: P.Store, c: P.Store, e: P.Store)
    requires after == before + [(P.SendFile(d, lidar, TofCsv), a)] + [(P.SendFile(d, lidar, TofInfo), b)]
                      + [(P.SendFile(d, lidar, ImuCsv), c)] + [(P.SendFile(d, lidar, ImuInfo), e)]
    ensures FourAsked(before, after, d, lidar)
  {
  }

  lemma FourMore(before: seq<(P.Command, P.Store)>, after: seq<(P.Command, P.Store)>, d: Stamp, lidar: nat)
    requires FourAsked(before, after, d, lidar)
    ensures |after| == |before| + 4
  {
  }

  lemma RanksAre(folder: Stamp, d: Stamp, lidar: nat)
    ensures MetaRank(TofCsv) == 0 && MetaRank(TofInfo) == 1 && MetaRank(ImuCsv) == 2 && MetaRank(ImuInfo) == 3
    ensures AfterMeta(folder, d, lidar, TofCsv) == P.AskMeta(folder, d, lidar, MetaRank(TofInfo))
    ensures AfterMeta(folder, d, lidar, TofInfo) == P.AskMeta(folder, d, lidar, MetaRank(ImuCsv))
    ensures AfterMeta(folder, d, lidar, ImuCsv) == P.AskMeta(folder, d, lidar, MetaRank(ImuInfo))
    ensures AfterMeta(folder, d, lidar, ImuInfo) == P.MustRemoveDir(folder)
  {
  }

  /** Metadata m of the last session sent is found on the server, and there is a local directory for it. */
  predicate MetaFound(t: Tree, tr: Option<(Stamp, nat)>, dir: Option<Stamp>, m: Meta, st: P.Store) {
    tr.Some? && Resolve(t, tr.value.0, tr.value.1, m).Some? && dir.Some? && P.Active(dir.value) in st
  }

  /** The client's disk after it has asked for metadata m. */
  function Fetched(t: Tree, tr: Option<(Stamp, nat)>, dir: Option<Stamp>, m: Meta, st: P.Store): P.Store {
    if MetaFound(t, tr, dir, m, st) then
      P.WriteLocalMeta(st, dir.value, m, Resolve(t, tr.value.0, tr.value.1, m).value)
    else st
  }

  lemma MetaFoundMeans(t: Tree, tr: Option<(Stamp, nat)>, dir: Option<Stamp>, m: Meta, st: P.Store)
    ensures MetaFound(t, tr, dir, m, st) <==>
              tr.Some? && Resolve(t, tr.value.0, tr.value.1, m).Some? && dir.Some? && P.Active(dir.value) in st
    ensures Fetched(t, tr, dir, m, st) ==
            if MetaFound(t, tr, dir, m, st) then
              P.WriteLocalMeta(st, dir.value, m, Resolve(t, tr.value.0, tr.value.1, m).value)
            else st
  {
  }

  /** The four metadata files of the last session sent have been asked for, in their order: all are found and stored
      if and only if `ok`, and nothing else has changed. */
  ghost predicate FourStored(t: Tree, tr: Option<(Stamp, nat)>, dir: Option<Stamp>, st0: P.Store, st: P.Store, ok: bool)
    requires tr.Some?
  {
    && (ok <==> dir.Some? && P.Active(dir.value) in st0 && AllResolve(t, tr.value.0, tr.value.1))
    && (ok ==> P.Active(dir.value) in st && HasMetas(t, tr.value.0, tr.value.1, st[P.Active(dir.value)]))
    && st.Keys == st0.Keys
    && (forall l | l in st && (l.Final? || dir != Some(l.d)) :: st[l] == st0[l])
    && (forall l | l in st :: st[l].clouds == st0[l].clouds)
  }

  /** The first k metadata files have been found and stored; `st` differs from `st0` in nothing else. */
  ghost predicate FirstStored(t: Tree, tr: Option<(Stamp, nat)>, dir: Option<Stamp>, st0: P.Store, st: P.Store, k: nat)
    requires tr.Some?
  {
    && st.Keys == st0.Keys
    && (forall l | l in st && (l.Final? || dir != Some(l.d)) :: st[l] == st0[l])
    && (forall l | l in st :: st[l].clouds == st0[l].clouds)
    && (forall m: Meta | MetaRank(m) < k ::
          MetaFound(t, tr, dir, m, st0) && m in st[P.Active(dir.value)].metas
          && Some(st[P.Active(dir.value)].metas[m]) == Resolve(t, tr.value.0, tr.value.1, m))
  }

  lemma NoneStored(t: Tree, tr: Option<(Stamp, nat)>, dir: Option<Stamp>, st: P.Store)
    requires tr.Some?
    ensures FirstStored(t, tr, dir, st, st, 0)
  {
  }

  /** One more. */
  lemma OneStored(t: Tree, tr: Option<(Stamp, nat)>, dir: Option<Stamp>, st0: P.Store, st: P.Store, m: Meta)
    requires tr.Some? && FirstStored(t, tr, dir, st0, st, MetaRank(m)) && MetaFound(t, tr, dir, m, st)
    ensures FirstStored(t, tr, dir, st0, Fetched(t, tr, dir, m, st), MetaRank(m) + 1)
  {
    hide Resolve;
    var st' := Fetched(t, tr, dir, m, st);
    forall k: Meta | MetaRank(k) < MetaRank(m) + 1
      ensures MetaFound(t, tr, dir, k, st0) && k in st'[P.Active(dir.value)].metas
              && Some(st'[P.Active(dir.value)].metas[k]) == Resolve(t, tr.value.0, tr.value.1, k)
    {
      assert MetaRank(k) < MetaRank(m) || k == m;
    }
  }

  /** The first that is not found. */
  lemma NotAllFound(t: Tree, tr: Option<(Stamp, nat)>, dir: Option<Stamp>, st0: P.Store, st: P.Store, m: Meta)
    requires tr.Some? && FirstStored(t, tr, dir, st0, st, MetaRank(m)) && !MetaFound(t, tr, dir, m, st)
    ensures FourStored(t, tr, dir, st0, Fetched(t, tr, dir, m, st), false)
  {
    hide Resolve;
    assert AllResolve(t, tr.value.0, tr.value.1) ==> Resolve(t, tr.value.0, tr.value.1, m).Some?;
  }

  lemma AllFound(t: Tree, tr: Option<(Stamp, nat)>, dir: Option<Stamp>, st0: P.Store, st: P.Store)
    requires tr.Some? && FirstStored(t, tr, dir, st0, st, 4)
    ensures FourStored(t, tr, dir, st0, st, true)
  {
    hide Resolve;
    assert MetaFound(t, tr, dir, TofCsv, st0);
  }

  /** The metadata could not be obtained. */
  lemma DirStays(before: P.Store, dirs: Tree, now: Tree, st0: P.Store, st: P.Store,
                 tr: Option<(Stamp, nat)>, dir: Option<Stamp>, asked: nat, d: Stamp)
    requires LoopInv(before, dirs, now, st0, tr, dir, asked) && IsOldest(now, d) && now[d].files.clouds == map[]
    requires if tr.Some? then FourStored(now, tr, dir, st0, st, false) else st == st0
    ensures StoppedAt(before, dirs, now, st, d) && OthersKept(before, dirs, st)
  {
    hide LoopInv, StoppedAt, OthersKept, Resolve, AllResolve, Transferable;
    NotTransferable(before, dirs, now, st0, tr, dir, asked, d);
    StoppedThere(before, dirs, now, st0, st, tr, dir, asked, d);
  }

  /** It was obtained, and the directory may be removed. */
  lemma DirMayGo(before: P.Store, dirs: Tree, now: Tree, st0: P.Store, st: P.Store,
                 tr: Option<(Stamp, nat)>, dir: Option<Stamp>, asked: nat, d: Stamp)
    requires LoopInv(before, dirs, now, st0, tr, dir, asked) && IsOldest(now, d) && now[d].files.clouds == map[]
    requires tr.Some? && FourStored(now, tr, dir, st0, st, true)
    ensures dir == Some(d) && tr == Some((d, now[d].lidar))
    ensures P.Active(d) in st && AllResolve(now, d, now[d].lidar) && HasMetas(now, d, now[d].lidar, st[P.Active(d)])
    ensures LoopInv(before, dirs, now - {d}, P.Rename(st, d, d), tr, dir, asked + 1)
  {
    hide LoopInv, Resolve, AllResolve, HasMetas;
    MetasMerged(before, dirs, now, st0, st, tr, dir, asked, d);
    AfterDir(before, dirs, now, st0, st, tr, dir, asked, d);
  }

  lemma FetchIsWellFormed(d: Stamp, name: string, lidar: nat, m: Meta)
    ensures IsStamp(name) && lidar < 2 ==> WellFormed(Fetch(name, lidar, m))
    ensures StringToTime(name) == d ==> Meaning(Fetch(name, lidar, m)) == P.SendFile(d, lidar, m)
  {
    hide StringToTime, IsStamp;
  }

  lemma NextIsWellFormed()
    ensures WellFormed(Next)
  {
  }

  lemma NextServes(t: Tree, alive: bool, t': Tree, r: P.Reply)
    requires Serves(Next, t, alive, t', r)
    ensures t' == t && AnswersNext(t, alive, r)
  {
  }

  lemma CloudIsWritten(st: P.Store, d: Stamp, n: nat, body: Bytes)
    ensures P.Active(d) in P.WithDir(st, d)
    ensures var st' := P.WriteCloud(P.WithDir(st, d), d, n, body);
            P.Active(d) in st' && n in st'[P.Active(d)].clouds && st'[P.Active(d)].clouds[n] == body
  {
  }

  lemma RemoveIsWellFormed(z: Codec, t: Tree, d: Stamp, lidar: nat, n: nat, name: string)
    requires TreeFits(z, t) && HasCloud(t, d, lidar, n) && IsStamp(name) && StringToTime(name) == d
    ensures WellFormed(Remove(name, lidar, n)) && Meaning(Remove(name, lidar, n)) == P.RemoveFile(d, lidar, n)
            && lidar < 2
  {
    hide StringToTime, IsStamp;
  }

  lemma RemoveAllIsWellFormed(d: Stamp, name: string)
    requires IsStamp(name) && StringToTime(name) == d
    ensures WellFormed(RemoveAll(name)) && Meaning(RemoveAll(name)) == P.RemoveDir(d)
  {
    hide StringToTime, IsStamp;
  }

  lemma RemovalServes(o: Order, t: Tree, alive: bool, t': Tree, r: P.Reply)
    requires o.Remove? && Serves(o, t, alive, t', r) && HasCloud(t, StringToTime(o.name), o.lidar, o.n)
    ensures t' == WithoutCloud(t, StringToTime(o.name), o.n) && r == P.FileRemoved
  {
    hide StringToTime;
  }

  lemma DirServes(o: Order, t: Tree, alive: bool, t': Tree, r: P.Reply)
    requires o.RemoveAll? && Serves(o, t, alive, t', r) && StringToTime(o.name) in t
    ensures t' == t - {StringToTime(o.name)} && r == P.DirRemoved
  {
    hide StringToTime;
  }

  lemma FetchServes(o: Order, t: Tree, alive: bool, t': Tree, r: P.Reply)
    requires o.Fetch? && Serves(o, t, alive, t', r)
    ensures t' == t
    ensures var found := Resolve(t, StringToTime(o.name), o.lidar, o.m);
            r == if found.Some? then P.Requested(found.value) else P.Error
  {
    hide StringToTime, Resolve;
  }

  class TransmissionThread {
    /** The last session sent, as it is shared with the main thread, and its name. */
    var tr: Option<(Stamp, nat)>
    var trName: string
    var dir: Option<Stamp>
    var store: P.Store
    var running: bool
    var status: int
    var asked: nat
    /** The state of the protocol that this thread and its server are in. */
    ghost var proto: P.State
    /** The commands sent, each with what was on the client's disk then. */
    ghost var asks: seq<(P.Command, P.Store)>

    constructor (ghost proto: P.State, tr: Option<(Stamp, nat)>, trName: string, store: P.Store)
      requires P.ClientEnabled(proto, P.StartThread) && proto.cl.tr == tr && proto.cl.store == store
      requires proto.past.meant.Keys == store.Keys
      requires tr.Some? ==> IsStamp(trName) && StringToTime(trName) == tr.value.0 && tr.value.1 < 2
      ensures this.tr == tr && this.dir == None && this.store == store && running && status == 1 && asked == 0
              && Named()
      ensures this.proto == P.Step(proto, P.StartThread) && this.proto.cl == P.Client(P.Top, 1, true, tr, None, store)
      ensures this.proto.srv == proto.srv && asks == []
    {
      this.tr, this.trName, this.dir, this.store, this.running, this.status := tr, trName, None, store, true, 1;
      this.asked, this.proto, this.asks := 0, P.Step(proto, P.StartThread), [];
    }

    ghost predicate Named()
      reads this`tr, this`trName
      ensures Named() <==> (tr.Some? ==> IsStamp(trName) && StringToTime(trName) == tr.value.0 && tr.value.1 < 2)
    {
      tr.Some? ==> IsStamp(trName) && StringToTime(trName) == tr.value.0 && tr.value.1 < 2
    }

    /** The protocol is in a state like that of this thread and its server. */
    ghost predicate At(server: ServerChild, pc: P.Pc, status: int)
      reads this, server
      ensures At(server, pc, status) ==
              Like(proto, server.dirs, server.alive, P.Client(pc, status, running, tr, dir, store))
    {
      Like(proto, server.dirs, server.alive, P.Client(pc, status, running, tr, dir, store))
    }

    /** The same at the end of a round: the loop goes on or has been stopped. */
    ghost predicate AtTest(server: ServerChild)
      reads this, server
      ensures AtTest(server) == At(server, if running then P.Top else P.Ended, if running then 1 else 0)
      ensures AtTest(server) == Like(proto, server.dirs, server.alive,
                                    AfterRound(P.Client(P.Top, 1, running, tr, dir, store)))
    {
      At(server, if running then P.Top else P.Ended, if running then 1 else 0)
    }

    /** Where the thread is after a round that has failed, or told it that nothing is left, or neither. */
    ghost predicate AtRoundEnd(server: ServerChild, over: bool, failed: bool)
      reads this, server
      ensures AtRoundEnd(server, over, failed) ==
              if failed then At(server, P.Ended, -1) else if over then At(server, P.Ended, 0) else AtTest(server)
    {
      if failed then At(server, P.Ended, -1) else if over then At(server, P.Ended, 0) else AtTest(server)
    }

    /** Metadata m has been asked for: the thread goes on to the next file or, after the last, to the removal of the
        directory; or it has failed. */
    ghost predicate AfterAsking(server: ServerChild, folder: Stamp, m: Meta, ok: bool)
      requires tr.Some?
      reads this, server
      ensures AfterAsking(server, folder, m, ok) ==
              if ok then At(server, AfterMeta(folder, tr.value.0, tr.value.1, m), 1) else At(server, P.Ended, -1)
    {
      if ok then At(server, AfterMeta(folder, tr.value.0, tr.value.1, m), 1) else At(server, P.Ended, -1)
    }

    /** TcpSendReceiveTT: a command and its reply. */
    method SendReceive(ch: Channel, o: Order) returns (rec: P.Reply, name: string)
      requires ch.Valid() && WellFormed(o)
      modifies this`asks, ch`sent, ch.server, ch.up, ch.up.buffer, ch.down, ch.down.buffer
      ensures ch.Valid() && ch.server.alive == old(ch.server.alive)
      ensures Serves(o, old(ch.server.dirs), ch.server.alive, ch.server.dirs, rec)
      ensures rec.Sending? || rec.Empty? ==> IsStamp(name) && StringToTime(name) == rec.d
      ensures asks == old(asks) + [(Meaning(o), store)]
    {
      hide *;
      asks := asks + [(Meaning(o), store)];
      rec, name := ch.Ask(o);
    }

    /** RequestFile: ask for one metadata file of the last session sent, and store it. */
    method RequestFile(ch: Channel, ghost folder: Stamp, m: Meta) returns (ok: bool)
      requires ch.Valid() && Named() && tr.Some?
               && At(ch.server, P.AskMeta(folder, tr.value.0, tr.value.1, MetaRank(m)), 1)
      modifies this`store, this`proto, this`asks, ch`sent, ch.server, ch.up, ch.up.buffer, ch.down, ch.down.buffer
      ensures tr == old(tr) && dir == old(dir)
      ensures ch.Valid() && ch.server.alive == old(ch.server.alive) && ch.server.dirs == old(ch.server.dirs)
      ensures AfterAsking(ch.server, folder, m, ok)
      ensures ok <==> MetaFound(ch.server.dirs, tr, dir, m, old(store))
      ensures store == Fetched(ch.server.dirs, tr, dir, m, old(store))
      ensures asks == old(asks) + [(P.SendFile(tr.value.0, tr.value.1, m), old(store))]
      ensures P.Reach(old(proto), proto)
    {
      hide *;
      ghost var cl := P.Client(P.AskMeta(folder, tr.value.0, tr.value.1, MetaRank(m)), 1, running, tr, dir, store);
      var o := Fetch(trName, tr.value.1, m);
      FetchIsWellFormed(tr.value.0, trName, tr.value.1, m);
      var r, _ := SendReceive(ch, o);
      FetchServes(o, old(ch.server.dirs), ch.server.alive, ch.server.dirs, r);
      proto := MetaExchange(proto, ch.server.dirs, ch.server.alive, cl, folder, tr.value.0, tr.value.1, m);
      MetaFoundMeans(ch.server.dirs, tr, dir, m, store);
      ok := r.Requested? && dir.Some? && P.Active(dir.value) in store;
      if ok {
        store := P.WriteLocalMeta(store, dir.value, m, r.body);
      }
    }

    /** RequestAllReaminingFiles: the four metadata files of the last session sent, in their order. */
    method RequestAllRemainingFiles(ch: Channel, ghost folder: Stamp) returns (ok: bool)
      requires ch.Valid() && Named() && tr.Some? && At(ch.server, P.AskMeta(folder, tr.value.0, tr.value.1, 0), 1)
      modifies this`store, this`proto, this`asks, ch`sent, ch.server, ch.up, ch.up.buffer, ch.down, ch.down.buffer
      ensures tr == old(tr) && dir == old(dir)
      ensures ch.Valid() && ch.server.alive == old(ch.server.alive) && ch.server.dirs == old(ch.server.dirs)
      ensures AfterAsking(ch.server, folder, ImuInfo, ok)
      ensures FourStored(ch.server.dirs, tr, dir, old(store), store, ok)
      ensures ok ==> FourAsked(old(asks), asks, tr.value.0, tr.value.1)
      ensures P.Reach(old(proto), proto)
    {
      hide *;
      ghost var start, st0, t := proto, store, ch.server.dirs;
      RanksAre(folder, tr.value.0, tr.value.1);
      NoneStored(t, tr, dir, st0);
      ok := RequestFile(ch, folder, TofCsv);
      ghost var st1 := store;
      if !ok {
        NotAllFound(t, tr, dir, st0, st0, TofCsv);
        return;
      }
      OneStored(t, tr, dir, st0, st0, TofCsv);
      ghost var mid := proto;
      ok := RequestFile(ch, folder, TofInfo);
      P.ReachOn(start, mid, proto);
      ghost var st2 := store;
      if !ok {
        NotAllFound(t, tr, dir, st0, st1, TofInfo);
        return;
      }
      OneStored(t, tr, dir, st0, st1, TofInfo);
      mid := proto;
      ok := RequestFile(ch, folder, ImuCsv);
      P.ReachOn(start, mid, proto);
      ghost var st3 := store;
      if !ok {
        NotAllFound(t, tr, dir, st0, st2, ImuCsv);
        return;
      }
      OneStored(t, tr, dir, st0, st2, ImuCsv);
      mid := proto;
      ok := RequestFile(ch, folder, ImuInfo);
      P.ReachOn(start, mid, proto);
      if !ok {
        NotAllFound(t, tr, dir, st0, st3, ImuInfo);
        return;
      }
      OneStored(t, tr, dir, st0, st3, ImuInfo);
      AllFound(t, tr, dir, st0, store);
      AskedAll(old(asks), asks, tr.value.0, tr.value.1, st0, st1, st2, st3);
    }

    /** After a SENDING reply: the point cloud is stored first, and then its removal is requested. */
    method ReceiveCloud(ch: Channel, ghost before: P.Store, ghost dirs: Tree, rec0: P.Reply, name: string)
      returns (rec: P.Reply)
      requires ch.Valid() && asked > 0 && LoopInv(before, dirs, ch.server.dirs, store, tr, dir, asked - 1)
      requires rec0.Sending? && IsStamp(name) && StringToTime(name) == rec0.d
      requires IsOldest(ch.server.dirs, rec0.d) && HasCloud(ch.server.dirs, rec0.d, rec0.lidar, rec0.n)
      requires rec0.body == ch.server.dirs[rec0.d].files.clouds[rec0.n]
      requires At(ch.server, P.AwaitNext, 1) && Replies(proto, rec0)
      modifies this`tr, this`trName, this`dir, this`store, this`proto, this`asks
      modifies ch`sent, ch.server, ch.up, ch.up.buffer, ch.down, ch.down.buffer
      ensures AtTest(ch.server)
      ensures ch.Valid() && ch.server.alive == old(ch.server.alive) && Named()
      ensures LoopInv(before, dirs, ch.server.dirs, store, tr, dir, asked) && rec == P.FileRemoved
      ensures asks == old(asks) + [(P.RemoveFile(rec0.d, rec0.lidar, rec0.n), store)]
      ensures P.Active(rec0.d) in store && rec0.n in store[P.Active(rec0.d)].clouds
              && store[P.Active(rec0.d)].clouds[rec0.n] == rec0.body
      ensures P.Reach(old(proto), proto)
    {
      hide *;
      var d, lidar, n := rec0.d, rec0.lidar, rec0.n;
      ServedRemovals(ch.server.dirs, d, lidar, n);
      AfterCloud(before, dirs, ch.server.dirs, store, tr, dir, asked - 1, d, n);
      ghost var was := P.Client(P.AwaitNext, 1, running, tr, dir, store);
      proto := CloudExchange(proto, ch.server.dirs, ch.server.alive, was, rec0);
      CloudIsWritten(store, d, n, rec0.body);
      RemoveIsWellFormed(ch.z, ch.server.dirs, d, lidar, n, name);
      tr := Some((d, lidar));
      trName := name;
      dir := Some(d);
      store := P.WriteCloud(P.WithDir(store, d), d, n, rec0.body);
      var o := Remove(name, lidar, n);
      var none;
      rec, none := SendReceive(ch, o);
      RemovalServes(o, old(ch.server.dirs), ch.server.alive, ch.server.dirs, rec);
    }

    /** REMOVE_DIR and its reply, and the renaming of the local directory. */
    method RemoveAndRename(ch: Channel, d: Stamp, folder: string) returns (rec: P.Reply)
      requires ch.Valid() && IsOldest(ch.server.dirs, d) && IsStamp(folder) && StringToTime(folder) == d
      requires dir == Some(d) && At(ch.server, P.MustRemoveDir(d), 1)
      modifies this`store, this`proto, this`asks, ch`sent, ch.server, ch.up, ch.up.buffer, ch.down, ch.down.buffer
      ensures AtTest(ch.server)
      ensures ch.Valid() && ch.server.alive == old(ch.server.alive) && ch.server.dirs == old(ch.server.dirs) - {d}
      ensures asks == old(asks) + [(P.RemoveDir(d), old(store))] && store == P.Rename(old(store), d, d)
      ensures rec == P.DirRemoved
      ensures P.Reach(old(proto), proto)
    {
      hide *;
      ServedRemovals(ch.server.dirs, d, 0, 0);
      ghost var t := ch.server.dirs;
      ghost var was := P.Client(P.MustRemoveDir(d), 1, running, tr, dir, store);
      proto := DirExchange(proto, t, ch.server.alive, was, d);
      var o := RemoveAll(folder);
      RemoveAllIsWellFormed(d, folder);
      var none;
      rec, none := SendReceive(ch, o);
      DirServes(o, t, ch.server.alive, ch.server.dirs, rec);
      store := P.Rename(store, dir.value, d);
    }

    /** After an EMPTY reply: the metadata is fetched and stored, and then the removal of the directory requested; at
        last the local directory is renamed. When the metadata cannot be obtained nothing is removed. */
    method FinishDir(ch: Channel, ghost before: P.Store, ghost dirs: Tree, d: Stamp, lidar: nat, folder: string)
      returns (failed: bool, rec: P.Reply, ghost st: P.Store)
      requires ch.Valid() && Named() && asked > 0 && LoopInv(before, dirs, ch.server.dirs, store, tr, dir, asked - 1)
      requires IsOldest(ch.server.dirs, d) && ch.server.dirs[d].files.clouds == map[]
      requires IsStamp(folder) && StringToTime(folder) == d
      requires At(ch.server, P.AwaitNext, 1) && Replies(proto, P.Empty(d, lidar))
      modifies this`store, this`proto, this`asks, ch`sent, ch.server, ch.up, ch.up.buffer, ch.down, ch.down.buffer
      ensures if failed then At(ch.server, P.Ended, -1) else AtTest(ch.server)
      ensures ch.Valid() && ch.server.alive == old(ch.server.alive)
      ensures failed ==> StoppedAt(before, dirs, ch.server.dirs, store, d) && OthersKept(before, dirs, store)
      ensures failed ==> ch.server.dirs == old(ch.server.dirs)
      ensures !failed ==> LoopInv(before, dirs, ch.server.dirs, store, tr, dir, asked) && rec == P.DirRemoved
      ensures !failed ==>
                && |asks| > |old(asks)| && FourAsked(old(asks), asks[..|asks| - 1], d, old(ch.server.dirs)[d].lidar)
                && asks[|asks| - 1] == (P.RemoveDir(d), st)
      ensures !failed ==> P.Active(d) in st && AllResolve(old(ch.server.dirs), d, old(ch.server.dirs)[d].lidar)
                          && HasMetas(old(ch.server.dirs), d, old(ch.server.dirs)[d].lidar, st[P.Active(d)])
      ensures !failed ==> store == P.Rename(st, d, d)
      ensures P.Reach(old(proto), proto)
    {
      hide *;
      ServedRemovals(ch.server.dirs, d, 0, 0);
      rec := P.Empty(d, lidar);
      ghost var st0, start := store, proto;
      ghost var was := P.Client(P.AwaitNext, 1, running, tr, dir, store);
      proto := EmptyComes(proto, ch.server.dirs, ch.server.alive, was, rec);
      ghost var mid := proto;
      var ok := tr.Some?;
      if ok {
        ok := RequestAllRemainingFiles(ch, d);
        P.ReachOn(start, mid, proto);
      }
      st := store;
      failed := !ok;
      if failed {
        DirStays(before, dirs, ch.server.dirs, st0, store, tr, dir, asked - 1, d);
      } else {
        DirMayGo(before, dirs, ch.server.dirs, st0, store, tr, dir, asked - 1, d);
        RanksAre(d, tr.value.0, tr.value.1);
        mid := proto;
        FourMore(old(asks), asks, tr.value.0, tr.value.1);
        rec := RemoveAndRename(ch, d, folder);
        P.ReachOn(start, mid, proto);
      }
    }

    /** SEND_NEXT and its answer, when no logger is alive. */
    method AskNext(ch: Channel) returns (rec: P.Reply, name: string)
      requires ch.Valid() && !ch.server.alive && At(ch.server, P.Top, 1)
      modifies this`asked, this`proto, this`asks, ch`sent, ch.server, ch.up, ch.up.buffer, ch.down, ch.down.buffer
      ensures ch.Valid() && !ch.server.alive && ch.server.dirs == old(ch.server.dirs) && asked == old(asked) + 1
      ensures At(ch.server, P.AwaitNext, 1) && Replies(proto, rec)
      ensures rec == P.NoTr <==> ch.server.dirs == map[]
      ensures rec.NoTr? || rec.Sending? || rec.Empty?
      ensures rec.Sending? ==> IsOldest(ch.server.dirs, rec.d) && HasCloud(ch.server.dirs, rec.d, rec.lidar, rec.n)
                               && rec.d in ch.server.dirs && rec.n in ch.server.dirs[rec.d].files.clouds
                               && rec.body == ch.server.dirs[rec.d].files.clouds[rec.n]
      ensures rec.Empty? ==> IsOldest(ch.server.dirs, rec.d) && rec.d in ch.server.dirs
                             && ch.server.dirs[rec.d].files.clouds == map[]
      ensures rec.Sending? || rec.Empty? ==> IsStamp(name) && StringToTime(name) == rec.d
      ensures P.Reach(old(proto), proto)
    {
      hide *;
      ghost var t := ch.server.dirs;
      NextIsWellFormed();
      rec, name := SendReceive(ch, Next);
      NextServes(t, ch.server.alive, ch.server.dirs, rec);
      QuietAnswer(t, rec);
      asked := asked + 1;
      proto := NextExchange(proto, ch.server.dirs, ch.server.alive, P.Client(P.Top, 1, running, tr, dir, store), rec);
    }

    /** The user stops the transmission. */
    method Stop(ghost server: ServerChild)
      requires At(server, P.Top, 1)
      modifies this`running, this`proto
      ensures !running && At(server, P.Top, 1)
      ensures P.Reach(old(proto), proto)
    {
      hide *;
      proto := StopComes(proto, server.dirs, server.alive, P.Client(P.Top, 1, running, tr, dir, store));
      running := false;
    }

    /** One round of the loop: the next file, and what its answer calls for. `stop` tells whether the user stops the
        transmission before the end of this round, which is when the loop looks. */
    method Round(ch: Channel, ghost before: P.Store, ghost dirs: Tree, stop: bool)
      returns (rec: P.Reply, failed: bool)
      requires ch.Valid() && Named() && !ch.server.alive && running && At(ch.server, P.Top, 1)
      requires LoopInv(before, dirs, ch.server.dirs, store, tr, dir, asked)
      modifies this`tr, this`trName, this`dir, this`store, this`running, this`asked, this`proto, this`asks
      modifies ch`sent, ch.server, ch.up, ch.up.buffer, ch.down, ch.down.buffer
      ensures ch.Valid() && Named() && !ch.server.alive
      ensures asked == old(asked) + 1 && running == !stop
      ensures AtRoundEnd(ch.server, rec == P.NoTr, failed)
      ensures RoundOk(before, dirs, ch.server.dirs, store, tr, dir, asked, rec == P.NoTr, failed)
      ensures P.Reach(old(proto), proto)
    {
      hide *;
      var name;
      ghost var top := proto;
      P.ReachSelf(proto);
      if stop {
        Stop(ch.server);
      }
      ghost var begun := proto;
      failed := false;
      rec, name := AskNext(ch);
      ghost var answered := proto;
      if rec.Sending? {
        rec := ReceiveCloud(ch, before, dirs, rec, name);
      } else if rec.Empty? {
        ghost var st;
        failed, rec, st := FinishDir(ch, before, dirs, rec.d, rec.lidar, name);
      } else {
        proto := EndComes(proto, ch.server.dirs, ch.server.alive, P.Client(P.AwaitNext, 1, running, tr, dir, store));
      }
      P.ReachOn(begun, answered, proto);
      P.ReachOn(top, begun, proto);
      RoundMeans(before, dirs, ch.server.dirs, store, tr, dir, asked, rec == P.NoTr, failed);
    }

    /** The loop of transmission_thread, over its connection; stops(k) tells whether the user has stopped it by the
        end of round k. Not stopped, it ends well if and only if every directory is transferable: then the client has
        everything, the server nothing, after one request per point cloud, one per directory and a last one. Otherwise
        it stops at the oldest directory that is not. Stopped by the user, it ends well part of the way. */
    method Run(ch: Channel, stops: nat -> bool)
      requires ch.Valid() && Named() && !ch.server.alive && running && dir.None? && asked == 0
      requires forall d | d in ch.server.dirs :: P.Final(d) !in store
      requires At(ch.server, P.Top, 1)
      modifies this, ch`sent, ch.server, ch.up, ch.up.buffer, ch.down, ch.down.buffer
      ensures ch.Valid()
      ensures At(ch.server, P.Ended, status)
      ensures status == 0 || status == -1
      ensures asked > 0 && (running <==> !stops(asked - 1)) && forall k: nat | k < asked - 1 :: !stops(k)
      ensures running ==>
                (status == 0 <==> forall d | d in old(ch.server.dirs) :: Transferable(old(ch.server.dirs)[d]))
      ensures status == 0 && running ==>
                ch.server.dirs == map[] && forall d | d in old(ch.server.dirs) ::
                    Moved(old(store), old(ch.server.dirs), store, d)
      ensures status == 0 && running ==> asked == |Files(old(ch.server.dirs))| + |old(ch.server.dirs)| + 1
      ensures status == 0 && !running ==> PartWay(old(store), old(ch.server.dirs), ch.server.dirs, store, asked)
      ensures status == -1 ==> exists bad :: StoppedAt(old(store), old(ch.server.dirs), ch.server.dirs, store, bad)
      ensures OthersKept(old(store), old(ch.server.dirs), store)
      ensures P.Reach(old(proto), proto)
    {
      hide *;
      ghost var before, dirs, start := store, ch.server.dirs, proto;
      P.ReachSelf(proto);
      StartsThere(before, dirs, tr);
      RoundMeans(before, dirs, dirs, store, tr, dir, 0, false, false);
      var rec := P.Wait;
      var failed := false;
      while rec != P.NoTr && running && !failed
        invariant ch.Valid() && Named() && !ch.server.alive && P.Reach(start, proto)
        invariant asked == 0 ==> running && rec == P.Wait && !failed
        invariant asked > 0 ==> (running <==> !stops(asked - 1))
        invariant forall k: nat | k + 1 < asked :: !stops(k)
        invariant AtRoundEnd(ch.server, rec == P.NoTr, failed)
        invariant RoundOk(before, dirs, ch.server.dirs, store, tr, dir, asked, rec == P.NoTr, failed)
        decreases !failed, running, rec != P.NoTr, |Files(ch.server.dirs)| + |ch.server.dirs|
      {
        RoundMeans(before, dirs, ch.server.dirs, store, tr, dir, asked, false, false);
        LoopCounts(before, dirs, ch.server.dirs, store, tr, dir, asked);
        ghost var top := proto;
        rec, failed := Round(ch, before, dirs, stops(asked));
        P.ReachOn(start, top, proto);
        if !failed && rec != P.NoTr {
          RoundMeans(before, dirs, ch.server.dirs, store, tr, dir, asked, false, false);
          LoopCounts(before, dirs, ch.server.dirs, store, tr, dir, asked);
        }
      }
      status := if failed then -1 else 0;
      if failed {
        FailedMeans(before, dirs, ch.server.dirs, store, tr, dir, asked, rec == P.NoTr);
      } else {
        EndedMeans(before, dirs, ch.server.dirs, store, tr, dir, asked, rec == P.NoTr);
      }
    }
  }
}
