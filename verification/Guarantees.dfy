/**
 What a user of the system can rely on, stated for every run of the protocol: any interleaving of logger, server,
 client, connection losses, restarts and late commands.
 */
module Guarantees {
  import opened Archive
  import opened Protocol
  import opened Safety
  import opened SendOrder
  import opened Writes

  /** Point cloud n of session d has been removed from the server, alone or with its directory. */
  predicate Gone(sv: Server, d: Stamp, n: nat) {
    d !in sv.dirs || n !in sv.dirs[d].files.clouds
  }

  /** Conservation, and the exact condition of its failing. A finished metadata file is at any moment on the server or
      with the client, unchanged. So is a finished point cloud, if and only if it is not both removed from the server
      and torn: being written over an earlier copy just then, or left incomplete when the client was killed while
      doing so. */
  lemma NothingIsLostIff(run: seq<State>, events: seq<Event>, i: nat, d: Stamp)
    requires IsRun(run, events) && i < |run| && d in run[i].srv.logs
    ensures var s := run[i];
            var done := s.srv.logs[d].done;
            && (forall n: nat | n in done.clouds ::
                  CloudOnServer(s.srv, d, n, done.clouds[n]) || HeldCloud(s.cl.store, d, n, done.clouds[n])
                  <==> !(Gone(s.srv, d, n) && (d, n) in Torn(s)))
            && (forall m | m in done.metas ::
                  MetaOnServer(s.srv, d, m, done.metas[m]) || HeldMeta(s.cl.store, d, m, done.metas[m]))
  {
    hide Inv, WriteOk, Gone, CloudOnServer, HeldCloud, Torn, MetaOnServer, HeldMeta;
    var s := run[i];
    WritesAlways(run, events, i);
    forall n: nat | n in s.srv.logs[d].done.clouds
      ensures var body := s.srv.logs[d].done.clouds[n];
              CloudOnServer(s.srv, d, n, body) || HeldCloud(s.cl.store, d, n, body) <==>
                  !(Gone(s.srv, d, n) && (d, n) in Torn(s))
    {
      HeldUnlessTorn(s, d, n);
      MeantIsConserved(s, d, n);
    }
    forall m | m in s.srv.logs[d].done.metas
      ensures var body := s.srv.logs[d].done.metas[m];
              MetaOnServer(s.srv, d, m, body) || HeldMeta(s.cl.store, d, m, body)
    {
      MetaIsConserved(s, d, m);
    }
  }

  lemma MeantIsConserved(s: State, d: Stamp, n: nat)
    requires Inv(s) && d in s.srv.logs && n in s.srv.logs[d].done.clouds
    ensures var body := s.srv.logs[d].done.clouds[n];
            && (CloudOnServer(s.srv, d, n, body) || HeldCloud(s.past.meant, d, n, body))
            && (CloudOnServer(s.srv, d, n, body) <==> !Gone(s.srv, d, n))
  {
    assert d in s.srv.dirs ==> DirOk(s.srv, d);
  }

  lemma MetaIsConserved(s: State, d: Stamp, m: Meta)
    requires Inv(s) && WriteOk(s) && d in s.srv.logs && m in s.srv.logs[d].done.metas
    ensures var body := s.srv.logs[d].done.metas[m]; MetaOnServer(s.srv, d, m, body) || HeldMeta(s.cl.store, d, m, body)
  {
    hide WriteOk, TornMetas, HeldMeta;
    MetaHeldUnlessTorn(s, d, m);
    if (d, m) in TornMetas(s) {
      TornMetaIsOnServer(s, d, m);
      assert DirOk(s.srv, d);
    }
  }

  /** While a file is being written the thread has all of it: nothing is lost for good but by killing the client. */
  lemma WriterHasTheFile(run: seq<State>, events: seq<Event>, i: nat)
    requires IsRun(run, events) && i < |run| && run[i].cl.pc.Storing?
    ensures var (s, pc) := (run[i], run[i].cl.pc);
            pc.d in s.srv.logs && pc.n in s.srv.logs[pc.d].done.clouds && pc.body == s.srv.logs[pc.d].done.clouds[pc.n]
  {
    InvAlways(run, events, i);
  }

  /** The client was never killed in the middle of writing a point cloud. */
  predicate NeverKilledWriting(run: seq<State>, events: seq<Event>, i: nat)
    requires IsRun(run, events) && i < |run|
  {
    forall k | 0 <= k < i && events[k] == Restart :: Wrecks(run[k].cl) == {}
  }

  lemma {:induction false} NothingWrecked(run: seq<State>, events: seq<Event>, i: nat)
    requires IsRun(run, events) && i < |run| && NeverKilledWriting(run, events, i)
    ensures run[i].past.wrecked == {}
  {
    if i > 0 {
      NothingWrecked(run, events, i - 1);
      WreckedByRestart(run[i - 1], events[i - 1]);
    }
  }

  lemma WreckedByRestart(s: State, e: Event)
    requires Enabled(s, e)
    ensures Step(s, e).past.wrecked <= s.past.wrecked + (if e == Restart then Wrecks(s.cl) else {})
  {
  }

  /** If the client was never killed in the middle of writing a point cloud, then every finished file is on the server
      or with the client, unchanged, whenever no point cloud is being written. */
  lemma NothingIsLost(run: seq<State>, events: seq<Event>, i: nat, d: Stamp)
    requires IsRun(run, events) && i < |run| && d in run[i].srv.logs
    requires NeverKilledWriting(run, events, i) && !run[i].cl.pc.Storing?
    ensures var s := run[i];
            var done := s.srv.logs[d].done;
            && (forall n: nat | n in done.clouds ::
                  CloudOnServer(s.srv, d, n, done.clouds[n]) || HeldCloud(s.cl.store, d, n, done.clouds[n]))
            && (forall m | m in done.metas ::
                  MetaOnServer(s.srv, d, m, done.metas[m]) || HeldMeta(s.cl.store, d, m, done.metas[m]))
  {
    NothingWrecked(run, events, i);
    NothingIsLostIff(run, events, i, d);
  }

  /** What the logger finished is never altered or forgotten in the record that conservation speaks about. */
  ghost predicate LogsKept(a: Server, b: Server) {
    forall d | d in a.logs :: LogKept(a, b, d)
  }

  lemma LaterAfterStep(s: State, e: Event)
    requires Inv(s) && Enabled(s, e)
    ensures LogsKept(s.srv, Step(s, e).srv)
  {
    hide LoggerStep, LoggerEnabled, ServerOk, LogKept, FilesStay;
    if LoggerEnabled(s.srv, e) {
      LoggerStepGood(s.srv, e);
    } else if ServerEnabled(s, e) && e.RunOrphan? {
      ServeSafe(s.srv, s.past.meant, e.c);
    } else if ServerEnabled(s, e) && (e.ServeRemoveFile? || e.ServeRemoveDir? || e.ServeSendFile?) {
      ServeSafe(s.srv, s.past.meant, s.link.c);
    } else {
      SameServer(s.srv);
    }
  }

  lemma {:induction false} RecordIsKept(run: seq<State>, events: seq<Event>, i: nat, j: nat)
    requires IsRun(run, events) && i <= j < |run|
    ensures LogsKept(run[i].srv, run[j].srv)
    decreases j - i
  {
    hide Inv, Enabled, Step, LogsKept;
    if i == j {
      NothingForgotten(run[i].srv);
    } else {
      RecordIsKept(run, events, i, j - 1);
      InvAlways(run, events, j - 1);
      LaterAfterStep(run[j - 1], events[j - 1]);
      LogsKeptTransitive(run[i].srv, run[j - 1].srv, run[j].srv);
    }
  }

  lemma NothingForgotten(sv: Server)
    ensures LogsKept(sv, sv)
  {
  }

  lemma LogsKeptTransitive(a: Server, b: Server, c: Server)
    requires LogsKept(a, b) && LogsKept(b, c)
    ensures LogsKept(a, c)
  {
  }

  /** The command whose execution is this step, if it is one that changes the disk. */
  ghost predicate Executes(s: State, e: Event, c: Command) {
    || (e == RunOrphan(c) && c in s.orphans)
    || ((e.ServeRemoveFile? || e.ServeRemoveDir?) && s.link == Sent(c))
  }

  lemma GoneByServe(sv: Server, c: Command, d: Stamp, n: nat)
    requires !c.SendNext? && d in sv.dirs && n in sv.dirs[d].files.clouds
    requires var b := Serve(sv, c).0; d in b.dirs && n !in b.dirs[d].files.clouds
    ensures c.RemoveFile? && c.d == d && c.n == n
  {
  }

  lemma ClientKeepsServer(s: State, e: Event)
    requires ClientEnabled(s, e)
    ensures ClientStep(s, e).srv == s.srv && !e.RunOrphan?
  {
    hide WithDir, WriteCloud, WriteLocalMeta, Rename;
  }

  lemma LoggerKeepsDirs(sv: Server, e: Event, d: Stamp)
    requires LoggerEnabled(sv, e)
    ensures d in sv.dirs ==> d in LoggerStep(sv, e).dirs
    ensures d !in sv.dirs && d in LoggerStep(sv, e).dirs ==> sv.logger.Launching? && d == sv.logger.d
  {
  }

  lemma ServerKeepsDirs(s: State, e: Event, d: Stamp)
    requires ServerEnabled(s, e)
    ensures d !in s.srv.dirs ==> d !in ServerStep(s, e).srv.dirs
    ensures d in s.srv.dirs && d !in ServerStep(s, e).srv.dirs ==> Executes(s, e, RemoveDir(d))
  {
  }

  lemma DirGoneStep(s: State, e: Event, d: Stamp)
    requires Enabled(s, e) && d in s.srv.dirs && d !in Step(s, e).srv.dirs
    ensures Executes(s, e, RemoveDir(d))
  {
    hide LoggerEnabled, ServerEnabled, ClientEnabled, LoggerStep, ServerStep, ClientStep;
    if LoggerEnabled(s.srv, e) {
      LoggerKeepsDirs(s.srv, e, d);
    } else if ServerEnabled(s, e) {
      ServerKeepsDirs(s, e, d);
    } else {
      ClientKeepsServer(s, e);
    }
  }

  lemma NewDirStep(s: State, e: Event, d: Stamp)
    requires Enabled(s, e) && d !in s.srv.dirs && d in Step(s, e).srv.dirs
    ensures s.srv.logger.Launching? && d == s.srv.logger.d
  {
    hide LoggerEnabled, ServerEnabled, ClientEnabled, LoggerStep, ServerStep, ClientStep;
    if LoggerEnabled(s.srv, e) {
      LoggerKeepsDirs(s.srv, e, d);
    } else if ServerEnabled(s, e) {
      ServerKeepsDirs(s, e, d);
    } else {
      ClientKeepsServer(s, e);
    }
  }

  lemma CloudGoneStep(s: State, e: Event, d: Stamp, n: nat)
    requires LoggerOk(s.srv) && Enabled(s, e) && d in s.srv.logs && d in s.srv.dirs && n in s.srv.dirs[d].files.clouds
    requires d in Step(s, e).srv.dirs && n !in Step(s, e).srv.dirs[d].files.clouds
    ensures exists lidar :: Executes(s, e, RemoveFile(d, lidar, n))
  {
    var c := if e.RunOrphan? then e.c else s.link.c;
    GoneByServe(s.srv, c, d, n);
    assert Executes(s, e, RemoveFile(d, c.lidar, n));
  }

  lemma ExecutedIsOk(s: State, e: Event, c: Command)
    requires Inv(s) && Enabled(s, e) && Executes(s, e, c)
    ensures CommandOk(s.srv, s.past.meant, c)
  {
  }

  lemma DrainedIsHeld(sv: Server, st: Store, d: Stamp)
    requires ServerOk(sv) && Conserved(sv, st) && d in sv.dirs && DirRemovable(sv, st, d)
    ensures sv.dirs[d].files.clouds == map[]
    ensures forall n: nat | n in sv.logs[d].done.clouds :: HeldCloud(st, d, n, sv.logs[d].done.clouds[n])
  {
  }

  /** A directory disappears from the server only when its session is over and none of its point clouds is left, and
      the client holds everything the logger ever wrote to it, all four metadata files included; of the point clouds
      it holds exactly those that are not torn. */
  lemma RemovedDirIsHeld(run: seq<State>, events: seq<Event>, i: nat, d: Stamp)
    requires IsRun(run, events) && i < |events|
    requires d in run[i].srv.dirs && d !in run[i + 1].srv.dirs
    ensures d in run[i].srv.logs && !Open(run[i].srv, d) && run[i].srv.dirs[d].files.clouds == map[]
    ensures var done := run[i].srv.logs[d].done;
            && (forall n: nat | n in done.clouds ::
                  HeldCloud(run[i].cl.store, d, n, done.clouds[n]) <==> (d, n) !in Torn(run[i]))
            && (forall m: Meta :: m in done.metas && HeldMeta(run[i].cl.store, d, m, done.metas[m]))
  {
    hide Inv, WriteOk, Executes, Torn, TornMetas, HeldCloud, HeldMeta, Enabled, Step;
    var s, e := run[i], events[i];
    WritesAlways(run, events, i);
    DirGoneStep(s, e, d);
    ExecutedIsOk(s, e, RemoveDir(d));
    ExecutedIsPending(s, e, RemoveDir(d));
    DirIsDrained(s, d);
    forall n: nat | n in s.srv.logs[d].done.clouds
      ensures HeldCloud(s.cl.store, d, n, s.srv.logs[d].done.clouds[n]) <==> (d, n) !in Torn(s)
    {
      HeldUnlessTorn(s, d, n);
    }
    forall m: Meta ensures m in s.srv.logs[d].done.metas && HeldMeta(s.cl.store, d, m, s.srv.logs[d].done.metas[m]) {
      MetaHeldUnlessTorn(s, d, m);
      if (d, m) in TornMetas(s) {
        TornMetaIsOnServer(s, d, m);
      }
    }
  }

  lemma ExecutedIsPending(s: State, e: Event, c: Command)
    requires Executes(s, e, c)
    ensures c in s.orphans || s.link == Sent(c)
  {
  }

  /** What is known when a directory may be removed. */
  lemma DirIsDrained(s: State, d: Stamp)
    requires Inv(s) && d in s.srv.dirs && CommandOk(s.srv, s.past.meant, RemoveDir(d))
    ensures d in s.srv.logs && !Open(s.srv, d) && s.srv.dirs[d].files.clouds == map[]
    ensures forall n: nat | n in s.srv.logs[d].done.clouds ::
              HeldCloud(s.past.meant, d, n, s.srv.logs[d].done.clouds[n])
    ensures forall m: Meta :: m in s.srv.logs[d].done.metas && HeldMeta(s.past.meant, d, m, s.srv.logs[d].done.metas[m])
  {
    DrainedIsHeld(s.srv, s.past.meant, d);
  }

  /** A point cloud disappears from the server only when it is finished and is the lowest left, and the client holds
      it if and only if its copy is not torn just then; it never disappears with its directory. */
  lemma RemovedCloudIsHeld(run: seq<State>, events: seq<Event>, i: nat, d: Stamp, n: nat)
    requires IsRun(run, events) && i < |events|
    requires d in run[i].srv.dirs && n in run[i].srv.dirs[d].files.clouds
    requires !(d in run[i + 1].srv.dirs && n in run[i + 1].srv.dirs[d].files.clouds)
    ensures d in run[i + 1].srv.dirs
    ensures !Busy(run[i].srv, d, n) && forall k | k in run[i].srv.dirs[d].files.clouds :: n <= k
    ensures HeldCloud(run[i].cl.store, d, n, run[i].srv.dirs[d].files.clouds[n]) <==> (d, n) !in Torn(run[i])
  {
    hide WriteOk, Torn, HeldCloud, Enabled, Step, Conserved, StoreOk;
    var s, e := run[i], events[i];
    WritesAlways(run, events, i);
    if d !in run[i + 1].srv.dirs {
      RemovedDirIsHeld(run, events, i, d);
    } else {
      assert DirOk(s.srv, d);
      CloudGoneStep(s, e, d, n);
      var lidar :| Executes(s, e, RemoveFile(d, lidar, n));
      ExecutedIsOk(s, e, RemoveFile(d, lidar, n));
      assert DirOk(s.srv, d) && LogOk(s.srv, d);
      HeldUnlessTorn(s, d, n);
    }
  }

  /** Whatever removal is executed, at whatever time, what it deletes is the point cloud that was sent last. */
  lemma RemovedIsLastSent(run: seq<State>, events: seq<Event>, i: nat, d: Stamp, n: nat)
    requires IsRun(run, events) && i < |events|
    requires d in run[i].srv.dirs && n in run[i].srv.dirs[d].files.clouds
    requires !(d in run[i + 1].srv.dirs && n in run[i + 1].srv.dirs[d].files.clouds)
    ensures var sends := run[i].past.sends;
            sends != [] && sends[|sends| - 1].d == d && sends[|sends| - 1].n == n
  {
    hide Enabled, Step, Conserved, StoreOk, InOrder;
    var s, e := run[i], events[i];
    InvAlways(run, events, i);
    SendsAlways(run, events, i);
    RemovedCloudIsHeld(run, events, i, d, n);
    assert DirOk(s.srv, d);
    CloudGoneStep(s, e, d, n);
    var lidar :| Executes(s, e, RemoveFile(d, lidar, n));
    ExecutedIsOk(s, e, RemoveFile(d, lidar, n));
    ExecutedIsLast(s, e, d, lidar, n);
  }

  lemma ExecutedIsLast(s: State, e: Event, d: Stamp, lidar: nat, n: nat)
    requires Inv(s) && SendsOk(s) && Executes(s, e, RemoveFile(d, lidar, n))
             && CommandOk(s.srv, s.past.meant, RemoveFile(d, lidar, n))
    requires d in s.srv.dirs && n in s.srv.dirs[d].files.clouds
    ensures s.past.sends != [] && s.past.sends[|s.past.sends| - 1].d == d && s.past.sends[|s.past.sends| - 1].n == n
  {
    RemovalHitsLast(s, RemoveFile(d, s.srv.dirs[d].lidar, n));
  }

  /** The file that is read for sending is never the one being written: it has its final content, which no later step
      of the logger changes. */
  lemma SentFileIsFinished(run: seq<State>, events: seq<Event>, i: nat, j: nat)
    requires IsRun(run, events) && i < |events| && i <= j < |run|
    requires events[i] == ReadCloud && run[i + 1].link.r.Sending?
    ensures var r := run[i + 1].link.r;
            && !Busy(run[i].srv, r.d, r.n)
            && r.d in run[j].srv.logs && r.n in run[j].srv.logs[r.d].done.clouds
            && r.body == run[j].srv.logs[r.d].done.clouds[r.n]
  {
    var r := run[i + 1].link.r;
    InvAlways(run, events, i);
    InvAlways(run, events, i + 1);
    assert LogOk(run[i].srv, r.d);
    RecordIsKept(run, events, i, j);
    assert LogKept(run[i].srv, run[j].srv, r.d);
  }

  /** Nor is a metadata file sent that is still being written: what answers the client's request is the finished file
      of a session that is over. */
  lemma SentMetaIsFinished(run: seq<State>, events: seq<Event>, i: nat)
    requires IsRun(run, events) && i < |events| && events[i] == ServeSendFile && run[i + 1].link.r.Requested?
    ensures var (d, m) := (run[i].link.c.d, run[i].link.c.m);
            && d in run[i].srv.logs && !Open(run[i].srv, d) && !BusyMeta(run[i].srv, d, m)
            && m in run[i].srv.logs[d].done.metas && run[i + 1].link.r.body == run[i].srv.logs[d].done.metas[m]
  {
    InvAlways(run, events, i);
    InvAlways(run, events, i + 1);
  }

  /** A local directory without the "-active" suffix is a copy of a session that is over and gone from the server. It
      has every file of it and no other, all four metadata files unchanged, and the point clouds unchanged but for
      those torn. */
  lemma FinalCopyIsComplete(run: seq<State>, events: seq<Event>, i: nat, d: Stamp)
    requires IsRun(run, events) && i < |run| && Final(d) in run[i].cl.store
    ensures d in run[i].srv.logs && d !in run[i].srv.dirs && !Open(run[i].srv, d)
    ensures var copy, done := run[i].cl.store[Final(d)], run[i].srv.logs[d].done;
            && copy.metas == done.metas && Complete(copy.metas) && copy.clouds.Keys == done.clouds.Keys
            && forall n | n in copy.clouds :: copy.clouds[n] == done.clouds[n] <==> (d, n) !in Torn(run[i])
  {
    hide Torn, TornMetas, ServerOk, Conserved, FreshOk, StuckOk;
    var s := run[i];
    WritesAlways(run, events, i);
    SameKeys(s.cl.store, s.past.meant, Torn(s), TornMetas(s));
    assert CopyOk(s.srv, s.past.meant, Final(d));
    assert SameClouds(s.cl.store[Final(d)].clouds, s.past.meant[Final(d)].clouds, d, Torn(s));
    assert SameMetas(s.cl.store[Final(d)].metas, s.past.meant[Final(d)].metas, d, TornMetas(s));
    forall m ensures (d, m) !in TornMetas(s) {
      if (d, m) in TornMetas(s) {
        TornMetaIsOnServer(s, d, m);
      }
    }
  }

  /** At most one directory is open, and no directory is younger. */
  lemma OpenDirIsYoungest(run: seq<State>, events: seq<Event>, i: nat, d: Stamp)
    requires IsRun(run, events) && i < |run| && Open(run[i].srv, d)
    ensures d in run[i].srv.dirs
    ensures forall e | e in run[i].srv.dirs :: e <= d
    ensures forall e | Open(run[i].srv, e) :: e == d
  {
    InvAlways(run, events, i);
    forall e | e in run[i].srv.dirs ensures e <= d {
      assert LogOk(run[i].srv, e);
    }
  }

  /** The oldest directory changes only by being removed, and then to a younger one. */
  lemma OldestIsStable(run: seq<State>, events: seq<Event>, i: nat, d: Stamp, d': Stamp)
    requires IsRun(run, events) && i < |events|
    requires IsOldest(run[i].srv.dirs, d) && IsOldest(run[i + 1].srv.dirs, d') && d != d'
    ensures d !in run[i + 1].srv.dirs && d < d'
    ensures events[i] == RunOrphan(RemoveDir(d)) || (events[i] == ServeRemoveDir && run[i].link == Sent(RemoveDir(d)))
  {
    var s, e := run[i], events[i];
    InvAlways(run, events, i);
    assert LogOk(s.srv, d);
    if d' !in s.srv.dirs {
      NewDirStep(s, e, d');
    }
    assert d <= d';
    DirGoneStep(s, e, d);
  }

  /** The point clouds left in a directory form an interval, which is what a scan reports. */
  lemma CloudsFormInterval(run: seq<State>, events: seq<Event>, i: nat, d: Stamp, first: nat, last: nat)
    requires IsRun(run, events) && i < |run| && d in run[i].srv.dirs && run[i].srv.dirs[d].files.clouds != map[]
    requires IsScan(run[i].srv.dirs[d].files.clouds, first, last)
    ensures forall n: nat :: n in run[i].srv.dirs[d].files.clouds <==> first <= n <= last
    ensures |run[i].srv.dirs[d].files.clouds| == last - first + 1
  {
    InvAlways(run, events, i);
    ScanSeesInterval(run[i].srv, d, first, last);
    assert DirOk(run[i].srv, d);
  }

  /** When the last session sent is not the one reported empty, the metadata request that follows fails: its directory
      is gone. */
  lemma StaleRequestFails(run: seq<State>, events: seq<Event>, i: nat)
    requires IsRun(run, events) && i < |run|
    requires run[i].cl.pc.AwaitMeta? && run[i].cl.pc.from != run[i].cl.pc.folder && run[i].link.Sent?
    ensures run[i].link.c.SendFile? && Serve(run[i].srv, run[i].link.c) == (run[i].srv, Error)
  {
    InvAlways(run, events, i);
  }

  // ---------- when EMPTY tells the truth ----------

  /** From the scan of an empty directory to the probe, nothing else happens on the connection. */
  ghost predicate ScannedEmpty(run: seq<State>, events: seq<Event>, i: nat, j: nat)
    requires IsRun(run, events)
  {
    && i < j < |events|
    && events[i].ScanFiles? && events[j] == Probe
    && run[i + 1].link.Working? && run[i + 1].link.t.Counted? && run[i + 1].link.t.count == 0
    && (forall k | i < k <= j :: run[k].link == run[i + 1].link)
    && run[j + 1].link.Replied? && run[j + 1].link.r.Empty?
  }

  lemma {:induction false} NothingSentMeanwhile(run: seq<State>, events: seq<Event>, i: nat, j: nat)
    requires IsRun(run, events) && i <= j < |run|
    requires run[i].link.Working? && run[i].link.t.Counted?
    requires forall k | i <= k <= j :: run[k].link == run[i].link
    ensures run[j].past.sends == run[i].past.sends
    decreases j - i
  {
    if i < j {
      NothingSentMeanwhile(run, events, i, j - 1);
    }
  }

  /** While nothing is sent nothing that was begun later is removed. */
  lemma EmptyThen(a: Server, b: Server, sends: seq<Send>, d: Stamp)
    requires ServerOk(a) && ServerOk(b) && RemovedOk(a, sends) && RemovedOk(b, sends)
    requires d in a.dirs && a.dirs[d].files.clouds == map[] && d in a.logs && LogKept(a, b, d) && d in b.dirs
    ensures b.dirs[d].files.clouds == map[] <==> b.logs[d].begun == a.logs[d].begun
  {
    assert DirOk(a, d) && LogOk(a, d) && LogOk(b, d) && DirOk(b, d);
    var log := b.logs[d];
    var low := a.logs[d].removed;
    assert low in a.dirs[d].files.clouds <==> low < a.logs[d].begun;
    assert log.removed < log.begun ==> log.removed in b.dirs[d].files.clouds;
  }

  /** Scan and probe are separate steps, so EMPTY may be sent for a directory that has a point cloud. That happens
      exactly when the logger begins a file of that directory between the two. */
  lemma EmptyIsTrueIff(run: seq<State>, events: seq<Event>, i: nat, j: nat)
    requires IsRun(run, events) && ScannedEmpty(run, events, i, j)
    requires run[j + 1].link.r.d in run[j].srv.dirs
    ensures var d := run[j + 1].link.r.d;
            && d in run[i].srv.logs && d in run[j].srv.logs
            && (run[j].srv.dirs[d].files.clouds == map[] <==> run[j].srv.logs[d].begun == run[i].srv.logs[d].begun)
  {
    hide Inv, SendsOk, ServerOk, LogKept, RemovedOk, IsScan;
    var a, b, d := run[i], run[j], run[j + 1].link.r.d;
    KnownAlways(run, events, i);
    KnownAlways(run, events, j);
    RecordIsKept(run, events, i, j);
    NothingSentMeanwhile(run, events, i + 1, j);
    assert run[i + 1].past.sends == a.past.sends;
    KeptThen(a.srv, b.srv, d);
    EmptyThen(a.srv, b.srv, a.past.sends, d);
  }

  lemma KnownAlways(run: seq<State>, events: seq<Event>, i: nat)
    requires IsRun(run, events) && i < |run|
    ensures ServerOk(run[i].srv) && RemovedOk(run[i].srv, run[i].past.sends)
    ensures forall d | d in run[i].srv.dirs :: d in run[i].srv.logs
  {
    InvAlways(run, events, i);
    SendsAlways(run, events, i);
  }

  lemma KeptThen(a: Server, b: Server, d: Stamp)
    requires LogsKept(a, b) && d in b.dirs && d in a.logs
    ensures LogKept(a, b, d) && d in b.logs && d in a.dirs
  {
  }

  // ---------- when the answer is SENDING, WAIT or EMPTY ----------

  /** The server child answers SEND_NEXT: it scans the root at a, the oldest directory at b and probes at c, with steps
      of other actors in between. */
  ghost predicate Answering(run: seq<State>, events: seq<Event>, a: nat, b: nat, c: nat)
    requires IsRun(run, events)
  {
    && a < b < c < |events| && events[a].ScanRoot? && events[b].ScanFiles? && events[c] == Probe
    && (forall k | a < k <= b :: run[k].link == run[a + 1].link)
    && (forall k | b < k <= c :: run[k].link == run[b + 1].link)
  }

  /** What the probe leads to depends on how many directories the first scan found, how many point clouds the second,
      and whether a logger is alive at the probe. */
  lemma ProbeDecides(run: seq<State>, events: seq<Event>, a: nat, b: nat, c: nat)
    requires IsRun(run, events) && Answering(run, events, a, b, c)
    ensures var d := events[a].oldest;
            && IsOldest(run[a].srv.dirs, d) && d in run[b].srv.dirs
            && var (dir, link) := (run[b].srv.dirs[d], run[c + 1].link);
               var clouds := dir.files.clouds;
               var guarded := !run[c].srv.logger.Off? && |run[a].srv.dirs| == 1;
               && (link.Working? <==> |clouds| >= 2 || (|clouds| == 1 && !guarded))
               && (link.Working? ==>
                     && link.t == Chosen(d, dir.lidar, events[b].first, events[b].last, |clouds|)
                     && events[b].first in clouds && events[b].last in clouds
                     && forall k | k in clouds :: events[b].first <= k <= events[b].last)
               && (link == Replied(Wait) <==> guarded && |clouds| <= 1)
               && (link == Replied(Empty(d, dir.lidar)) <==> |clouds| == 0 && !guarded)
  {
    hide LoggerStep, ClientStep;
    assert run[a + 1].link == run[b].link && run[b + 1].link == run[c].link;
  }

  /** Of no directory at all the root scan makes the end, and of a chosen point cloud the reading makes the reply. */
  lemma ScanAndReadAnswer(run: seq<State>, events: seq<Event>, i: nat)
    requires IsRun(run, events) && i < |events|
    ensures events[i].ScanRoot? ==> (run[i + 1].link == Replied(NoTr) <==> run[i].srv.dirs == map[])
    ensures events[i] == ReadCloud ==>
              var (t, dirs) := (run[i].link.t, run[i].srv.dirs);
              run[i + 1].link == Replied(if HasCloud(dirs, t.d, t.lidar, t.first) then
                  Sending(t.d, t.lidar, t.first, t.last, t.count, dirs[t.d].files.clouds[t.first]) else Error)
  {
    hide LoggerStep, ClientStep;
  }

  // ---------- commands of dead connections ----------

  /** The connection dies at this step, by a loss or a kill, with a command on its way. */
  predicate LeavesPending(s: State, e: Event, c: Command) {
    (e.Lose? || e.Restart?) && s.link == Sent(c)
  }

  lemma PendingAfterStep(s: State, e: Event, c: Command)
    requires Enabled(s, e)
    ensures c in Step(s, e).orphans <==> c in s.orphans || LeavesPending(s, e, c)
  {
    hide LoggerStep, Serve, WithDir, WriteCloud, WriteLocalMeta, Rename;
  }

  /** A command is pending if and only if it was on its way when a connection died; it stays so for ever, and may be
      executed at any time, unless it is SEND_NEXT, which changes nothing. */
  lemma {:induction false} PendingIff(run: seq<State>, events: seq<Event>, i: nat, c: Command)
    requires IsRun(run, events) && i < |run|
    ensures c in run[i].orphans <==> exists k :: 0 <= k < i && LeavesPending(run[k], events[k], c)
    ensures c in run[i].orphans && !c.SendNext? <==> Enabled(run[i], RunOrphan(c))
  {
    hide Enabled, Step, LeavesPending;
    MayRun(run[i], c);
    if i == 0 {
      NothingPending(c);
    } else {
      PendingIff(run, events, i - 1, c);
      PendingAfterStep(run[i - 1], events[i - 1], c);
    }
  }

  lemma MayRun(s: State, c: Command)
    ensures Enabled(s, RunOrphan(c)) <==> c in s.orphans && !c.SendNext?
  {
  }

  lemma NothingPending(c: Command)
    ensures c !in Initial().orphans
  {
  }
}
