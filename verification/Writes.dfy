/**
 The client's disk while files are being written: which copies are incomplete at any moment, and that an incomplete
 metadata file is always still on the server.
 */
module Writes {
  import opened Basics
  import opened Archive
  import opened Protocol
  import opened Safety

  /** The point clouds whose local copy is incomplete: the one that is being written, until its last byte is, and
      those whose writing ended with the client's being killed. */
  function Torn(s: State): set<(Stamp, nat)> {
    s.past.wrecked + Wrecks(s.cl)
  }

  function TornMetas(s: State): set<(Stamp, Meta)> {
    s.past.wreckedMetas + MetaWrecks(s.cl)
  }

  // ---------- removals of the directory that is being transferred ----------

  /** No late command removes the directory that a thread is receiving files of. */
  ghost predicate FreshOk(s: State) {
    && (!s.cl.pc.Ended? && s.cl.dir.Some? ==> RemoveDir(s.cl.dir.value) !in s.orphans)
    && match s.cl.pc
       case AwaitNext => s.link.Replied? && s.link.r.Sending? ==>
           s.link.r.d in s.srv.dirs && RemoveDir(s.link.r.d) !in s.orphans
       case AwaitMeta(folder, _, _, _) => s.link.Replied? && s.link.r.Requested? && s.cl.dir.Some? ==>
           folder in s.srv.dirs
       case StoringMeta(folder, _, _, _, _, _) => folder in s.srv.dirs
       case _ => true
  }

  // ---------- the two stores ----------

  /** Two copies of a file differ if and only if the file is torn, and then the first is shorter. */
  ghost predicate Agree(a: Bytes, b: Bytes, torn: bool) {
    a <= b && (a == b <==> !torn)
  }

  ghost predicate SameClouds(a: map<nat, Bytes>, b: map<nat, Bytes>, d: Stamp, torn: set<(Stamp, nat)>) {
    a.Keys == b.Keys && forall n | n in a :: Agree(a[n], b[n], (d, n) in torn)
  }

  ghost predicate SameMetas(a: map<Meta, Bytes>, b: map<Meta, Bytes>, d: Stamp, torn: set<(Stamp, Meta)>) {
    a.Keys == b.Keys && forall m | m in a :: Agree(a[m], b[m], (d, m) in torn)
  }

  /** The client's disk is what is meant to be there, but for the torn files. */
  ghost predicate SameFiles(st: Store, meant: Store, torn: set<(Stamp, nat)>, tornMetas: set<(Stamp, Meta)>) {
    && st.Keys == meant.Keys
    && (forall l | l in st :: SameClouds(st[l].clouds, meant[l].clouds, l.d, torn))
    && (forall l | l in st :: SameMetas(st[l].metas, meant[l].metas, l.d, tornMetas))
  }

  ghost predicate NoTwin(st: Store) {
    forall d | Active(d) in st :: Final(d) !in st
  }

  // ---------- metadata wrecked by a kill ----------

  /** A thread that has not been told of a point cloud, and so has no local directory. */
  ghost predicate HasNoDir(s: State) {
    && s.cl.dir.None?
    && match s.cl.pc
       case Top => true
       case AwaitNext => !(s.link.Replied? && s.link.r.Sending?)
       case AskMeta(_, _, _, k) => k == 0
       case AwaitMeta(_, _, _, k) => k == 0
       case _ => false
  }

  /** Session d is drained, and its directory stays where it is: threads are told nothing but EMPTY any more. */
  ghost predicate Stuck(s: State, d: Stamp) {
    && d in s.srv.dirs && RemoveDir(d) !in s.orphans && Drained(s.srv, d) && First(s.srv, d)
    && (s.cl.pc.Ended? || HasNoDir(s))
  }

  ghost predicate StuckOk(s: State) {
    forall d, m | (d, m) in s.past.wreckedMetas :: Stuck(s, d)
  }

  ghost predicate WriteOk(s: State) {
    && FreshOk(s)
    && SameFiles(s.cl.store, s.past.meant, Torn(s), TornMetas(s))
    && NoTwin(s.cl.store)
    && StuckOk(s)
    && (s.cl.pc.Storing? ==> (s.cl.pc.d, s.cl.pc.n) !in s.past.wrecked)
  }

  // ---------- steps of the logger and the server ----------

  lemma StuckKept(s: State, sv: Server, d: Stamp)
    requires Inv(s) && ServerOk(sv) && Later(s.srv, sv) && Stuck(s, d) && d in sv.dirs
    ensures Stuck(s.(srv := sv), d)
  {
    FirstKept(s.srv, sv, d);
    assert LogKept(s.srv, sv, d) && LogOk(sv, d);
    assert DirOk(s.srv, d) && DirOk(sv, d);
  }

  /** The server moves to a later state without removing a directory, unless by a removal that has been asked for. */
  lemma WriteOkAfterServer(s: State, sv: Server, c: Option<Command>)
    requires Inv(s) && WriteOk(s) && ServerOk(sv) && Later(s.srv, sv)
    requires forall d | d in s.srv.dirs && d !in sv.dirs :: c == Some(RemoveDir(d))
    requires c.Some? ==> c.value in s.orphans
    ensures WriteOk(s.(srv := sv))
  {
    hide ServerOk, Conserved, StoreOk, SameFiles, Stuck, Later, ThreadOk;
    forall d, m | (d, m) in s.past.wreckedMetas ensures Stuck(s.(srv := sv), d) {
      StuckStays(s, d);
      StuckKept(s, sv, d);
    }
    FreshAfterServer(s, sv);
  }

  lemma StuckStays(s: State, d: Stamp)
    requires Stuck(s, d)
    ensures d in s.srv.dirs && RemoveDir(d) !in s.orphans
  {
  }

  lemma FreshAfterServer(s: State, sv: Server)
    requires Inv(s) && FreshOk(s)
    requires forall d | d in s.srv.dirs && d !in sv.dirs :: RemoveDir(d) in s.orphans
    ensures FreshOk(s.(srv := sv))
  {
  }

  lemma WriteOkAfterLogger(s: State, e: Event)
    requires Inv(s) && WriteOk(s) && LoggerEnabled(s.srv, e)
    ensures WriteOk(s.(srv := LoggerStep(s.srv, e)))
  {
    hide WriteOk, Inv, GoodMove;
    LoggerStepKeepsDirs(s.srv, e);
    GoodMoveOf(s, e);
    WriteOkAfterServer(s, LoggerStep(s.srv, e), None);
  }

  lemma GoodMoveOf(s: State, e: Event)
    requires Inv(s) && LoggerEnabled(s.srv, e)
    ensures ServerOk(LoggerStep(s.srv, e)) && Later(s.srv, LoggerStep(s.srv, e))
  {
    hide LoggerStep, LoggerEnabled;
    LoggerStepGood(s.srv, e);
  }

  lemma LoggerStepKeepsDirs(sv: Server, e: Event)
    requires LoggerEnabled(sv, e)
    ensures forall d | d in sv.dirs :: d in LoggerStep(sv, e).dirs
  {
  }

  /** A directory with a point cloud left has no removal pending. */
  lemma NoRemovalPending(s: State, d: Stamp, n: nat)
    requires Inv(s) && d in s.srv.dirs && n in s.srv.dirs[d].files.clouds
    ensures RemoveDir(d) !in s.orphans && !Stuck(s, d)
  {
    assert DirOk(s.srv, d);
    assert RemoveDir(d) in s.orphans ==> CommandOk(s.srv, s.past.meant, RemoveDir(d));
  }

  /** SendNext: only the reading of a point cloud ends with an announcement. */
  lemma WriteOkAfterScan(s: State, e: Event)
    requires Inv(s) && WriteOk(s) && ServerEnabled(s, e)
    requires e.ScanRoot? || e.ScanFiles? || e.Probe? || e.ReadCloud? || e.ServeError?
    ensures WriteOk(ServerStep(s, e))
  {
    hide DataOk, SameFiles, IsScan, Drained;
    if e.ReadCloud? && HasCloud(s.srv.dirs, s.link.t.d, s.link.t.lidar, s.link.t.first) {
      NoRemovalPending(s, s.link.t.d, s.link.t.first);
      forall d, m ensures (d, m) !in s.past.wreckedMetas {
        if Stuck(s, d) {
          OnlyOldest(s, d);
        }
      }
    }
  }

  lemma OnlyOldest(s: State, d: Stamp)
    requires Inv(s) && Stuck(s, d) && s.link.Working? && s.cl.pc.AwaitNext?
    ensures s.link.t.d in s.srv.dirs ==> s.link.t.d == d
  {
  }

  lemma WriteOkAfterServe(s: State, e: Event)
    requires Inv(s) && WriteOk(s) && ServerEnabled(s, e)
             && (e.ServeRemoveFile? || e.ServeSendFile? || e.ServeRemoveDir?)
    ensures WriteOk(ServerStep(s, e))
  {
    hide SameFiles, ServerOk, Conserved, StoreOk;
    ServeGood(s, e);
  }

  lemma WriteOkAfterOrphan(s: State, e: Event)
    requires Inv(s) && WriteOk(s) && ServerEnabled(s, e) && e.RunOrphan?
    ensures WriteOk(ServerStep(s, e))
  {
    hide WriteOk, ServerOk, Conserved, StoreOk, Later;
    ServeSafe(s.srv, s.past.meant, e.c);
    ServeRemovesDir(s.srv, e.c);
    WriteOkAfterServer(s, Serve(s.srv, e.c).0, Some(e.c));
  }

  lemma ServeRemovesDir(sv: Server, c: Command)
    requires !c.SendNext?
    ensures forall d | d in sv.dirs && d !in Serve(sv, c).0.dirs :: c == RemoveDir(d)
  {
  }

  // ---------- steps of the client ----------

  /** The sets name the same files but for f, which is in the second if it belongs there. */
  ghost predicate ButFor<T(!new)>(a: set<T>, b: set<T>, f: T, belongs: bool) {
    (f in b <==> belongs) && forall x | x != f :: x in a <==> x in b
  }

  lemma PutCloudAgrees(st: Store, meant: Store, torn: set<(Stamp, nat)>, torn': set<(Stamp, nat)>,
      tm: set<(Stamp, Meta)>,
                       d: Stamp, n: nat, part: Bytes, whole: Bytes)
    requires SameFiles(st, meant, torn, tm) && NoTwin(st) && Active(d) in st && part <= whole
    requires ButFor(torn, torn', (d, n), part != whole)
    ensures Active(d) in meant
    ensures SameFiles(WriteCloud(st, d, n, part), WriteCloud(meant, d, n, whole), torn', tm)
    ensures NoTwin(WriteCloud(st, d, n, part))
  {
    var sb, mb := WriteCloud(st, d, n, part), WriteCloud(meant, d, n, whole);
    forall l | l in sb ensures SameClouds(sb[l].clouds, mb[l].clouds, l.d, torn') {
      assert SameClouds(st[l].clouds, meant[l].clouds, l.d, torn);
    }
    forall l | l in sb ensures SameMetas(sb[l].metas, mb[l].metas, l.d, tm) {
      assert SameMetas(st[l].metas, meant[l].metas, l.d, tm);
    }
  }

  lemma PutMetaAgrees(st: Store, meant: Store, torn: set<(Stamp, nat)>, tm: set<(Stamp, Meta)>, tm': set<(Stamp, Meta)>,
                      d: Stamp, m: Meta, part: Bytes, whole: Bytes)
    requires SameFiles(st, meant, torn, tm) && NoTwin(st) && Active(d) in st && part <= whole
    requires ButFor(tm, tm', (d, m), part != whole)
    ensures Active(d) in meant
    ensures SameFiles(WriteLocalMeta(st, d, m, part), WriteLocalMeta(meant, d, m, whole), torn, tm')
    ensures NoTwin(WriteLocalMeta(st, d, m, part))
  {
    var sb, mb := WriteLocalMeta(st, d, m, part), WriteLocalMeta(meant, d, m, whole);
    forall l | l in sb ensures SameClouds(sb[l].clouds, mb[l].clouds, l.d, torn) {
      assert SameClouds(st[l].clouds, meant[l].clouds, l.d, torn);
    }
    forall l | l in sb ensures SameMetas(sb[l].metas, mb[l].metas, l.d, tm') {
      assert SameMetas(st[l].metas, meant[l].metas, l.d, tm);
    }
  }

  lemma WithDirAgrees(st: Store, meant: Store, torn: set<(Stamp, nat)>, tm: set<(Stamp, Meta)>, d: Stamp)
    requires SameFiles(st, meant, torn, tm) && NoTwin(st) && Final(d) !in st
    ensures SameFiles(WithDir(st, d), WithDir(meant, d), torn, tm) && NoTwin(WithDir(st, d))
  {
  }

  lemma RenameAgrees(st: Store, meant: Store, torn: set<(Stamp, nat)>, tm: set<(Stamp, Meta)>, d: Stamp)
    requires SameFiles(st, meant, torn, tm) && NoTwin(st)
    ensures SameFiles(Rename(st, d, d), Rename(meant, d, d), torn, tm) && NoTwin(Rename(st, d, d))
  {
    var sb, mb := Rename(st, d, d), Rename(meant, d, d);
    forall l | l in sb
      ensures SameClouds(sb[l].clouds, mb[l].clouds, l.d, torn) && SameMetas(sb[l].metas, mb[l].metas, l.d, tm)
    {
      var from := if l == Final(d) && Active(d) in st then Active(d) else l;
      assert SameClouds(st[from].clouds, meant[from].clouds, from.d, torn);
      assert SameMetas(st[from].metas, meant[from].metas, from.d, tm);
    }
  }

  /** What is known of a directory whose transfer is complete. */
  lemma FinalIsGone(s: State, d: Stamp)
    requires Inv(s) && SameFiles(s.cl.store, s.past.meant, Torn(s), TornMetas(s)) && d in s.srv.dirs
    ensures Final(d) !in s.cl.store
  {
    assert Final(d) in s.past.meant ==> CopyOk(s.srv, s.past.meant, Final(d));
  }

  /** The local directory for an announced point cloud. */
  lemma WriteOkAfterSending(s: State)
    requires Inv(s) && WriteOk(s) && s.cl.pc.AwaitNext? && s.link.Replied? && s.link.r.Sending?
    ensures WriteOk(OnNextReply(s, s.link.r))
  {
    hide Inv, SameFiles, NoTwin, WithDir;
    var d := s.link.r.d;
    FinalIsGone(s, d);
    WithDirAgrees(s.cl.store, s.past.meant, Torn(s), TornMetas(s), d);
  }

  /** A point cloud is opened, and will be written from its start. */
  lemma WriteOkAfterBody(s: State)
    requires Inv(s) && WriteOk(s) && ClientEnabled(s, GetBody)
    ensures WriteOk(ClientStep(s, GetBody))
  {
    hide DataOk, TrOk, SameFiles, NoTwin, WriteCloud;
    var s' := ClientStep(s, GetBody);
    PutCloudAgrees(s.cl.store, s.past.meant, Torn(s), Torn(s'), TornMetas(s), s.cl.pc.d, s.cl.pc.n, [], s.link.r.body);
  }

  /** The meant copy of the file that is being written. */
  lemma MeantCopy(s: State)
    requires Inv(s) && IsStoring(s.cl.pc) && NoTwin(s.cl.store) && s.cl.store.Keys == s.past.meant.Keys
    ensures s.cl.dir.Some? && Active(s.cl.dir.value) in s.past.meant && s.cl.pc.written <= |s.cl.pc.body|
    ensures s.cl.pc.Storing? ==>
              s.cl.dir.value == s.cl.pc.d && HasCloudCopy(s.past.meant, Active(s.cl.pc.d), s.cl.pc.n, s.cl.pc.body)
    ensures s.cl.pc.StoringMeta? ==>
              s.cl.dir.value == s.cl.pc.folder
              && HasMetaCopy(s.past.meant, Active(s.cl.pc.folder), MetaAt(s.cl.pc.k), s.cl.pc.body)
  {
    hide DataOk, TrOk;
  }

  lemma WritingAgain(st: Store, d: Stamp, n: nat, m: Meta, body: Bytes)
    ensures HasCloudCopy(st, Active(d), n, body) ==> WriteCloud(st, d, n, body) == st
    ensures HasMetaCopy(st, Active(d), m, body) ==> WriteLocalMeta(st, d, m, body) == st
  {
    if HasCloudCopy(st, Active(d), n, body) {
      assert st[Active(d)].clouds[n := body] == st[Active(d)].clouds;
      assert WriteCloud(st, d, n, body) == st;
    }
    if HasMetaCopy(st, Active(d), m, body) {
      assert st[Active(d)].metas[m := body] == st[Active(d)].metas;
      assert WriteLocalMeta(st, d, m, body) == st;
    }
  }

  /** Some more bytes of the file reach the disk. */
  lemma WriteOkAfterMore(s: State, e: Event)
    requires Inv(s) && WriteOk(s) && ClientEnabled(s, e) && e.StoreMore?
    ensures WriteOk(ClientStep(s, e))
  {
    hide Inv, SameFiles, NoTwin, WriteCloud, WriteLocalMeta, HasCloudCopy, HasMetaCopy, Stuck;
    var s', pc := ClientStep(s, e), s.cl.pc;
    SameKeys(s.cl.store, s.past.meant, Torn(s), TornMetas(s));
    MeantCopy(s);
    StuckIsIdle(s);
    assert pc.body[..e.upTo] == pc.body <==> e.upTo == |pc.body|;
    if pc.Storing? {
      WritingAgain(s.past.meant, pc.d, pc.n, TofCsv, pc.body);
      PutCloudAgrees(s.cl.store, s.past.meant, Torn(s), Torn(s'), TornMetas(s), pc.d, pc.n, pc.body[..e.upTo], pc.body);
    } else {
      WritingAgain(s.past.meant, pc.folder, 0, MetaAt(pc.k), pc.body);
      PutMetaAgrees(s.cl.store, s.past.meant, Torn(s), TornMetas(s), TornMetas(s'), pc.folder, MetaAt(pc.k),
          pc.body[..e.upTo], pc.body);
    }
  }

  lemma SameKeys(st: Store, meant: Store, torn: set<(Stamp, nat)>, tm: set<(Stamp, Meta)>)
    requires SameFiles(st, meant, torn, tm)
    ensures st.Keys == meant.Keys
  {
  }

  /** Where a thread is at work, nothing is stuck. */
  lemma StuckIsIdle(s: State)
    requires StuckOk(s) && !s.cl.pc.Ended? && s.cl.dir.Some?
    ensures s.past.wreckedMetas == {}
  {
    forall f ensures f !in s.past.wreckedMetas {
      assert f in s.past.wreckedMetas ==> Stuck(s, f.0);
    }
  }

  /** A metadata file is opened, and will be written from its start. */
  lemma WriteOkAfterMeta(s: State)
    requires Inv(s) && WriteOk(s) && s.cl.pc.AwaitMeta? && s.cl.pc.k < 4 && s.link.Replied? && s.link.r.Requested?
             && HasDir(s)
    ensures WriteOk(OnMetaReply(s, s.link.r))
  {
    hide DataOk, TrOk, SameFiles, NoTwin, WriteLocalMeta, Stuck;
    var s', d := OnMetaReply(s, s.link.r), s.cl.dir.value;
    StuckIsIdle(s);
    PutMetaAgrees(s.cl.store, s.past.meant, Torn(s), TornMetas(s), TornMetas(s'), d, MetaAt(s.cl.pc.k), [],
        s.link.r.body);
  }

  /** Steps that leave the disk alone, and what is torn as well. */
  lemma WriteOkAfterOther(s: State, s': State)
    requires WriteOk(s) && FreshOk(s') && s'.cl.store == s.cl.store && s'.past == s.past
    requires Wrecks(s.cl) == {} && MetaWrecks(s.cl) == {} && !IsStoring(s'.cl.pc)
    requires forall d | Stuck(s, d) :: Stuck(s', d)
    ensures WriteOk(s')
  {
    hide SameFiles, NoTwin, Stuck;
  }

  lemma WriteOkAfterDone(s: State)
    requires Inv(s) && WriteOk(s) && ClientEnabled(s, StoreDone)
    ensures WriteOk(ClientStep(s, StoreDone))
  {
    hide DataOk, TrOk, Drained, First, WriteOk;
    FreshNow(s);
    WriteOkAfterOther(s, ClientStep(s, StoreDone));
  }

  lemma FreshNow(s: State)
    requires WriteOk(s)
    ensures FreshOk(s) && StuckOk(s)
  {
  }

  lemma WriteOkAfterAsk(s: State)
    requires Inv(s) && WriteOk(s) && ClientEnabled(s, Ask)
    ensures WriteOk(ClientStep(s, Ask))
  {
    hide DataOk, TrOk, Drained, First, WriteOk;
    FreshNow(s);
    WriteOkAfterOther(s, ClientStep(s, Ask));
  }

  /** Ending the thread, or going back to the top of its loop. */
  lemma WriteOkAfterLeaving(s: State, status: int)
    requires Inv(s) && WriteOk(s) && !IsStoring(s.cl.pc) && !s.cl.pc.Ended?
    ensures WriteOk(Exit(s, status)) && WriteOk(Continue(s))
  {
    hide DataOk, TrOk, Drained, First, WriteOk;
    FreshNow(s);
    WriteOkAfterOther(s, Exit(s, status));
    WriteOkAfterOther(s, Continue(s));
  }

  lemma WriteOkAfterEmpty(s: State)
    requires Inv(s) && WriteOk(s) && s.cl.pc.AwaitNext? && s.link.Replied? && s.link.r.Empty? && s.cl.tr.Some?
    ensures WriteOk(OnNextReply(s, s.link.r))
  {
    hide DataOk, TrOk, Drained, First, WriteOk;
    FreshNow(s);
    WriteOkAfterOther(s, OnNextReply(s, s.link.r));
  }

  lemma WriteOkAfterDir(s: State)
    requires Inv(s) && WriteOk(s) && s.cl.pc.AwaitDirRemoved? && s.link.Replied? && !s.link.r.Error?
    ensures WriteOk(OnDirReply(s, s.link.r))
  {
    hide DataOk, TrOk, SameFiles, NoTwin, Rename, Stuck;
    StuckIsIdle(s);
    RenameAgrees(s.cl.store, s.past.meant, Torn(s), TornMetas(s), s.cl.pc.folder);
  }

  lemma WriteOkAfterReply(s: State)
    requires Inv(s) && WriteOk(s) && ClientEnabled(s, GetReply)
    ensures WriteOk(ClientStep(s, GetReply))
  {
    hide Inv, WriteOk, Exit, Continue, HasDir;
    WriteOkAfterLeaving(s, 0);
    WriteOkAfterLeaving(s, -1);
    if s.cl.pc.AwaitNext? {
      if s.link.r.Sending? {
        WriteOkAfterSending(s);
      } else if s.link.r.Empty? && s.cl.tr.Some? {
        WriteOkAfterEmpty(s);
      }
    } else if s.cl.pc.AwaitMeta? {
      if s.link.r.Requested? && HasDir(s) {
        WriteOkAfterMeta(s);
      }
    } else if s.cl.pc.AwaitDirRemoved? && !s.link.r.Error? {
      RemovedIsTr(s);
      WriteOkAfterDir(s);
    }
  }

  lemma RemovedIsTr(s: State)
    requires Inv(s) && s.cl.pc.AwaitDirRemoved?
    ensures s.cl.dir == Some(s.cl.pc.folder)
  {
  }

  /** A new thread, a stop, or the loss of the connection. */
  lemma WriteOkAfterThread(s: State, e: Event)
    requires Inv(s) && WriteOk(s) && ClientEnabled(s, e) && (e.StartThread? || e.Lose?)
    ensures WriteOk(ClientStep(s, e))
  {
    hide DataOk, TrOk, Drained, First, WriteOk;
    FreshNow(s);
    LostCommandIsNew(s);
    WriteOkAfterOther(s, ClientStep(s, e));
  }

  lemma WriteOkAfterStop(s: State)
    requires Inv(s) && WriteOk(s)
    ensures WriteOk(ClientStep(s, UserStop))
  {
    hide SameFiles, NoTwin;
  }

  /** The command of the connection that is lost does not remove a stuck directory. */
  lemma LostCommandIsNew(s: State)
    requires Inv(s)
    ensures forall d | Stuck(s, d) :: RemoveDir(d) !in Orphaned(s)
  {
  }

  /** The client is killed: a file that is being written stays incomplete. */
  lemma WriteOkAfterRestart(s: State)
    requires Inv(s) && WriteOk(s)
    ensures WriteOk(ClientStep(s, Restart))
  {
    hide SameFiles, NoTwin, Drained, First, ServerOk, Conserved, StoreOk;
    LostCommandIsNew(s);
    if s.cl.pc.StoringMeta? {
      KilledInMeta(s);
    }
    var s' := ClientStep(s, Restart);
    assert Torn(s') == Torn(s) && TornMetas(s') == TornMetas(s);
    forall d, m | (d, m) in s'.past.wreckedMetas ensures Stuck(s', d) {
      assert (d, m) in s.past.wreckedMetas ==> Stuck(s, d);
    }
  }

  lemma KilledInMeta(s: State)
    requires Inv(s) && FreshOk(s) && s.cl.pc.StoringMeta?
    ensures var d := s.cl.pc.folder;
            && d in s.srv.dirs && RemoveDir(d) !in Orphaned(s) && Drained(s.srv, d) && First(s.srv, d)
               && s.cl.dir == Some(d)
  {
  }

  lemma WriteOkAfterClient(s: State, e: Event)
    requires Inv(s) && WriteOk(s) && ClientEnabled(s, e)
    ensures WriteOk(ClientStep(s, e))
  {
    hide Inv, WriteOk, ClientStep;
    match e
    case StartThread => WriteOkAfterThread(s, e);
    case Ask => WriteOkAfterAsk(s);
    case GetReply => WriteOkAfterReply(s);
    case GetBody => WriteOkAfterBody(s);
    case StoreMore(_) => WriteOkAfterMore(s, e);
    case StoreDone => WriteOkAfterDone(s);
    case Lose(_) => WriteOkAfterThread(s, e);
    case UserStop => WriteOkAfterStop(s);
    case Restart => WriteOkAfterRestart(s);
    case _ => NotOfClient(s, e); assert false;
  }

  lemma WriteOkAfterServerStep(s: State, e: Event)
    requires Inv(s) && WriteOk(s) && ServerEnabled(s, e)
    ensures WriteOk(ServerStep(s, e))
  {
    hide Inv, WriteOk, ServerStep, ServerEnabled;
    NotOfServer(s, e);
    if e.RunOrphan? {
      WriteOkAfterOrphan(s, e);
    } else if e.ServeRemoveFile? || e.ServeSendFile? || e.ServeRemoveDir? {
      WriteOkAfterServe(s, e);
    } else {
      WriteOkAfterScan(s, e);
    }
  }

  // ---------- every run ----------

  lemma {:induction false} WritesAlways(run: seq<State>, events: seq<Event>, i: nat)
    requires IsRun(run, events) && i < |run|
    ensures Inv(run[i]) && WriteOk(run[i])
  {
    hide Inv, WriteOk, Enabled, Step;
    if i == 0 {
      InitiallyNothing();
    } else {
      WritesAlways(run, events, i - 1);
      WriteOkAfterStep(run[i - 1], events[i - 1]);
    }
    InvAlways(run, events, i);
  }

  lemma InitiallyNothing()
    ensures WriteOk(Initial())
  {
  }

  lemma WriteOkAfterStep(s: State, e: Event)
    requires Inv(s) && WriteOk(s) && Enabled(s, e)
    ensures WriteOk(Step(s, e))
  {
    hide Inv, WriteOk, LoggerEnabled, ServerEnabled, ClientEnabled, LoggerStep, ServerStep, ClientStep;
    if LoggerEnabled(s.srv, e) {
      WriteOkAfterLogger(s, e);
    } else if ServerEnabled(s, e) {
      WriteOkAfterServerStep(s, e);
    } else {
      WriteOkAfterClient(s, e);
    }
  }

  // ---------- what is held ----------

  /** The client holds a point cloud if and only if it has been received and its copy is not torn. */
  lemma HeldUnlessTorn(s: State, d: Stamp, n: nat)
    requires Inv(s) && WriteOk(s) && d in s.srv.logs && n in s.srv.logs[d].done.clouds
    ensures var body := s.srv.logs[d].done.clouds[n];
            HeldCloud(s.cl.store, d, n, body) <==> HeldCloud(s.past.meant, d, n, body) && (d, n) !in Torn(s)
  {
    hide ServerOk, Conserved, FreshOk, StuckOk, Torn, Wrecks;
    forall l | l in s.past.meant && l.d == d
      ensures SameClouds(s.cl.store[l].clouds, s.past.meant[l].clouds, d, Torn(s))
    {
      assert CopyOk(s.srv, s.past.meant, l);
    }
  }

  lemma MetaHeldUnlessTorn(s: State, d: Stamp, m: Meta)
    requires Inv(s) && WriteOk(s) && d in s.srv.logs && m in s.srv.logs[d].done.metas
    ensures var body := s.srv.logs[d].done.metas[m];
            HeldMeta(s.cl.store, d, m, body) <==> HeldMeta(s.past.meant, d, m, body) && (d, m) !in TornMetas(s)
  {
    hide ServerOk, Conserved, FreshOk, StuckOk, TornMetas, MetaWrecks;
    forall l | l in s.past.meant && l.d == d
      ensures SameMetas(s.cl.store[l].metas, s.past.meant[l].metas, d, TornMetas(s))
    {
      assert CopyOk(s.srv, s.past.meant, l);
    }
  }

  /** A torn metadata file belongs to a directory that is on the server, and that nothing pending removes. */
  lemma TornMetaIsOnServer(s: State, d: Stamp, m: Meta)
    requires Inv(s) && WriteOk(s) && (d, m) in TornMetas(s)
    ensures d in s.srv.dirs && RemoveDir(d) !in s.orphans && s.link != Sent(RemoveDir(d))
  {
    hide DataOk, SameFiles, NoTwin, First, Drained;
    if (d, m) in s.past.wreckedMetas {
      StuckStays(s, d);
      assert Stuck(s, d);
    }
  }
}
