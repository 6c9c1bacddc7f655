/**
 How a point cloud can be lost: it is sent again after a loss of the connection, the client is killed while it writes
 over the copy that it had, and the earlier, late removal is executed before that or after. Here are the exact
 condition for a point cloud's being lost for good, the steps by which that happens, and a run for each.
 */
module Losses {
  import opened Basics
  import opened Archive
  import opened Guarantees
  import opened Protocol
  import opened Safety
  import opened Scenes
  import opened Writes

  // ---------- what opens the window ----------

  /** The thread has point cloud n of session d in hand: announced, received, or being written. */
  ghost predicate InHand(s: State, d: Stamp, n: nat) {
    match s.cl.pc
    case AwaitNext => s.link.Replied? && s.link.r.Sending? && s.link.r.d == d && s.link.r.n == n
    case AwaitBody(e, _, k) => e == d && k == n
    case Storing(e, _, k, _, _) => e == d && k == n
    case _ => false
  }

  lemma ServerPutsInHand(s: State, e: Event, d: Stamp, n: nat)
    requires ServerEnabled(s, e) && InHand(ServerStep(s, e), d, n)
    ensures (InHand(s, d, n) && ServerStep(s, e).session == s.session)
            || (e == ReadCloud && !Gone(ServerStep(s, e).srv, d, n))
  {
  }

  lemma ClientKeepsInHand(s: State, e: Event, d: Stamp, n: nat)
    requires ThreadOk(s) && ClientEnabled(s, e) && InHand(ClientStep(s, e), d, n)
    ensures InHand(s, d, n) && ClientStep(s, e).session == s.session
  {
    hide WithDir, WriteCloud, WriteLocalMeta, Rename;
  }

  lemma TakenInHand(s: State, e: Event, d: Stamp, n: nat)
    requires Inv(s) && Enabled(s, e) && InHand(Step(s, e), d, n)
    ensures (InHand(s, d, n) && Step(s, e).session == s.session) || (e == ReadCloud && !Gone(Step(s, e).srv, d, n))
  {
    hide DataOk, TrOk, ThreadOk, LoggerEnabled, ServerEnabled, ClientEnabled, LoggerStep, ServerStep, ClientStep, Gone;
    if !LoggerEnabled(s.srv, e) {
      if ServerEnabled(s, e) {
        ServerPutsInHand(s, e, d, n);
      } else {
        ClientKeepsInHand(s, e, d, n);
      }
    }
  }

  lemma GoneInHand(s: State, e: Event, d: Stamp, n: nat) returns (lidar: nat)
    requires Inv(s) && Enabled(s, e) && InHand(s, d, n) && !Gone(s.srv, d, n) && Gone(Step(s, e).srv, d, n)
    requires InHand(Step(s, e), d, n)
    ensures e == RunOrphan(RemoveFile(d, lidar, n))
  {
    hide DataOk, TrOk, First, Drained, Removable, Executes, Enabled, Step;
    if d !in Step(s, e).srv.dirs {
      DirGoneStep(s, e, d);
      NoRemovalPending(s, d, n);
      NotByThisThread(s, e, RemoveDir(d), d, n);
    } else {
      InvMeansLogger(s, d);
      CloudGoneStep(s, e, d, n);
      lidar :| Executes(s, e, RemoveFile(d, lidar, n));
      NotByThisThread(s, e, RemoveFile(d, lidar, n), d, n);
    }
  }

  lemma InvMeansLogger(s: State, d: Stamp)
    requires Inv(s) && d in s.srv.dirs
    ensures LoggerOk(s.srv) && d in s.srv.logs
  {
  }

  lemma NotByThisThread(s: State, e: Event, c: Command, d: Stamp, n: nat)
    requires Inv(s) && InHand(s, d, n) && Executes(s, e, c) && !c.SendNext?
    ensures e == RunOrphan(c) && c in s.orphans
  {
    hide DataOk, TrOk, First, Drained, Removable;
  }

  /** A file that is being written has disappeared from the server meanwhile only by a late removal: one that was sent
      on an earlier connection and is executed during this one. */
  lemma {:induction false} LateRemovalOpensWindow(run: seq<State>, events: seq<Event>, i: nat, d: Stamp, n: nat)
    returns (k: nat, lidar: nat)
    requires IsRun(run, events) && i < |run| && InHand(run[i], d, n) && Gone(run[i].srv, d, n)
    ensures k < i && events[k] == RunOrphan(RemoveFile(d, lidar, n)) && run[k].session == run[i].session
    ensures InHand(run[k], d, n)
  {
    hide Inv, Enabled, Step, InHand, Gone;
    if i == 0 {
      NothingInHandYet(d, n);
    } else {
      var s, e := run[i - 1], events[i - 1];
      InvAlways(run, events, i - 1);
      TakenInHand(s, e, d, n);
      if Gone(s.srv, d, n) {
        k, lidar := LateRemovalOpensWindow(run, events, i - 1, d, n);
      } else {
        k := i - 1;
        lidar := GoneInHand(s, e, d, n);
      }
    }
  }

  lemma NothingInHandYet(d: Stamp, n: nat)
    ensures !InHand(Initial(), d, n)
  {
  }

  // ---------- what is lost ----------

  ghost predicate Finished(s: State, d: Stamp, n: nat) {
    d in s.srv.logs && n in s.srv.logs[d].done.clouds
  }

  /** The server has removed the point cloud, the writing of its last copy was cut short by a kill, and no thread has
      it in hand again. */
  ghost predicate IsLost(s: State, d: Stamp, n: nat) {
    Finished(s, d, n) && Gone(s.srv, d, n) && (d, n) in s.past.wrecked && !InHand(s, d, n)
  }

  /** The steps by which a point cloud is lost. It is removed from the server, and: the client is killed while it
      writes the file; or it was killed then and the removal comes after that; or a later thread has the file in hand
      again, and loses its connection or is killed before it opens the copy. */
  ghost predicate Loses(s: State, e: Event, d: Stamp, n: nat) {
    match e
    case Restart => Gone(s.srv, d, n) && InHand(s, d, n) && (d, n) in s.past.wrecked + Wrecks(s.cl)
    case RunOrphan(c) =>
      c.RemoveFile? && c.d == d && c.n == n && HasCloud(s.srv.dirs, d, c.lidar, n)
      && (d, n) in s.past.wrecked && !InHand(s, d, n)
    case Lose(_) => Gone(s.srv, d, n) && InHand(s, d, n) && (d, n) in s.past.wrecked
    case _ => false
  }

  /** What the thread has stored and not yet removed is not wrecked. */
  ghost predicate StoredAgain(s: State) {
    match s.cl.pc
    case Storing(d, _, n, _, _) => (d, n) !in s.past.wrecked
    case MustRemove(d, _, n) => (d, n) !in s.past.wrecked
    case AwaitRemoved => s.link.Sent? && s.link.c.RemoveFile? ==> (s.link.c.d, s.link.c.n) !in s.past.wrecked
    case _ => true
  }

  lemma StoredAgainAfterClient(s: State, e: Event)
    requires StoredAgain(s) && ClientEnabled(s, e)
    ensures StoredAgain(ClientStep(s, e))
  {
    hide WithDir, WriteCloud, WriteLocalMeta, Rename;
  }

  lemma StoredAgainAfterServer(s: State, e: Event)
    requires StoredAgain(s) && ServerEnabled(s, e)
    ensures StoredAgain(ServerStep(s, e))
  {
    hide Serve;
  }

  lemma StoredAgainAfterStep(s: State, e: Event)
    requires StoredAgain(s) && Enabled(s, e)
    ensures StoredAgain(Step(s, e))
  {
    hide LoggerEnabled, ServerEnabled, ClientEnabled, LoggerStep, ServerStep, ClientStep;
    if !LoggerEnabled(s.srv, e) {
      if ServerEnabled(s, e) {
        StoredAgainAfterServer(s, e);
      } else {
        StoredAgainAfterClient(s, e);
      }
    }
  }

  lemma {:induction false} StoredAgainAlways(run: seq<State>, events: seq<Event>, i: nat)
    requires IsRun(run, events) && i < |run|
    ensures StoredAgain(run[i])
  {
    hide Enabled, Step;
    if i > 0 {
      StoredAgainAlways(run, events, i - 1);
      StoredAgainAfterStep(run[i - 1], events[i - 1]);
    }
  }

  lemma GoneStays(s: State, e: Event, d: Stamp, n: nat)
    requires Inv(s) && Enabled(s, e) && Finished(s, d, n) && Gone(s.srv, d, n)
    ensures Finished(Step(s, e), d, n) && Gone(Step(s, e).srv, d, n)
  {
    hide Step, Enabled, Conserved, StoreOk, ThreadOk;
    var sv := Step(s, e).srv;
    LaterAfterStep(s, e);
    InvAfterStep(s, e);
    assert LogKept(s.srv, sv, d) && LogOk(s.srv, d);
    assert d in s.srv.dirs ==> DirOk(s.srv, d);
    assert d in sv.dirs ==> DirOk(sv, d);
  }

  lemma LoggerLosesNothing(s: State, e: Event, d: Stamp, n: nat)
    requires Inv(s) && LoggerEnabled(s.srv, e) && !(Finished(s, d, n) && Gone(s.srv, d, n))
    ensures var sv := LoggerStep(s.srv, e); d in sv.logs && n in sv.logs[d].done.clouds ==> !Gone(sv, d, n)
  {
    hide Inv, LoggerEnabled, LoggerStep, Gone;
    if !Gone(s.srv, d, n) {
      LoggerRemovesNothing(s, e, d, n);
    } else {
      FinishedIsThere(s.srv, e, d, n);
    }
  }

  lemma LoggerRemovesNothing(s: State, e: Event, d: Stamp, n: nat)
    requires Inv(s) && LoggerEnabled(s.srv, e) && !Gone(s.srv, d, n)
    ensures !Gone(LoggerStep(s.srv, e), d, n)
  {
    hide Conserved, StoreOk, ThreadOk, TrOk, LogOk, DirOk;
  }

  lemma FinishedIsThere(sv: Server, e: Event, d: Stamp, n: nat)
    requires LoggerEnabled(sv, e) && !(d in sv.logs && n in sv.logs[d].done.clouds)
    ensures var b := LoggerStep(sv, e); d in b.logs && n in b.logs[d].done.clouds ==> !Gone(b, d, n)
  {
  }

  /** A removal on the thread's own connection is that of a stored file, or of an empty directory. */
  lemma ServedLosesNothing(s: State, e: Event, d: Stamp, n: nat)
    requires Inv(s) && StoredAgain(s) && ServerEnabled(s, e) && !e.RunOrphan?
    requires Finished(s, d, n) && !Gone(s.srv, d, n) && Gone(ServerStep(s, e).srv, d, n)
    ensures (d, n) !in s.past.wrecked
  {
    hide Conserved, StoreOk, TrOk, IsScan;
    assert DirOk(s.srv, d);
  }

  lemma OrphanLoses(s: State, c: Command, d: Stamp, n: nat)
    requires Inv(s) && c in s.orphans && !c.SendNext? && !Gone(s.srv, d, n)
    ensures Gone(Serve(s.srv, c).0, d, n) <==>
              c.RemoveFile? && c.d == d && c.n == n && HasCloud(s.srv.dirs, d, c.lidar, n)
  {
    hide Conserved, StoreOk, ThreadOk, TrOk;
    assert DirOk(s.srv, d) && CommandOk(s.srv, s.past.meant, c);
  }

  lemma ClientLoses(s: State, e: Event, d: Stamp, n: nat)
    requires ThreadOk(s) && StoredAgain(s) && ClientEnabled(s, e) && Gone(s.srv, d, n)
    ensures (d, n) in ClientStep(s, e).past.wrecked && !InHand(ClientStep(s, e), d, n) <==>
              ((d, n) in s.past.wrecked && !InHand(s, d, n)) || Loses(s, e, d, n)
  {
  }

  lemma LostAfterLogger(s: State, e: Event, d: Stamp, n: nat)
    requires Inv(s) && LoggerEnabled(s.srv, e)
    ensures IsLost(s.(srv := LoggerStep(s.srv, e)), d, n) <==> IsLost(s, d, n)
  {
    hide Inv, LoggerEnabled, LoggerStep, Gone;
    if Finished(s, d, n) && Gone(s.srv, d, n) {
      LoggerStepIs(s, e);
      GoneStays(s, e, d, n);
    } else {
      LoggerLosesNothing(s, e, d, n);
    }
  }

  lemma LoggerStepIs(s: State, e: Event)
    requires LoggerEnabled(s.srv, e)
    ensures Enabled(s, e) && Step(s, e) == s.(srv := LoggerStep(s.srv, e)) && !e.Restart? && !e.RunOrphan? && !e.Lose?
  {
  }

  lemma ServerStepIs(s: State, e: Event)
    requires ServerEnabled(s, e)
    ensures Enabled(s, e) && Step(s, e) == ServerStep(s, e) && ServerStep(s, e).cl == s.cl && !e.Restart? && !e.Lose?
    ensures ServerStep(s, e).past.wrecked == s.past.wrecked
    ensures forall d, n :: Finished(ServerStep(s, e), d, n) <==> Finished(s, d, n)
    ensures e.RunOrphan? ==> e.c in s.orphans && !e.c.SendNext? && ServerStep(s, e) == s.(srv := Serve(s.srv, e.c).0)
  {
    hide LoggerStep;
  }

  lemma LostAfterServer(s: State, e: Event, d: Stamp, n: nat)
    requires Inv(s) && StoredAgain(s) && ServerEnabled(s, e)
    ensures IsLost(ServerStep(s, e), d, n) <==> IsLost(s, d, n) || (Finished(s, d, n) && Loses(s, e, d, n))
  {
    hide Inv, ServerEnabled, ServerStep, InHand, Gone, StoredAgain, HasCloud, Serve, Finished;
    var s' := ServerStep(s, e);
    ServerStepIs(s, e);
    if Finished(s, d, n) {
      if Gone(s.srv, d, n) {
        GoneStays(s, e, d, n);
        if InHand(s', d, n) {
          TakenInHand(s, e, d, n);
        }
        HandKept(s, e, d, n);
        GoneIsNotThere(s, d, n);
      } else if e.RunOrphan? {
        OrphanLoses(s, e.c, d, n);
        HandKept(s, e, d, n);
      } else if Gone(s'.srv, d, n) {
        ServedLosesNothing(s, e, d, n);
      }
    }
  }

  lemma HandKept(s: State, e: Event, d: Stamp, n: nat)
    requires Inv(s) && ServerEnabled(s, e)
    ensures InHand(s, d, n) ==> InHand(ServerStep(s, e), d, n)
    ensures e.RunOrphan? ==> (InHand(ServerStep(s, e), d, n) <==> InHand(s, d, n))
  {
    hide DataOk, TrOk, Serve;
  }

  lemma GoneIsNotThere(s: State, d: Stamp, n: nat)
    requires Gone(s.srv, d, n)
    ensures forall lidar :: !HasCloud(s.srv.dirs, d, lidar, n)
  {
  }

  lemma LostAfterClient(s: State, e: Event, d: Stamp, n: nat)
    requires Inv(s) && StoredAgain(s) && ClientEnabled(s, e)
    ensures IsLost(ClientStep(s, e), d, n) <==> IsLost(s, d, n) || (Finished(s, d, n) && Loses(s, e, d, n))
  {
    hide DataOk, TrOk, ThreadOk, InHand, StoredAgain, Wrecks, MetaWrecks;
    ClientKeepsServer(s, e);
    if Gone(s.srv, d, n) {
      ClientLoses(s, e, d, n);
    }
  }

  /** A point cloud is lost after a step if and only if it was lost before, or this is one of the steps that lose it. */
  lemma LostAfterStepIff(run: seq<State>, events: seq<Event>, i: nat, d: Stamp, n: nat)
    requires IsRun(run, events) && i < |events|
    ensures IsLost(run[i + 1], d, n) <==>
              IsLost(run[i], d, n) || (Finished(run[i], d, n) && Loses(run[i], events[i], d, n))
  {
    hide Inv, StoredAgain, IsLost, Loses, LoggerStep, ServerStep, ClientStep;
    hide LoggerEnabled, ServerEnabled, ClientEnabled;
    var s, e := run[i], events[i];
    InvAlways(run, events, i);
    StoredAgainAlways(run, events, i);
    if LoggerEnabled(s.srv, e) {
      LoggerStepIs(s, e);
      LoggerIsNoLoss(s, e, d, n);
      LostAfterLogger(s, e, d, n);
    } else if ServerEnabled(s, e) {
      LostAfterServer(s, e, d, n);
    } else {
      LostAfterClient(s, e, d, n);
    }
  }

  lemma LoggerIsNoLoss(s: State, e: Event, d: Stamp, n: nat)
    requires LoggerEnabled(s.srv, e)
    ensures !Loses(s, e, d, n)
  {
  }

  // ---------- lost is lost for good, and nothing else is ----------

  /** A side has point cloud n of session d with this content. */
  ghost predicate Somewhere(s: State, d: Stamp, n: nat, body: Bytes) {
    CloudOnServer(s.srv, d, n, body) || HeldCloud(s.cl.store, d, n, body)
  }

  lemma {:induction false} LostForEver(run: seq<State>, events: seq<Event>, i: nat, j: nat, d: Stamp, n: nat)
    requires IsRun(run, events) && i <= j < |run| && IsLost(run[i], d, n)
    ensures IsLost(run[j], d, n)
    decreases j - i
  {
    hide Inv, Enabled, Step, IsLost;
    if i < j {
      LostForEver(run, events, i, j - 1, d, n);
      LostAfterStepIff(run, events, j - 1, d, n);
    }
  }

  lemma LostIsNowhere(run: seq<State>, events: seq<Event>, i: nat, d: Stamp, n: nat)
    requires IsRun(run, events) && i < |run| && IsLost(run[i], d, n)
    ensures !Somewhere(run[i], d, n, run[i].srv.logs[d].done.clouds[n])
  {
    hide Wrecks;
    NothingIsLostIff(run, events, i, d);
  }

  lemma SameContent(run: seq<State>, events: seq<Event>, i: nat, j: nat, d: Stamp, n: nat)
    requires IsRun(run, events) && i <= j < |run| && Finished(run[i], d, n)
    ensures Finished(run[j], d, n) && run[j].srv.logs[d].done.clouds[n] == run[i].srv.logs[d].done.clouds[n]
  {
    RecordIsKept(run, events, i, j);
    assert LogKept(run[i].srv, run[j].srv, d);
  }

  /** The thread that has a point cloud in hand can go on to store it. */
  lemma TakenAgain(s: State, d: Stamp, n: nat) returns (b: State)
    requires Inv(s) && WriteOk(s) && s.cl.pc.AwaitNext? && InHand(s, d, n)
    ensures Reach(s, b) && Inv(b) && WriteOk(b) && b.cl.pc.AwaitBody? && InHand(b, d, n) && b.srv == s.srv
  {
    hide Inv, WriteOk, Reach, LoggerStep, ServerStep;
    ReachSelf(s);
    ReachStep(s, s, GetReply);
    b := Step(s, GetReply);
    InvAfterStep(s, GetReply);
    WriteOkAfterStep(s, GetReply);
  }

  lemma OpenedAgain(s: State, d: Stamp, n: nat) returns (b: State)
    requires Inv(s) && WriteOk(s) && s.cl.pc.AwaitBody? && InHand(s, d, n)
    ensures Reach(s, b) && Inv(b) && WriteOk(b) && b.cl.pc.Storing? && InHand(b, d, n) && b.srv == s.srv
  {
    hide DataOk, TrOk, WriteOk, Reach, LoggerStep, ServerStep;
    SameDirs(s);
    ReachSelf(s);
    ReachStep(s, s, GetBody);
    b := Step(s, GetBody);
    InvAfterStep(s, GetBody);
    WriteOkAfterStep(s, GetBody);
  }

  lemma WrittenAgain(s: State, d: Stamp, n: nat) returns (b: State)
    requires Inv(s) && WriteOk(s) && s.cl.pc.Storing? && InHand(s, d, n)
    ensures Reach(s, b) && b.srv == s.srv && (d, n) !in Torn(b)
  {
    hide DataOk, TrOk, FreshOk, SameFiles, StuckOk, Reach, LoggerStep, ServerStep;
    ReachSelf(s);
    b := s;
    if s.cl.pc.written < |s.cl.pc.body| {
      SameDirs(s);
      MeantCopy(s);
      ReachStep(s, s, StoreMore(|s.cl.pc.body|));
      b := Step(s, StoreMore(|s.cl.pc.body|));
    }
  }

  lemma SameDirs(s: State)
    requires WriteOk(s)
    ensures s.cl.store.Keys == s.past.meant.Keys && NoTwin(s.cl.store)
    ensures forall l :: l in s.cl.store <==> l in s.past.meant
  {
    hide FreshOk, StuckOk, NoTwin;
    SameKeys(s.cl.store, s.past.meant, Torn(s), TornMetas(s));
  }

  lemma StoredInTheEnd(s: State, d: Stamp, n: nat) returns (b: State)
    requires Inv(s) && WriteOk(s) && InHand(s, d, n)
    ensures Reach(s, b) && b.srv == s.srv && (d, n) !in Torn(b)
  {
    hide Inv, WriteOk, Reach, Torn;
    b := s;
    ReachSelf(s);
    if b.cl.pc.AwaitNext? {
      b := TakenAgain(s, d, n);
    }
    if b.cl.pc.AwaitBody? {
      var begun := OpenedAgain(b, d, n);
      ReachOn(s, b, begun);
      b := begun;
    }
    var written := WrittenAgain(b, d, n);
    ReachOn(s, b, written);
    b := written;
  }

  /** Not lost: a side has it, or will have it if the thread goes on. */
  lemma FoundSomewhere(run: seq<State>, events: seq<Event>, i: nat, d: Stamp, n: nat) returns (b: State)
    requires IsRun(run, events) && i < |run| && Finished(run[i], d, n) && !IsLost(run[i], d, n)
    ensures Reach(run[i], b) && Somewhere(b, d, n, run[i].srv.logs[d].done.clouds[n])
  {
    hide Inv, WriteOk, Reach, Gone, InHand, Enabled, Step, CloudOnServer, HeldCloud;
    var s := run[i];
    WritesAlways(run, events, i);
    b := s;
    ReachSelf(s);
    if Gone(s.srv, d, n) && (d, n) in Torn(s) {
      TornIsInHand(s, d, n);
      b := StoredInTheEnd(s, d, n);
    }
    var run', events' := RunTo(run, events, i, b);
    NothingIsLostIff(run', events', |events'|, d);
  }

  lemma TornIsInHand(s: State, d: Stamp, n: nat)
    requires (d, n) in Torn(s) && ((d, n) in s.past.wrecked ==> InHand(s, d, n))
    ensures InHand(s, d, n)
  {
  }

  /** A finished point cloud will never again be on the server or with the client, however the run goes on, if and
      only if it is lost now. */
  lemma LostIff(run: seq<State>, events: seq<Event>, i: nat, d: Stamp, n: nat)
    requires IsRun(run, events) && i < |run| && Finished(run[i], d, n)
    ensures var body := run[i].srv.logs[d].done.clouds[n];
            IsLost(run[i], d, n) <==> forall b | Reach(run[i], b) :: !Somewhere(b, d, n, body)
  {
    hide IsLost, Reach, Somewhere, Enabled, Step;
    var body := run[i].srv.logs[d].done.clouds[n];
    if IsLost(run[i], d, n) {
      forall b | Reach(run[i], b) ensures !Somewhere(b, d, n, body) {
        var run', events' := RunTo(run, events, i, b);
        LostForEver(run', events', i, |events'|, d, n);
        SameContent(run', events', i, |events'|, d, n);
        LostIsNowhere(run', events', |events'|, d, n);
      }
    } else {
      var b := FoundSomewhere(run, events, i, d, n);
    }
  }

  /** If the client is killed while it writes a point cloud that has been removed from the server meanwhile, the file
      is at no later moment on the server or with the client. */
  lemma KilledInWindow(run: seq<State>, events: seq<Event>, i: nat, j: nat)
    requires IsRun(run, events) && i < j < |run| && events[i] == Restart
    requires run[i].cl.pc.Storing? && run[i].cl.pc.written < |run[i].cl.pc.body|
    requires Gone(run[i].srv, run[i].cl.pc.d, run[i].cl.pc.n)
    ensures var (d, n) := (run[i].cl.pc.d, run[i].cl.pc.n);
            && d in run[j].srv.logs && n in run[j].srv.logs[d].done.clouds
            && !CloudOnServer(run[j].srv, d, n, run[j].srv.logs[d].done.clouds[n])
            && !HeldCloud(run[j].cl.store, d, n, run[j].srv.logs[d].done.clouds[n])
  {
    hide IsLost, Gone, CloudOnServer, HeldCloud, Enabled, Step;
    var d, n := run[i].cl.pc.d, run[i].cl.pc.n;
    WriterHasTheFile(run, events, i);
    LostAfterStepIff(run, events, i, d, n);
    LostForEver(run, events, i + 1, j, d, n);
    LostIsFinished(run[j], d, n);
    LostIsNowhere(run, events, j, d, n);
  }

  lemma LostIsFinished(s: State, d: Stamp, n: nat)
    requires IsLost(s, d, n)
    ensures d in s.srv.logs && n in s.srv.logs[d].done.clouds
  {
  }

  // ---------- runs in which it happens ----------

  /** The connection is lost; the next thread is sent the point cloud again and opens it. */
  function Overwritten(k: nat): State
    requires k <= 3
  {
    var past := History([Send(1, 0, 1)] + (if k == 0 then [] else [Send(1, 0, 2)]), Local(BODY), {}, {});
    var cl := if k == 0 then Client(Ended, -2, true, Some((1, 0)), Some(1), Local(BODY))
              else if k == 2 then Client(AwaitBody(1, 0, 0), 1, true, Some((1, 0)), Some(1), Local(BODY))
              else Client(Storing(1, 0, 0, BODY, 0), 1, true, Some((1, 0)), Some(1), Local([]));
    if k == 1 then Asked(6, Overwritten(0))
    else State(FULL, cl, if k == 2 then SENDING else Quiet, {REMOVAL}, if k == 0 then 1 else 2, past)
  }

  /** The late removal has been executed. */
  const REMOVED: Server := Disk(map[], CLOUD, 0, 0, 1, Off)

  function Without(s: State): State {
    s.(srv := REMOVED)
  }

  /** The client has been killed while it was writing the point cloud. */
  function Killed(): State {
    State(FULL, Client(Ended, 0, false, None, None, Local([])), Quiet, {REMOVAL}, 2,
          Overwritten(3).past.(wrecked := {(1, 0)}))
  }

  /** A thread that is sent the point cloud once more has lost its connection. */
  function Interrupted(): State {
    var s := Asked(6, Killed());
    s.(cl := s.cl.(pc := Ended, status := -2), link := Quiet)
  }

  lemma LossTaken()
    ensures Takes(Stored(5, FULL), Lose(-2), Overwritten(0))
  {
    hide LoggerStep, ServerStep, Disk, Notes;
  }

  lemma SentAgain()
    ensures Takes(Overwritten(1), GetReply, Overwritten(2))
  {
    hide LoggerStep, ServerStep, WriteCloud, WithDir;
    LocalWrites(BODY, []);
  }

  lemma CopyEmptied()
    ensures Takes(Overwritten(2), GetBody, Overwritten(3))
  {
    hide LoggerStep, ServerStep, WriteCloud, WithDir;
    LocalWrites(BODY, []);
    LocalWrites(BODY, BODY);
  }

  lemma OverwrittenReached()
    ensures Reach(Initial(), Overwritten(3))
  {
    hide Reach, Takes, Overwritten;
    FullReached();
    FullHasOne();
    StoredReached(5, FULL);
    LossTaken();
    TakesReach(Initial(), Stored(5, FULL), Lose(-2), Overwritten(0));
    BeginOver();
    AskedReached(6, Overwritten(0));
    SentAgain();
    TakesReach(Initial(), Overwritten(1), GetReply, Overwritten(2));
    CopyEmptied();
    TakesReach(Initial(), Overwritten(2), GetBody, Overwritten(3));
  }

  lemma FullHasOne()
    ensures HasOneCloud(FULL)
  {
  }

  lemma BeginOver()
    ensures MayAsk(Overwritten(0)) && Overwritten(1) == Asked(6, Overwritten(0))
  {
  }

  lemma LateRemoval(s: State)
    requires s.srv == FULL && REMOVAL in s.orphans
    ensures Takes(s, RunOrphan(REMOVAL), Without(s))
  {
    hide LoggerStep, ClientStep;
    OneCloud();
    assert CLOUD - {0} == map[];
    assert Serve(FULL, REMOVAL).0 == REMOVED;
  }

  lemma Kills()
    ensures Takes(Overwritten(3), Restart, Killed()) && Takes(Without(Overwritten(3)), Restart, Without(Killed()))
  {
    hide LoggerStep, ServerStep, Disk, Notes;
  }

  lemma Interrupts()
    ensures Takes(Without(Asked(6, Killed())), Lose(-2), Without(Interrupted()))
  {
    hide LoggerStep, ServerStep, Disk, Notes;
  }

  lemma LostThere()
    ensures IsLost(Without(Killed()), 1, 0) && IsLost(Without(Interrupted()), 1, 0)
    ensures !Somewhere(Without(Overwritten(3)), 1, 0, BODY)
    ensures Somewhere(Killed(), 1, 0, BODY) && !IsLost(Without(Asked(6, Killed())), 1, 0)
  {
  }

  /** The removal comes first: while the client writes over its copy neither side has the point cloud, and it is
      killed then. */
  lemma ACloudIsLost() returns (run: seq<State>, events: seq<Event>)
    ensures IsRun(run, events + [RunOrphan(REMOVAL), Restart])
    ensures var s := run[|events| + 1];
            && s.cl.pc == Storing(1, 0, 0, BODY, 0) && Finished(s, 1, 0) && s.srv.logs[1].done.clouds == CLOUD
            && !Somewhere(s, 1, 0, BODY)
    ensures IsLost(run[|events| + 2], 1, 0)
  {
    hide Reach, Takes, IsLost, Somewhere;
    OverwrittenReached();
    LateRemoval(Overwritten(3));
    Kills();
    LostThere();
    run, events := EndsWithBoth(Overwritten(3), RunOrphan(REMOVAL), Without(Overwritten(3)), Restart,
                                Without(Killed()));
  }

  /** The kill comes first: the server still has the point cloud then, until the removal is executed. */
  lemma ACloudIsLostLater() returns (run: seq<State>, events: seq<Event>)
    ensures IsRun(run, events + [Restart, RunOrphan(REMOVAL)])
    ensures CloudOnServer(run[|events| + 1].srv, 1, 0, BODY) && IsLost(run[|events| + 2], 1, 0)
  {
    hide Reach, Takes, IsLost;
    OverwrittenReached();
    Kills();
    LateRemoval(Killed());
    LostThere();
    run, events := EndsWithBoth(Overwritten(3), Restart, Killed(), RunOrphan(REMOVAL), Without(Killed()));
  }

  lemma InterruptedReached()
    ensures Reach(Initial(), Asked(6, Killed()))
  {
    hide Reach, Takes, Overwritten;
    OverwrittenReached();
    Kills();
    TakesReach(Initial(), Overwritten(3), Restart, Killed());
    AskedReached(6, Killed());
  }

  /** After the kill a thread is sent the point cloud again, and could still save it when the removal is executed; but
      it loses its connection. */
  lemma ACloudIsLostInHand() returns (run: seq<State>, events: seq<Event>)
    ensures IsRun(run, events + [RunOrphan(REMOVAL), Lose(-2)])
    ensures InHand(run[|events| + 1], 1, 0) && !IsLost(run[|events| + 1], 1, 0) && IsLost(run[|events| + 2], 1, 0)
  {
    hide Reach, Takes, IsLost;
    InterruptedReached();
    LateRemoval(Asked(6, Killed()));
    Interrupts();
    LostThere();
    run, events := EndsWithBoth(Asked(6, Killed()), RunOrphan(REMOVAL), Without(Asked(6, Killed())), Lose(-2),
                                Without(Interrupted()));
  }
}
