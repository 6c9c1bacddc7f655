/**
 How the transfer comes to a standstill: the connection is lost, or the client killed, after the last point cloud of
 the oldest session has been removed and before the removal of its directory is sent. The next thread is told EMPTY
 and has no local directory for it; it fails, and so does every thread after it.
 */
module Stalls {
  import opened Archive
  import opened Guarantees
  import opened Protocol
  import opened Safety
  import opened Scenes
  import opened SendOrder
  import opened Writes

  // ---------- a standstill lasts ----------

  lemma StuckAfterLogger(s: State, e: Event, d: Stamp)
    requires Inv(s) && Stuck(s, d) && LoggerEnabled(s.srv, e)
    ensures Stuck(s.(srv := LoggerStep(s.srv, e)), d)
  {
    hide Inv, Stuck, LoggerEnabled, LoggerStep, GoodMove;
    StuckStays(s, d);
    LoggerStepKeepsDirs(s.srv, e);
    GoodMoveOf(s, e);
    StuckKept(s, LoggerStep(s.srv, e), d);
  }

  lemma StuckAfterOrphan(s: State, c: Command, d: Stamp)
    requires Inv(s) && Stuck(s, d) && c in s.orphans && !c.SendNext?
    ensures Stuck(s.(srv := Serve(s.srv, c).0), d)
  {
    hide ServerOk, Conserved, StoreOk, Later, ThreadOk, Stuck;
    StuckStays(s, d);
    ServeSafe(s.srv, s.past.meant, c);
    ServeRemovesDir(s.srv, c);
    StuckKept(s, Serve(s.srv, c).0, d);
  }

  lemma NothingToSend(s: State, d: Stamp)
    requires Inv(s) && Stuck(s, d) && s.link.Working? && s.link.t.Chosen? && s.cl.pc.AwaitNext?
    ensures !HasCloud(s.srv.dirs, s.link.t.d, s.link.t.lidar, s.link.t.first)
  {
    hide Conserved, StoreOk;
    OnlyOldest(s, d);
    assert DirOk(s.srv, d);
  }

  lemma StuckAfterServer(s: State, e: Event, d: Stamp)
    requires Inv(s) && Stuck(s, d) && ServerEnabled(s, e)
    ensures Stuck(ServerStep(s, e), d) && ServerStep(s, e).past == s.past
  {
    hide DataOk, TrOk, IsScan, Drained, First;
    if e.RunOrphan? {
      StuckAfterOrphan(s, e.c, d);
    } else if e.ReadCloud? {
      NothingToSend(s, d);
    }
  }

  lemma StuckAfterClient(s: State, e: Event, d: Stamp)
    requires Inv(s) && Stuck(s, d) && ClientEnabled(s, e)
    ensures Stuck(ClientStep(s, e), d) && ClientStep(s, e).past.sends == s.past.sends
  {
    hide DataOk, TrOk, Drained, First;
  }

  lemma StuckAfterStep(s: State, e: Event, d: Stamp)
    requires Inv(s) && Stuck(s, d) && Enabled(s, e)
    ensures Stuck(Step(s, e), d) && Step(s, e).past.sends == s.past.sends
  {
    hide Inv, Stuck, LoggerEnabled, ServerEnabled, ClientEnabled, LoggerStep, ServerStep, ClientStep;
    if LoggerEnabled(s.srv, e) {
      StuckAfterLogger(s, e, d);
    } else if ServerEnabled(s, e) {
      StuckAfterServer(s, e, d);
    } else {
      StuckAfterClient(s, e, d);
    }
  }

  /** No point cloud disappears from the server. */
  ghost predicate CloudsStay(a: Server, b: Server) {
    forall d, n: nat | !Gone(a, d, n) :: !Gone(b, d, n)
  }

  lemma CloudsStayTransitive(a: Server, b: Server, c: Server)
    requires CloudsStay(a, b) && CloudsStay(b, c)
    ensures CloudsStay(a, c)
  {
  }

  lemma NothingRemoved(run: seq<State>, events: seq<Event>, i: nat, d: Stamp)
    requires IsRun(run, events) && i < |events| && Stuck(run[i], d)
    ensures CloudsStay(run[i].srv, run[i + 1].srv)
  {
    hide Inv, Enabled, Step, SendsOk;
    forall e, n: nat | !Gone(run[i].srv, e, n) ensures !Gone(run[i + 1].srv, e, n) {
      if Gone(run[i + 1].srv, e, n) {
        RemovedIsLastSent(run, events, i, e, n);
        InvAlways(run, events, i);
        SendsAlways(run, events, i);
        LastSentIsFirst(run[i], d, e);
      }
    }
  }

  lemma LastSentIsFirst(s: State, d: Stamp, e: Stamp)
    requires Inv(s) && SendsOk(s) && Stuck(s, d) && e in s.srv.dirs
    requires s.past.sends != [] && s.past.sends[|s.past.sends| - 1].d == e
    ensures s.srv.dirs[e].files.clouds == map[]
  {
    hide Conserved, StoreOk, ThreadOk, TrOk, InOrder, ThreadSends;
    assert DirOk(s.srv, d);
  }

  /** From a standstill on nothing moves any more: the directory stays where it is, no further point cloud of any
      session is sent, and none is removed from the server. */
  lemma {:induction false} StuckForEver(run: seq<State>, events: seq<Event>, i: nat, j: nat, d: Stamp)
    requires IsRun(run, events) && i <= j < |run| && Stuck(run[i], d)
    ensures Stuck(run[j], d) && run[j].past.sends == run[i].past.sends && CloudsStay(run[i].srv, run[j].srv)
    decreases j - i
  {
    hide Inv, Enabled, Step, Stuck, CloudsStay;
    if i == j {
      AllStay(run[i].srv);
    } else {
      StuckForEver(run, events, i, j - 1, d);
      InvAlways(run, events, j - 1);
      StuckAfterStep(run[j - 1], events[j - 1], d);
      NothingRemoved(run, events, j - 1, d);
      CloudsStayTransitive(run[i].srv, run[j - 1].srv, run[j].srv);
    }
  }

  lemma AllStay(sv: Server)
    ensures CloudsStay(sv, sv)
  {
  }

  // ---------- when it comes to that ----------

  /** The oldest session is over and has no point cloud left on the server. */
  ghost predicate OnlyDirLeft(sv: Server, d: Stamp) {
    IsOldest(sv.dirs, d) && d in sv.logs && !Open(sv, d) && sv.dirs[d].files.clouds == map[]
  }

  lemma LeftIsStuck(s: State, d: Stamp)
    requires Inv(s) && OnlyDirLeft(s.srv, d) && s.cl.pc.Ended? && RemoveDir(d) !in s.orphans
    ensures Stuck(s, d)
  {
    hide Conserved, StoreOk, ThreadOk, TrOk;
    assert DirOk(s.srv, d) && LogOk(s.srv, d);
    var low := s.srv.logs[d].removed;
    assert low in s.srv.dirs[d].files.clouds <==> low < s.srv.logs[d].begun;
  }

  lemma PendingRemovesIt(s: State, d: Stamp)
    requires d in s.srv.dirs && RemoveDir(d) in s.orphans
    ensures Reach(s, Step(s, RunOrphan(RemoveDir(d)))) && d !in Step(s, RunOrphan(RemoveDir(d))).srv.dirs
  {
    hide Reach, LoggerStep;
    ReachSelf(s);
    ReachStep(s, s, RunOrphan(RemoveDir(d)));
  }

  /** Nothing that can be reached from s has sent more or holds fewer point clouds on the server. */
  ghost predicate StandsStill(s: State) {
    forall b | Reach(s, b) :: b.past.sends == s.past.sends && CloudsStay(s.srv, b.srv)
  }

  /** A thread has ended with only the directory of the oldest session left to be removed. Then that directory is
      removed at some time, or stays and with it everything else, according to whether its removal has been sent
      before. */
  lemma StandstillIff(run: seq<State>, events: seq<Event>, i: nat, d: Stamp)
    requires IsRun(run, events) && i < |run| && run[i].cl.pc.Ended? && OnlyDirLeft(run[i].srv, d)
    ensures RemoveDir(d) !in run[i].orphans <==> forall b | Reach(run[i], b) :: d in b.srv.dirs
    ensures RemoveDir(d) !in run[i].orphans ==> StandsStill(run[i])
  {
    hide Inv, Stuck, Reach, CloudsStay, Step, Enabled;
    var s := run[i];
    if RemoveDir(d) in s.orphans {
      PendingRemovesIt(s, d);
    } else {
      InvAlways(run, events, i);
      LeftIsStuck(s, d);
      forall b | Reach(s, b)
        ensures d in b.srv.dirs && b.past.sends == s.past.sends && CloudsStay(s.srv, b.srv)
      {
        var run', events' := RunTo(run, events, i, b);
        StuckForEver(run', events', i, |events'|, d);
        StuckStays(b, d);
      }
    }
  }

  // ---------- a run that comes to it ----------

  /** One point cloud and all metadata are recorded, and the logger has left. */
  const CLOSED: Server := After(12)

  /** The point cloud has been removed and the removal acknowledged, and the connection is lost. */
  function Removed(k: nat): State
    requires k <= 3
  {
    var s := Stored(5, CLOSED);
    var sv := Disk(map[], CLOUD, 4, 4, 1, Off);
    if k == 0 then s
    else if k == 1 then s.(srv := sv, link := Replied(FileRemoved))
    else if k == 2 then s.(srv := sv, link := Quiet, cl := s.cl.(pc := Top))
    else s.(srv := sv, link := Quiet, cl := s.cl.(pc := Ended, status := -2))
  }

  lemma RemovalServed()
    ensures Takes(Removed(0), ServeRemoveFile, Removed(1))
  {
    hide LoggerStep, ClientStep, Notes;
    OneCloud();
    assert CLOUD - {0} == map[];
  }

  lemma RemovedTakes(k: nat)
    requires 1 <= k < 3
    ensures Takes(Removed(k), if k == 1 then GetReply else Lose(-2), Removed(k + 1))
  {
    hide LoggerStep, ServerStep, Disk, Notes, After;
  }

  lemma RemovedReached()
    ensures Reach(Initial(), Removed(2))
  {
    hide Reach, Takes, Removed, After;
    RecordedReached(12);
    ClosedHasOne();
    StoredReached(5, CLOSED);
    RemovalServed();
    TakesReach(Initial(), Removed(0), ServeRemoveFile, Removed(1));
    RemovedTakes(1);
    TakesReach(Initial(), Removed(1), GetReply, Removed(2));
  }

  lemma ClosedHasOne()
    ensures HasOneCloud(CLOSED) && Removed(0) == Stored(5, CLOSED)
  {
    hide Notes;
  }

  lemma RemovedIsLeft()
    ensures Removed(3).cl.pc.Ended? && RemoveDir(1) !in Removed(3).orphans && Removed(3).srv == Removed(2).srv
    ensures OnlyDirLeft(Removed(2).srv, 1) && Complete(Removed(2).srv.dirs[1].files.metas)
    ensures Removed(2).cl.pc.Top? && Removed(2).cl.running
  {
    assert CLOUD - {0} == map[];
  }

  /** One connection is lost, in a run with everything recorded that a transfer needs, and nothing moves any more. */
  lemma ALossStopsTheDrain() returns (run: seq<State>, events: seq<Event>)
    ensures IsRun(run, events + [Lose(-2)]) && run[|events|].cl.pc.Top? && run[|events|].cl.running
    ensures OnlyDirLeft(run[|events|].srv, 1) && Complete(run[|events|].srv.dirs[1].files.metas)
    ensures StandsStill(run[|events| + 1])
    ensures forall b | Reach(run[|events| + 1], b) :: 1 in b.srv.dirs
  {
    hide Reach, Takes, Removed, OnlyDirLeft, StandsStill, Complete, Enabled, Step;
    RemovedReached();
    RemovedIsLeft();
    RemovedTakes(2);
    run, events := EndsWith(Removed(2), Lose(-2), Removed(3));
    StandstillIff(run, events + [Lose(-2)], |events| + 1, 1);
  }
}
