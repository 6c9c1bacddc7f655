/**
 A drain after anything that may have happened before: the loop of the transmission thread, started in a state that a
 run of the protocol has reached, continues that run, and so keeps every guarantee of it.
 */
module EndToEnd {
  import opened Basics
  import opened Archive
  import opened Drain
  import opened Exchanges
  import opened Guarantees
  import opened Safety
  import opened Timestamps
  import opened Writes
  import P = Protocol

  /** The client has every file that was ever finished, unchanged, but for the point clouds that it was writing when
      it was killed and has not received again. */
  ghost predicate HasEverything(s: P.State) {
    forall d | d in s.srv.logs ::
      var done := s.srv.logs[d].done;
      && (forall n: nat | n in done.clouds ::
            HeldCloud(s.cl.store, d, n, done.clouds[n]) <==> (d, n) !in s.past.wrecked)
      && (forall m: Meta | m in done.metas :: HeldMeta(s.cl.store, d, m, done.metas[m]))
  }

  lemma NotYetFinal(run: seq<P.State>, events: seq<P.Event>)
    requires P.IsRun(run, events)
    ensures var s := run[|events|]; forall d | d in s.srv.dirs :: P.Final(d) !in s.cl.store
  {
    var s := run[|events|];
    forall d | d in s.srv.dirs ensures P.Final(d) !in s.cl.store {
      if P.Final(d) in s.cl.store {
        FinalCopyIsComplete(run, events, |events|, d);
      }
    }
  }

  /** The state that the drain ends in belongs to the run, and is later. */
  lemma Continued(run: seq<P.State>, events: seq<P.Event>, b: P.State)
    returns (run': seq<P.State>, events': seq<P.Event>)
    requires P.IsRun(run, events) && P.Reach(run[|events|], b)
    ensures P.IsRun(run', events') && run <= run' && events <= events' && run'[|events'|] == b
    ensures LogsKept(run[|events|].srv, b.srv)
  {
    hide P.Reach, P.Enabled, P.Step, LogsKept;
    run', events' := P.RunTo(run, events, |events|, b);
    RecordIsKept(run', events', |events|, |events'|);
  }

  lemma EmptyServerMeansHeld(run: seq<P.State>, events: seq<P.Event>)
    requires P.IsRun(run, events) && run[|events|].srv.dirs == map[] && run[|events|].cl.pc.Ended?
    ensures HasEverything(run[|events|])
  {
    hide HeldCloud, HeldMeta;
    var s := run[|events|];
    forall d | d in s.srv.logs
      ensures var done := s.srv.logs[d].done;
              && (forall n: nat | n in done.clouds ::
                    HeldCloud(s.cl.store, d, n, done.clouds[n]) <==> (d, n) !in s.past.wrecked)
              && (forall m: Meta | m in done.metas :: HeldMeta(s.cl.store, d, m, done.metas[m]))
    {
      NothingIsLostIff(run, events, |events|, d);
      assert Torn(s) == s.past.wrecked;
    }
  }

  /** What a thread's constructor asks for holds in every reachable state. */
  lemma StoresAgree(run: seq<P.State>, events: seq<P.Event>)
    requires P.IsRun(run, events)
    ensures run[|events|].past.meant.Keys == run[|events|].cl.store.Keys
  {
    var s := run[|events|];
    WritesAlways(run, events, |events|);
    SameKeys(s.cl.store, s.past.meant, Torn(s), TornMetas(s));
  }

  /** A thread started with no logger alive, after any run with any connection losses, restarts and late commands,
      brings everything that was ever recorded to the client, or stops at a directory that lacks a point cloud or a
      metadata file, or where the user stops it; in each case what it did is a continuation of the run. */
  method DrainAfterRun(ghost run: seq<P.State>, ghost events: seq<P.Event>, thread: TransmissionThread, ch: Channel,
                       stops: nat -> bool)
    returns (ghost run': seq<P.State>, ghost events': seq<P.Event>)
    requires P.IsRun(run, events) && run[|events|] == thread.proto && thread.At(ch.server, P.Top, 1)
    requires ch.Valid() && !ch.server.alive && thread.Named() && thread.running && thread.dir.None? && thread.asked == 0
    modifies thread, ch`sent, ch.server, ch.up, ch.up.buffer, ch.down, ch.down.buffer
    ensures P.IsRun(run', events') && run <= run' && events <= events' && run'[|events'|] == thread.proto
    ensures LogsKept(run[|events|].srv, thread.proto.srv)
    ensures thread.running ==>
              (thread.status == 0 <==> forall d | d in old(ch.server.dirs) :: Transferable(old(ch.server.dirs)[d]))
    ensures thread.running && thread.status == 0 ==> thread.proto.srv.dirs == map[]
    ensures thread.proto.srv.dirs == map[] ==> HasEverything(thread.proto)
    ensures thread.proto.cl.store == thread.store
  {
    hide Transferable, P.IsRun, LogsKept, HasEverything, P.Reach;
    NotYetFinal(run, events);
    thread.Run(ch, stops);
    run', events' := Continued(run, events, thread.proto);
    if thread.proto.srv.dirs == map[] {
      EmptyServerMeansHeld(run', events');
    }
  }

  /** There are two log directories. */
  predicate TwoLogs(sv: P.Server) {
    (sv.logger.Launching? ==> sv.logger.lidar < 2) && forall d | d in sv.logs :: sv.logs[d].lidar < 2
  }

  lemma TwoLogsAfterStep(s: P.State, e: P.Event)
    requires TwoLogs(s.srv) && P.Enabled(s, e)
    ensures TwoLogs(P.Step(s, e).srv)
  {
    hide P.ClientStep, P.ServerEnabled, P.ClientEnabled;
    if !P.LoggerEnabled(s.srv, e) && !P.ServerEnabled(s, e) {
      ClientKeepsServer(s, e);
    }
  }

  lemma {:induction false} TwoLogsAlways(run: seq<P.State>, events: seq<P.Event>, i: nat)
    requires P.IsRun(run, events) && i < |run|
    ensures TwoLogs(run[i].srv)
  {
    hide P.Enabled, P.Step;
    if i > 0 {
      TwoLogsAlways(run, events, i - 1);
      TwoLogsAfterStep(run[i - 1], events[i - 1]);
    }
  }

  lemma LastLogIsOne(run: seq<P.State>, events: seq<P.Event>)
    requires P.IsRun(run, events) && run[|events|].cl.tr.Some?
    ensures run[|events|].cl.tr.value.1 < 2
  {
    TwoLogsAlways(run, events, |events|);
    InvAlways(run, events, |events|);
  }

  /** Starting a thread is a step of the run, and leads to where its loop begins. */
  lemma ThreadStarts(run: seq<P.State>, events: seq<P.Event>) returns (begun: seq<P.State>)
    requires P.IsRun(run, events) && P.ClientEnabled(run[|events|], P.StartThread)
    ensures P.IsRun(begun, events + [P.StartThread]) && run <= begun
    ensures begun[|events| + 1] == P.Step(run[|events|], P.StartThread)
  {
    hide P.Step, P.ClientEnabled;
    P.OneMore(run, events, P.StartThread, P.Step(run[|events|], P.StartThread));
    begun := run + [P.Step(run[|events|], P.StartThread)];
  }

  lemma LengthOfRun(run: seq<P.State>, events: seq<P.Event>)
    requires P.IsRun(run, events)
    ensures |run| == |events| + 1
  {
  }

  lemma BeginsThere(s: P.State, dirs: Tree, store: P.Store)
    requires P.ClientEnabled(s, P.StartThread) && s.srv.dirs == dirs && s.srv.logger.Off? && s.cl.store == store
    requires s.past.meant.Keys == store.Keys
    ensures Like(P.Step(s, P.StartThread), dirs, false, P.Client(P.Top, 1, true, s.cl.tr, None, store))
  {
  }

  /** A new thread, resumed by the main loop after any run, over a new connection: all that its drain asks for holds. */
  method ResumeAfterRun(ghost run: seq<P.State>, ghost events: seq<P.Event>, ch: Channel,
                        tr: Option<(Stamp, nat)>, trName: string, store: P.Store, stops: nat -> bool)
    returns (thread: TransmissionThread, ghost run': seq<P.State>, ghost events': seq<P.Event>)
    requires P.IsRun(run, events) && P.ClientEnabled(run[|events|], P.StartThread)
    requires run[|events|].srv.dirs == ch.server.dirs && run[|events|].srv.logger.Off?
    requires run[|events|].cl.tr == tr && run[|events|].cl.store == store
    requires tr.Some? ==> IsStamp(trName) && StringToTime(trName) == tr.value.0
    requires ch.Valid() && !ch.server.alive
    modifies ch`sent, ch.server, ch.up, ch.up.buffer, ch.down, ch.down.buffer
    ensures P.IsRun(run', events') && run <= run' && events + [P.StartThread] <= events'
    ensures run'[|events'|] == thread.proto
    ensures thread.running ==>
              (thread.status == 0 <==> forall d | d in old(ch.server.dirs) :: Transferable(old(ch.server.dirs)[d]))
    ensures thread.running && thread.status == 0 ==> thread.proto.srv.dirs == map[]
    ensures thread.proto.srv.dirs == map[] ==> HasEverything(thread.proto)
    ensures thread.proto.cl.store == thread.store
  {
    hide *;
    LengthOfRun(run, events);
    StoresAgree(run, events);
    if tr.Some? {
      LastLogIsOne(run, events);
    }
    ghost var begun := ThreadStarts(run, events);
    LengthOfRun(begun, events + [P.StartThread]);
    BeginsThere(run[|events|], ch.server.dirs, store);
    thread := new TransmissionThread(run[|events|], tr, trName, store);
    run', events' := DrainAfterRun(begun, events + [P.StartThread], thread, ch, stops);
  }
}
