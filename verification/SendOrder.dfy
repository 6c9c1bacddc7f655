/**
 The order in which point clouds leave the server, over every run: sessions from the oldest on, and within a session
 0, 1, 2, ... without a gap; a number comes twice in a row only on a new connection.
 */
module SendOrder {
  import opened Archive
  import opened Protocol
  import opened Safety

  ghost predicate Follows(a: Send, b: Send) {
    || (b.d == a.d && b.n == a.n + 1)
    || (b.d == a.d && b.n == a.n && b.session > a.session)
    || (b.d > a.d && b.n == 0)
  }

  ghost predicate InOrder(sends: seq<Send>) {
    && (sends != [] ==> sends[0].n == 0)
    && (forall i | 0 <= i < |sends| - 1 :: Follows(sends[i], sends[i + 1]))
  }

  /** The point clouds removed so far are those sent, except possibly the last one sent. */
  ghost predicate RemovedOk(sv: Server, sends: seq<Send>) {
    if sends == [] then forall d | d in sv.logs :: sv.logs[d].removed == 0
    else
      var last := sends[|sends| - 1];
      && First(sv, last.d)
      && last.n < sv.logs[last.d].begun
      && (sv.logs[last.d].removed == last.n || sv.logs[last.d].removed == last.n + 1)
      && (forall d | d in sv.logs && d > last.d :: sv.logs[d].removed == 0)
  }

  ghost predicate RemovalOk(sends: seq<Send>, c: Command) {
    c.RemoveFile? ==>
      sends != [] && var last := sends[|sends| - 1]; c.d < last.d || (c.d == last.d && c.n <= last.n)
  }

  /** The thread is busy with the last point cloud sent. */
  ghost predicate IsLast(s: State, d: Stamp, n: nat) {
    s.past.sends != [] && s.past.sends[|s.past.sends| - 1] == Send(d, n, s.session)
  }

  /** What this connection sent last has been removed. */
  ghost predicate LastRemoved(s: State) {
    s.past.sends != [] ==>
      var last := s.past.sends[|s.past.sends| - 1];
      last.session == s.session && last.d in s.srv.dirs && last.d in s.srv.logs ==>
          s.srv.logs[last.d].removed == last.n + 1
  }

  ghost predicate ThreadSends(s: State) {
    match s.cl.pc
    case Ended => true
    case AwaitNext => if s.link.Replied? && s.link.r.Sending? then IsLast(s, s.link.r.d, s.link.r.n)
                      else s.link == Replied(Error) || LastRemoved(s)
    case AwaitBody(d, _, n) => IsLast(s, d, n)
    case Storing(d, _, n, _, _) => IsLast(s, d, n)
    case MustRemove(d, _, n) => IsLast(s, d, n)
    case AwaitRemoved => if s.link.Sent? then s.link.c.RemoveFile? && IsLast(s, s.link.c.d, s.link.c.n)
                         else s.link == Replied(Error) || LastRemoved(s)
    case _ => LastRemoved(s)
  }

  ghost predicate SendsOk(s: State) {
    && InOrder(s.past.sends)
    && RemovedOk(s.srv, s.past.sends)
    && (s.past.sends != [] ==> s.past.sends[|s.past.sends| - 1].session <= s.session)
    && ThreadSends(s)
    && (forall c | c in s.orphans :: RemovalOk(s.past.sends, c))
  }

  lemma LoggerKeepsRemoved(sv: Server, e: Event, d: Stamp)
    requires LoggerOk(sv) && LoggerEnabled(sv, e) && d in LoggerStep(sv, e).logs
    ensures LoggerStep(sv, e).logs[d].removed == if d in sv.logs then sv.logs[d].removed else 0
  {
  }

  lemma SendsAfterLogger(s: State, e: Event)
    requires Inv(s) && SendsOk(s) && LoggerEnabled(s.srv, e)
    ensures SendsOk(s.(srv := LoggerStep(s.srv, e)))
  {
    hide LoggerStep, LoggerEnabled, LogOk, DirOk, LoggerOk, FilesStay, ThreadOk, Conserved, StoreOk, InOrder,
        RemovalOk, First;
    var b := LoggerStep(s.srv, e);
    LoggerStepGood(s.srv, e);
    forall d | d in b.logs ensures b.logs[d].removed == if d in s.srv.logs then s.srv.logs[d].removed else 0 {
      LoggerKeepsRemoved(s.srv, e, d);
    }
    if s.past.sends != [] {
      var last := s.past.sends[|s.past.sends| - 1];
      FirstKept(s.srv, b, last.d);
      FirstIsLogged(s.srv, last.d);
      assert LogKept(s.srv, b, last.d);
    }
  }

  lemma FirstIsLogged(sv: Server, d: Stamp)
    requires First(sv, d)
    ensures d in sv.logs
  {
  }

  /** A removal that deletes something deletes the last point cloud sent. */
  lemma RemovalHitsLast(s: State, c: Command)
    requires Inv(s) && SendsOk(s) && c.RemoveFile? && CommandOk(s.srv, s.past.meant, c) && RemovalOk(s.past.sends, c)
    requires HasCloud(s.srv.dirs, c.d, c.lidar, c.n)
    ensures s.past.sends != [] && var last := s.past.sends[|s.past.sends| - 1];
            c.d == last.d && c.n == last.n && s.srv.logs[last.d].removed == last.n
  {
    assert DirOk(s.srv, c.d);
  }

  lemma SendsAfterServe(s: State, c: Command)
    requires Inv(s) && SendsOk(s) && !c.SendNext? && CommandOk(s.srv, s.past.meant, c) && RemovalOk(s.past.sends, c)
    ensures var sv := Serve(s.srv, c).0;
            RemovedOk(sv, s.past.sends) && (LastRemoved(s) ==> LastRemoved(s.(srv := sv)))
    ensures c.RemoveFile? && IsLast(s, c.d, c.n) && Serve(s.srv, c).1 != Error ==>
              LastRemoved(s.(srv := Serve(s.srv, c).0))
  {
    hide LogOk, DirOk, LoggerOk, Conserved, StoreOk, CommandOk, ThreadOk, InOrder, ThreadSends;
    if c.RemoveFile? && HasCloud(s.srv.dirs, c.d, c.lidar, c.n) {
      RemovalHitsLast(s, c);
    }
  }

  lemma SendsAfterRead(s: State)
    requires Inv(s) && SendsOk(s) && ServerEnabled(s, ReadCloud)
    ensures SendsOk(ServerStep(s, ReadCloud))
  {
    hide Conserved, StoreOk, LoggerOk, CommandOk;
    var t := s.link.t;
    if HasCloud(s.srv.dirs, t.d, t.lidar, t.first) {
      assert DirOk(s.srv, t.d);
      var next := Send(t.d, t.first, s.session);
      if s.past.sends != [] {
        assert Follows(s.past.sends[|s.past.sends| - 1], next);
      }
      var sends := s.past.sends + [next];
      assert InOrder(sends);
      forall c | c in s.orphans ensures RemovalOk(sends, c) {
        assert RemovalOk(s.past.sends, c);
      }
    }
  }

  lemma SendsAfterOrphan(s: State, e: Event)
    requires Inv(s) && SendsOk(s) && e.RunOrphan? && ServerEnabled(s, e)
    ensures SendsOk(ServerStep(s, e))
  {
    SendsAfterServe(s, e.c);
  }

  lemma SendsAfterCommand(s: State, e: Event)
    requires Inv(s) && SendsOk(s) && ServerEnabled(s, e)
             && (e.ServeRemoveFile? || e.ServeRemoveDir? || e.ServeSendFile?)
    ensures SendsOk(ServerStep(s, e))
  {
    SendsAfterServe(s, s.link.c);
  }

  lemma SendsAfterServer(s: State, e: Event)
    requires Inv(s) && SendsOk(s) && ServerEnabled(s, e)
    ensures SendsOk(ServerStep(s, e))
  {
    hide Inv, SendsOk, ServerStep;
    match e
    case ReadCloud => SendsAfterRead(s);
    case RunOrphan(c) => SendsAfterOrphan(s, e);
    case ServeRemoveFile => SendsAfterCommand(s, e);
    case ServeRemoveDir => SendsAfterCommand(s, e);
    case ServeSendFile => SendsAfterCommand(s, e);
    case _ => SendsAfterScan(s, e);
  }

  lemma SendsAfterScan(s: State, e: Event)
    requires Inv(s) && SendsOk(s) && ServerEnabled(s, e) && (e.ScanRoot? || e.ScanFiles? || e.Probe? || e.ServeError?)
    ensures SendsOk(ServerStep(s, e))
  {
    hide DataOk, TrOk, InOrder, RemovedOk, RemovalOk, IsScan, IsOldest;
  }

  lemma SendsAfterLoss(s: State, e: Event)
    requires ThreadOk(s) && SendsOk(s) && ClientEnabled(s, e) && (e.Lose? || e.Restart?)
    ensures SendsOk(ClientStep(s, e))
  {
  }

  lemma SendsAfterReply(s: State)
    requires SendsOk(s) && ClientEnabled(s, GetReply) && (s.cl.pc.AwaitDirRemoved? ==> s.link.Replied?)
    ensures SendsOk(ClientStep(s, GetReply))
  {
    hide InOrder, RemovedOk, RemovalOk, WithDir, Rename, WriteLocalMeta;
    var s' := ClientStep(s, GetReply);
    assert s'.srv == s.srv && s'.past.sends == s.past.sends && s'.orphans == s.orphans && s'.session == s.session;
  }

  lemma SendsAfterBody(s: State)
    requires SendsOk(s) && ClientEnabled(s, GetBody)
    ensures SendsOk(ClientStep(s, GetBody))
  {
    hide InOrder, RemovedOk, RemovalOk, WriteCloud;
  }

  lemma SendsAfterClient(s: State, e: Event)
    requires ThreadOk(s) && SendsOk(s) && ClientEnabled(s, e)
    ensures SendsOk(ClientStep(s, e))
  {
    hide SendsOk, ClientStep;
    match e
    case Lose(_) => SendsAfterLoss(s, e);
    case Restart => SendsAfterLoss(s, e);
    case GetReply => SendsAfterReply(s);
    case GetBody => SendsAfterBody(s);
    case _ => SendsAfterOther(s, e);
  }

  lemma SendsAfterOther(s: State, e: Event)
    requires ThreadOk(s) && SendsOk(s) && ClientEnabled(s, e)
    requires !(e.Lose? || e.Restart? || e.GetReply? || e.GetBody?)
    ensures SendsOk(ClientStep(s, e))
  {
    hide WriteCloud, WriteLocalMeta;
  }

  lemma {:induction false} SendsAlways(run: seq<State>, events: seq<Event>, i: nat)
    requires IsRun(run, events) && i < |run|
    ensures SendsOk(run[i])
  {
    if i > 0 {
      var s, e := run[i - 1], events[i - 1];
      SendsAlways(run, events, i - 1);
      InvAlways(run, events, i - 1);
      if LoggerEnabled(s.srv, e) {
        SendsAfterLogger(s, e);
      } else if ServerEnabled(s, e) {
        SendsAfterServer(s, e);
      } else {
        SendsAfterClient(s, e);
      }
    }
  }

  /** Over every run, each point cloud sent is the next of its session, or the first of a younger one, or, on a new
      connection only, the same as before. */
  lemma SentInOrder(run: seq<State>, events: seq<Event>, i: nat)
    requires IsRun(run, events) && i < |run|
    ensures run[i].past.sends != [] ==> run[i].past.sends[0].n == 0
    ensures forall k | 0 <= k < |run[i].past.sends| - 1 ::
              var a, b := run[i].past.sends[k], run[i].past.sends[k + 1];
              || (b.d == a.d && b.n == a.n + 1)
              || (b.d == a.d && b.n == a.n && b.session > a.session)
              || (b.d > a.d && b.n == 0)
  {
    SendsAlways(run, events, i);
    forall k | 0 <= k < |run[i].past.sends| - 1 ensures Follows(run[i].past.sends[k], run[i].past.sends[k + 1]) {
    }
  }
}
