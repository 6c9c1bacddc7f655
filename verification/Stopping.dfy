/**
 Stopping the transmission: once `running` is cleared, a thread that keeps its connection ends after a bounded number
 of further replies and steps, whatever the logger, late commands and the server's answers do in between.
 */
module Stopping {
  import opened Archive
  import opened Protocol
  import opened Safety
  import opened Writes

  /** How often a stopped thread can still read from its connection: at most an EMPTY, four metadata files and the
      removal of a directory, or a point cloud's header, its body and its removal. */
  function ReadsLeft(pc: Pc): (n: nat)
    ensures n <= 6
  {
    match pc
    case Ended => 0
    case Top => 6
    case AwaitNext => 6
    case AwaitBody(_, _, _) => 2
    case Storing(_, _, _, _, _) => 1
    case MustRemove(_, _, _) => 1
    case AwaitRemoved => 1
    case AskMeta(_, _, _, k) => if k < 4 then 5 - k else 1
    case AwaitMeta(_, _, _, k) => if k < 4 then 5 - k else 1
    case StoringMeta(_, _, _, k, _, _) => if k < 3 then 4 - k else 1
    case MustRemoveDir(_) => 1
    case AwaitDirRemoved(_) => 1
  }

  /** How many steps its current exchange can still take. */
  function ExchangeLeft(s: State): (n: nat)
    ensures n <= 7 && (n == 7 ==> IsStoring(s.cl.pc))
  {
    match s.link
    case Quiet => if IsStoring(s.cl.pc) then 7 else if CanAsk(s.cl.pc) then 6 else 0
    case Sent(_) => 5
    case Working(Rooted(_, _)) => 4
    case Working(Counted(_, _, _, _, _, _)) => 3
    case Working(Chosen(_, _, _, _, _)) => 2
    case Replied(_) => 1
  }

  function Work(s: State): (n: nat)
    ensures n <= 54
  {
    8 * ReadsLeft(s.cl.pc) + ExchangeLeft(s)
  }

  predicate Reads(e: Event) {
    e.GetReply? || e.GetBody?
  }

  /** A step of the thread or of the server child that serves it; the writing of a file counts as one step. */
  predicate OfThread(e: Event) {
    || Reads(e) || e.Ask? || e.StoreDone? || e.ScanRoot? || e.ScanFiles? || e.Probe? || e.ReadCloud?
    || e.ServeRemoveFile? || e.ServeSendFile? || e.ServeRemoveDir? || e.ServeError?
  }

  /** The connection is kept, and no other thread is started. */
  predicate Undisturbed(e: Event) {
    !e.Lose? && !e.Restart? && !e.StartThread?
  }

  function CountReads(events: seq<Event>): nat {
    if events == [] then 0 else CountReads(events[..|events| - 1]) + if Reads(events[|events| - 1]) then 1 else 0
  }

  function CountSteps(events: seq<Event>): nat {
    if events == [] then 0 else CountSteps(events[..|events| - 1]) + if OfThread(events[|events| - 1]) then 1 else 0
  }

  lemma StoppedServerStep(s: State, e: Event)
    requires ServerEnabled(s, e)
    ensures ServerStep(s, e).cl == s.cl
    ensures Work(ServerStep(s, e)) <= Work(s) - if OfThread(e) then 1 else 0
  {
  }

  lemma StoppedClientStep(s: State, e: Event)
    requires ClientEnabled(s, e) && !s.cl.running && Undisturbed(e) && ThreadOk(s)
    ensures !ClientStep(s, e).cl.running
    ensures ReadsLeft(ClientStep(s, e).cl.pc) <= ReadsLeft(s.cl.pc) - if Reads(e) then 1 else 0
    ensures Work(ClientStep(s, e)) <= Work(s) - if OfThread(e) then 1 else 0
  {
  }

  lemma StoppedStep(s: State, e: Event)
    requires Inv(s) && Enabled(s, e) && !s.cl.running && Undisturbed(e)
    ensures var s' := Step(s, e);
            && !s'.cl.running
            && ReadsLeft(s'.cl.pc) <= ReadsLeft(s.cl.pc) - (if Reads(e) then 1 else 0)
            && Work(s') <= Work(s) - if OfThread(e) then 1 else 0
  {
    hide Inv, ThreadOk, Work, ReadsLeft, ServerStep, ClientStep, LoggerStep;
    if LoggerEnabled(s.srv, e) {
      LoggerLeavesThread(s, e);
    } else if ServerEnabled(s, e) {
      StoppedServerStep(s, e);
    } else {
      InvMeansThreadOk(s);
      StoppedClientStep(s, e);
    }
  }

  lemma LoggerLeavesThread(s: State, e: Event)
    requires LoggerEnabled(s.srv, e)
    ensures Work(s.(srv := LoggerStep(s.srv, e))) == Work(s) && !OfThread(e) && !Reads(e)
  {
    hide LoggerStep;
    NotOfThread(s.srv, e);
  }

  lemma NotOfThread(sv: Server, e: Event)
    requires LoggerEnabled(sv, e)
    ensures !OfThread(e) && !Reads(e)
  {
  }

  lemma InvMeansThreadOk(s: State)
    requires Inv(s)
    ensures ThreadOk(s)
  {
  }

  /** From any moment at which the user has stopped the transmission: at most 6 more reads, and at most 54 more steps
      of the thread and its server child. */
  lemma {:induction false} StoppedThreadEnds(run: seq<State>, events: seq<Event>, i: nat, j: nat)
    requires IsRun(run, events) && i <= j < |run| && !run[i].cl.running
    requires forall k | i <= k < j :: Undisturbed(events[k])
    ensures !run[j].cl.running
    ensures CountReads(events[i..j]) + ReadsLeft(run[j].cl.pc) <= ReadsLeft(run[i].cl.pc) <= 6
    ensures CountSteps(events[i..j]) + Work(run[j]) <= Work(run[i]) <= 54
    decreases j - i
  {
    hide Inv, Enabled, Step, Work, ReadsLeft, Reads, OfThread, Undisturbed;
    if i < j {
      StoppedThreadEnds(run, events, i, j - 1);
      assert events[i..j][..j - 1 - i] == events[i..j - 1] && events[i..j][j - 1 - i] == events[j - 1];
      InvAlways(run, events, j - 1);
      StoppedStep(run[j - 1], events[j - 1]);
    }
  }

  // ---------- progress ----------

  lemma {:induction false} OldestExists(t: Tree) returns (d: Stamp)
    requires t != map[]
    ensures IsOldest(t, d)
    decreases |t|
  {
    assert (forall k :: k !in t) ==> t == map[];
    d :| d in t;
    var rest := t - {d};
    if rest == map[] {
      forall k | k in t ensures k == d {
        assert k != d ==> k in rest;
      }
    } else {
      assert |rest| < |t| by { assert rest.Keys == t.Keys - {d}; }
      var e := OldestExists(rest);
      forall k | k in t ensures k == d || k in rest {
      }
      if e < d {
        d := e;
      }
    }
  }

  /** A step forward: of the thread or its server child, and not the server's giving up with an error. */
  predicate Forward(e: Event) {
    (OfThread(e) || e.StoreMore?) && !e.ServeError?
  }

  /** The directory that SendNext has found is gone before it could be scanned. */
  predicate LostItsDir(s: State) {
    s.link.Working? && s.link.t.Rooted? && s.link.t.d !in s.srv.dirs
  }

  lemma ServesCommand(s: State) returns (e: Event)
    requires s.link.Sent?
    ensures Forward(e) && ServerEnabled(s, e)
  {
    match s.link.c
    case SendNext =>
      e := ScanRoot(0);
      if s.srv.dirs != map[] {
        var d := OldestExists(s.srv.dirs);
        e := ScanRoot(d);
      }
    case RemoveFile(_, _, _) => e := ServeRemoveFile;
    case SendFile(_, _, _) => e := ServeSendFile;
    case RemoveDir(_) => e := ServeRemoveDir;
  }

  lemma GoesOnScanning(s: State) returns (e: Event)
    requires Inv(s) && s.link.Working? && !LostItsDir(s)
    ensures Forward(e) && ServerEnabled(s, e)
  {
    hide Conserved, StoreOk, ThreadOk, TrOk;
    match s.link.t
    case Rooted(d, _) =>
      assert DirOk(s.srv, d) && LogOk(s.srv, d);
      var log := s.srv.logs[d];
      e := ScanFiles(log.removed, if log.begun > 0 then log.begun - 1 else 0);
    case Counted(_, _, _, _, _, _) => e := Probe;
    case Chosen(_, _, _, _, _) => e := ReadCloud;
  }

  lemma NextServerStep(s: State) returns (e: Event)
    requires Inv(s) && (s.link.Sent? || s.link.Working?) && !LostItsDir(s)
    ensures Forward(e) && ServerEnabled(s, e)
  {
    hide *;
    if s.link.Sent? {
      e := ServesCommand(s);
    } else {
      e := GoesOnScanning(s);
    }
  }

  lemma NextRead(s: State) returns (e: Event)
    requires Inv(s) && WriteOk(s) && !s.cl.pc.Ended? && s.link.Replied?
    ensures Forward(e) && ClientEnabled(s, e)
  {
    hide DataOk, TrOk, First, Drained, SameClouds, SameMetas, HeldMeta, HeldCloud, StuckOk, FreshOk;
    SameKeys(s.cl.store, s.past.meant, Torn(s), TornMetas(s));
    assert forall l :: l in s.past.meant.Keys ==> l in s.cl.store.Keys;
    e := if s.cl.pc.AwaitBody? then GetBody else GetReply;
  }

  lemma NextWrite(s: State) returns (e: Event)
    requires Inv(s) && WriteOk(s) && IsStoring(s.cl.pc)
    ensures Forward(e) && ClientEnabled(s, e)
  {
    hide Inv, SameClouds, SameMetas, StuckOk, FreshOk;
    SameKeys(s.cl.store, s.past.meant, Torn(s), TornMetas(s));
    MeantCopy(s);
    assert forall l :: l in s.past.meant.Keys ==> l in s.cl.store.Keys;
    e := if s.cl.pc.written == |s.cl.pc.body| then StoreDone else StoreMore(|s.cl.pc.body|);
  }

  lemma NextAsk(s: State)
    requires ThreadOk(s) && !s.cl.pc.Ended? && s.link.Quiet? && !IsStoring(s.cl.pc)
    ensures Forward(Ask) && ClientEnabled(s, Ask)
  {
  }

  lemma NextThreadStep(s: State) returns (e: Event)
    requires Inv(s) && WriteOk(s) && !s.cl.pc.Ended? && (s.link.Quiet? || s.link.Replied?)
    ensures Forward(e) && ClientEnabled(s, e)
  {
    hide Inv, WriteOk, Forward, ClientEnabled, IsStoring;
    if s.link.Replied? {
      e := NextRead(s);
    } else if IsStoring(s.cl.pc) {
      e := NextWrite(s);
    } else {
      InvMeansThreadOk(s);
      NextAsk(s);
      e := Ask;
    }
  }

  lemma NoStepWithoutDir(s: State, e: Event)
    requires Inv(s) && LostItsDir(s) && Forward(e)
    ensures !Enabled(s, e)
  {
    hide DataOk, TrOk, First, Drained;
  }

  /** Until a thread has ended, it or its server child can take a step forward, unless the directory that SendNext has
      found is gone before it was scanned; and then none can, but for the error that SendNext answers. */
  lemma ThreadIsNeverStuck(run: seq<State>, events: seq<Event>, i: nat)
    requires IsRun(run, events) && i < |run| && !run[i].cl.pc.Ended?
    ensures (exists e :: Forward(e) && Enabled(run[i], e)) <==> !LostItsDir(run[i])
    ensures LostItsDir(run[i]) ==> ServerEnabled(run[i], ServeError)
  {
    hide Inv, WriteOk, Forward, Enabled, ServerEnabled, ClientEnabled, LoggerEnabled, LostItsDir;
    var s := run[i];
    WritesAlways(run, events, i);
    if LostItsDir(s) {
      forall e | Forward(e) ensures !Enabled(s, e) {
        NoStepWithoutDir(s, e);
      }
      ErrorIsLeft(s);
    } else if s.link.Sent? || s.link.Working? {
      var e := NextServerStep(s);
      StepIsEnabled(s, e);
    } else {
      var e := NextThreadStep(s);
      StepIsEnabled(s, e);
    }
  }

  lemma StepIsEnabled(s: State, e: Event)
    ensures ServerEnabled(s, e) || ClientEnabled(s, e) ==> Enabled(s, e)
  {
  }

  lemma ErrorIsLeft(s: State)
    ensures LostItsDir(s) ==> ServerEnabled(s, ServeError)
  {
  }

  // ---------- why threads end ----------

  /** The replies that the thread's command can have. */
  ghost predicate ReplyFits(s: State) {
    match s.link
    case Sent(c) => AwaitsReplyTo(s.cl.pc, c)
    case Working(_) => s.cl.pc.AwaitNext?
    case Replied(r) =>
      (match s.cl.pc
       case AwaitNext => r.NoTr? || r.Wait? || r.Sending? || r.Empty? || r.Error?
       case AwaitBody(_, _, _) => r.Sending?
       case AwaitRemoved => r.FileRemoved? || r.Error?
       case AwaitMeta(_, _, _, _) => r.Requested? || r.Error?
       case AwaitDirRemoved(_) => r.DirRemoved? || r.Error?
       case _ => false)
    case Quiet => true
  }

  predicate AwaitsReplyTo(pc: Pc, c: Command) {
    match c
    case SendNext => pc.AwaitNext?
    case RemoveFile(_, _, _) => pc.AwaitRemoved?
    case SendFile(_, _, _) => pc.AwaitMeta?
    case RemoveDir(_) => pc.AwaitDirRemoved?
  }

  lemma ReplyFitsAfterServer(s: State, e: Event)
    requires ReplyFits(s) && ServerEnabled(s, e)
    ensures ReplyFits(ServerStep(s, e))
  {
  }

  lemma ReplyFitsAfterClient(s: State, e: Event)
    requires ThreadOk(s) && ReplyFits(s) && ClientEnabled(s, e)
    ensures ReplyFits(ClientStep(s, e))
  {
    hide WithDir, WriteCloud, WriteLocalMeta, Rename;
  }

  lemma {:induction false} ReplyFitsAlways(run: seq<State>, events: seq<Event>, i: nat)
    requires IsRun(run, events) && i < |run|
    ensures ReplyFits(run[i])
  {
    hide Inv, ReplyFits, LoggerEnabled, ServerEnabled, ClientEnabled, LoggerStep, ServerStep, ClientStep;
    if i == 0 {
      NoReplyYet();
    } else {
      var s, e := run[i - 1], events[i - 1];
      ReplyFitsAlways(run, events, i - 1);
      if LoggerEnabled(s.srv, e) {
        ReplyStaysFit(s, LoggerStep(s.srv, e));
      } else if ServerEnabled(s, e) {
        ReplyFitsAfterServer(s, e);
      } else {
        InvAlways(run, events, i - 1);
        InvMeansThreadOk(s);
        ReplyFitsAfterClient(s, e);
      }
    }
  }

  lemma NoReplyYet()
    ensures ReplyFits(Initial())
  {
  }

  lemma ReplyStaysFit(s: State, sv: Server)
    requires ReplyFits(s)
    ensures ReplyFits(s.(srv := sv))
  {
  }

  /** The reply ends the thread well: there is nothing left, or the round is over and the user has stopped it. */
  predicate EndsWell(s: State, r: Reply) {
    r.NoTr? || (!s.cl.running && (r.Wait? || r.FileRemoved? || r.DirRemoved?))
  }

  /** The reply ends the thread with an error: it is one, or there is no local directory for what it brings. */
  predicate EndsBadly(s: State, r: Reply) {
    || r.Error?
    || (r.Empty? && s.cl.tr.None?)
    || (r.Requested? && !(s.cl.dir.Some? && Active(s.cl.dir.value) in s.cl.store))
  }

  predicate EndsNow(s: State, e: Event, status: int) {
    match e
    case Restart => status == 0
    case Lose(code) => status == code
    case GetReply =>
      s.link.Replied? && ((status == 0 && EndsWell(s, s.link.r)) || (status == -1 && EndsBadly(s, s.link.r)))
    case _ => false
  }

  lemma OthersEndNone(s: State, e: Event)
    requires LoggerEnabled(s.srv, e) || ServerEnabled(s, e)
    ensures Step(s, e).cl == s.cl && !(e.Restart? || e.Lose? || e.GetReply? || e.StartThread? || e.UserStop?)
  {
    hide LoggerStep;
  }

  lemma ClientEndsIff(s: State, e: Event, status: int)
    requires ThreadOk(s) && ReplyFits(s) && ClientEnabled(s, e) && !s.cl.pc.Ended?
    requires s.cl.store.Keys == s.past.meant.Keys
    ensures ClientStep(s, e).cl.pc.Ended? && ClientStep(s, e).cl.status == status <==> EndsNow(s, e, status)
  {
    hide WithDir, WriteCloud, WriteLocalMeta, Rename;
    assert forall l :: l in s.cl.store.Keys <==> l in s.past.meant.Keys;
  }

  /** A thread ends by the loss of its connection, by a kill, and by the replies listed, and in no other way; WAIT does
      not end it unless the user has stopped it. */
  lemma ThreadEndsIff(run: seq<State>, events: seq<Event>, i: nat, status: int)
    requires IsRun(run, events) && i < |events| && !run[i].cl.pc.Ended?
    ensures run[i + 1].cl.pc.Ended? && run[i + 1].cl.status == status <==> EndsNow(run[i], events[i], status)
  {
    hide Inv, WriteOk, LoggerEnabled, ServerEnabled, ClientEnabled, LoggerStep, ServerStep, ClientStep, ReplyFits;
    hide EndsWell, EndsBadly, ThreadOk;
    var s, e := run[i], events[i];
    WritesAlways(run, events, i);
    if LoggerEnabled(s.srv, e) || ServerEnabled(s, e) {
      OthersEndNone(s, e);
    } else {
      ReplyFitsAlways(run, events, i);
      InvMeansThreadOk(s);
      SameDirs(s);
      ClientEndsIff(s, e, status);
    }
  }

  lemma SameDirs(s: State)
    requires WriteOk(s)
    ensures s.cl.store.Keys == s.past.meant.Keys
  {
    hide FreshOk, StuckOk, NoTwin;
    SameKeys(s.cl.store, s.past.meant, Torn(s), TornMetas(s));
  }

  /** WAIT is followed by the next request, and changes nothing. */
  lemma WaitGoesOn(run: seq<State>, events: seq<Event>, i: nat)
    requires IsRun(run, events) && i < |events| && events[i] == GetReply
    requires run[i].cl.pc.AwaitNext? && run[i].link == Replied(Wait) && run[i].cl.running
    ensures run[i + 1] == run[i].(cl := run[i].cl.(pc := Top), link := Quiet)
    ensures ClientEnabled(run[i + 1], Ask) && NextCommand(run[i + 1].cl.pc) == SendNext
  {
    hide LoggerStep, ServerStep;
  }

  /** A thread is told to stop by the user and by nobody else. */
  lemma {:induction false} StoppedByUser(run: seq<State>, events: seq<Event>, i: nat) returns (k: nat)
    requires IsRun(run, events) && i < |run| && !run[i].cl.pc.Ended? && !run[i].cl.running
    ensures k < i && events[k] == UserStop
    ensures forall j | k <= j < i :: !events[j].StartThread? && !events[j].Restart?
  {
    hide LoggerEnabled, ServerEnabled, ClientEnabled, LoggerStep, ServerStep, ClientStep;
    if i == 0 {
      NoThreadYet();
      return;
    }
    var s, e := run[i - 1], events[i - 1];
    if LoggerEnabled(s.srv, e) || ServerEnabled(s, e) {
      OthersEndNone(s, e);
    } else {
      ClientStops(s, e);
    }
    if e == UserStop {
      k := i - 1;
    } else {
      k := StoppedByUser(run, events, i - 1);
    }
  }

  lemma NoThreadYet()
    ensures Initial().cl.pc.Ended?
  {
  }

  lemma ClientStops(s: State, e: Event)
    requires ClientEnabled(s, e)
    ensures var cl := ClientStep(s, e).cl;
            !cl.pc.Ended? && !cl.running ==>
              e == UserStop || (!s.cl.pc.Ended? && !s.cl.running && !e.StartThread? && !e.Restart?)
    ensures e == UserStop ==> !ClientStep(s, e).cl.running
  {
    hide WithDir, WriteCloud, WriteLocalMeta, Rename;
  }
}
