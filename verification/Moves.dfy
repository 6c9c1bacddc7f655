/**
 Which moves the actors have in a reachable state. Nobody can take a file or a directory away from the logger while it
 works; a connection may be lost, and a command fail, whenever there is one; the client may be stopped or killed at
 any time.
 */
module Moves {
  import opened Basics
  import opened Archive
  import opened Protocol
  import opened Safety
  import opened Stopping
  import opened Writes

  lemma LoggersDir(s: State)
    requires Inv(s) && (s.srv.logger.Recording? || s.srv.logger.Closing?)
    ensures var lg := s.srv.logger;
            && lg.d in s.srv.dirs && lg.d in s.srv.logs
            && (lg.Recording? && lg.open ==> lg.next in s.srv.dirs[lg.d].files.clouds)
            && (lg.Closing? ==> lg.k <= 4)
            && (lg.Closing? && lg.open ==> lg.k < 4 && MetaAt(lg.k) in s.srv.dirs[lg.d].files.metas)
  {
    hide Conserved, StoreOk, ThreadOk, TrOk;
    assert DirOk(s.srv, s.srv.logger.d) && LogOk(s.srv, s.srv.logger.d);
  }

  lemma OnlyLogger(s: State, e: Event)
    requires e.Launch? || e.MakeDir? || e.BeginFile? || e.Write? || e.FinishFile? || e.LeaveLoop? || e.BeginMeta?
             || e.FinishMeta? || e.LoggerExit? || e.LoggerAbort?
    ensures Enabled(s, e) <==> LoggerEnabled(s.srv, e)
  {
    hide LoggerEnabled;
  }

  /** While it records, the logger can begin a file, write it and finish it, whatever is removed meanwhile; and it can
      leave, or be killed, between two files. */
  lemma RecordingMoves(run: seq<State>, events: seq<Event>, i: nat, bytes: Bytes)
    requires IsRun(run, events) && i < |run| && run[i].srv.logger.Recording?
    ensures var (s, open) := (run[i], run[i].srv.logger.open);
            && (Enabled(s, BeginFile(bytes)) <==> !open)
            && (Enabled(s, Write(bytes)) <==> open)
            && (Enabled(s, FinishFile) <==> open)
            && (Enabled(s, LeaveLoop) <==> !open)
            && (Enabled(s, LoggerAbort) <==> !open)
  {
    hide Enabled, Inv;
    InvAlways(run, events, i);
    LoggersDir(run[i]);
    OnlyLogger(run[i], BeginFile(bytes));
    OnlyLogger(run[i], Write(bytes));
    OnlyLogger(run[i], FinishFile);
    OnlyLogger(run[i], LeaveLoop);
    OnlyLogger(run[i], LoggerAbort);
  }

  /** While it writes the metadata likewise, file by file, until all four are written. */
  lemma ClosingMoves(run: seq<State>, events: seq<Event>, i: nat, bytes: Bytes)
    requires IsRun(run, events) && i < |run| && run[i].srv.logger.Closing?
    ensures var (s, k, open) := (run[i], run[i].srv.logger.k, run[i].srv.logger.open);
            && k <= 4 && (open ==> k < 4)
            && (Enabled(s, BeginMeta(bytes)) <==> !open && k < 4)
            && (Enabled(s, Write(bytes)) <==> open)
            && (Enabled(s, FinishMeta) <==> open)
            && (Enabled(s, LoggerExit) <==> k == 4)
            && (Enabled(s, LoggerAbort) <==> !open)
  {
    hide Enabled, Inv;
    InvAlways(run, events, i);
    LoggersDir(run[i]);
    OnlyLogger(run[i], BeginMeta(bytes));
    OnlyLogger(run[i], Write(bytes));
    OnlyLogger(run[i], FinishMeta);
    OnlyLogger(run[i], LoggerExit);
    OnlyLogger(run[i], LoggerAbort);
  }

  /** A logger starts when there is none, with a time later than all before, and makes its directory once. */
  lemma StartingMoves(run: seq<State>, events: seq<Event>, i: nat, ts: Stamp, lidar: nat)
    requires IsRun(run, events) && i < |run|
    ensures Enabled(run[i], Launch(ts, lidar)) <==> run[i].srv.logger.Off? && lidar < 2 && ts > run[i].srv.lastStamp
    ensures Enabled(run[i], Launch(ts, lidar)) ==> forall d | d in run[i].srv.logs :: d < ts
    ensures Enabled(run[i], MakeDir) <==> run[i].srv.logger.Launching?
    ensures run[i].srv.logger.Launching? ==> run[i].srv.logger.d !in run[i].srv.logs && Enabled(run[i], LoggerAbort)
  {
    hide Enabled, DataOk, ThreadOk, TrOk;
    InvAlways(run, events, i);
    OnlyLogger(run[i], Launch(ts, lidar));
    OnlyLogger(run[i], MakeDir);
    OnlyLogger(run[i], LoggerAbort);
    LogsAreOld(run[i]);
  }

  lemma LogsAreOld(s: State)
    requires Inv(s)
    ensures forall d | d in s.srv.logs :: d <= s.srv.lastStamp
    ensures s.srv.logger.Launching? ==> s.srv.logger.d !in s.srv.logs
  {
    hide Conserved, StoreOk, ThreadOk, TrOk, DirOk;
    forall d | d in s.srv.logs ensures d <= s.srv.lastStamp {
      assert LogOk(s.srv, d);
    }
  }

  lemma OthersCannot(s: State, e: Event)
    ensures e.StartThread? || e.UserStop? || e.Restart? || e.Lose? || e.StoreMore? || e.StoreDone? ==>
              (Enabled(s, e) <==> ClientEnabled(s, e))
    ensures e.ServeError? ==> (Enabled(s, e) <==> ServerEnabled(s, e))
  {
  }

  lemma OpenFile(s: State)
    requires Inv(s) && WriteOk(s) && (s.cl.pc.Storing? || s.cl.pc.StoringMeta?)
    ensures IsStoring(s.cl.pc) && HasDir(s) && s.cl.pc.written <= |s.cl.pc.body|
  {
    hide Inv, SameFiles, FreshOk, StuckOk;
    FileIsOpen(s);
    SameDirs(s);
    MeantCopy(s);
    assert forall l :: l in s.cl.store.Keys <==> l in s.past.meant.Keys;
  }

  lemma FileIsOpen(s: State)
    requires Inv(s) && (s.cl.pc.Storing? || s.cl.pc.StoringMeta?)
    ensures IsStoring(s.cl.pc)
  {
    hide DataOk, TrOk, EmptyOk;
  }

  /** A thread starts when the last one has ended without failing; the user may stop it and the client be killed at any
      time; its connection may be lost whenever it uses it; and a command that is being served may fail. */
  lemma ThreadMoves(run: seq<State>, events: seq<Event>, i: nat)
    requires IsRun(run, events) && i < |run|
    ensures var s := run[i];
            && (Enabled(s, StartThread) <==> s.cl.pc.Ended? && (s.cl.status == 0 || s.cl.status == -2))
            && Enabled(s, UserStop) && Enabled(s, Restart)
            && (Enabled(s, Lose(-2)) <==> !s.cl.pc.Ended? && !s.cl.pc.Storing? && !s.cl.pc.StoringMeta?)
            && (Enabled(s, ServeError) <==> s.link.Sent? || s.link.Working?)
  {
    hide Inv, Enabled;
    var s := run[i];
    InvAlways(run, events, i);
    OthersCannot(s, StartThread);
    OthersCannot(s, UserStop);
    OthersCannot(s, Restart);
    OthersCannot(s, Lose(-2));
    OthersCannot(s, ServeError);
    if s.cl.pc.Storing? || s.cl.pc.StoringMeta? {
      FileIsOpen(s);
    }
  }

  /** A file that is received reaches the disk in parts of any size, from empty to whole. */
  lemma StoringMoves(run: seq<State>, events: seq<Event>, i: nat, upTo: nat)
    requires IsRun(run, events) && i < |run| && (run[i].cl.pc.Storing? || run[i].cl.pc.StoringMeta?)
    ensures var pc := run[i].cl.pc;
            && (Enabled(run[i], StoreMore(upTo)) <==> pc.written < upTo <= |pc.body|)
            && (Enabled(run[i], StoreDone) <==> pc.written == |pc.body|)
  {
    hide Inv, WriteOk, Enabled;
    WritesAlways(run, events, i);
    OpenFile(run[i]);
    OthersCannot(run[i], StoreMore(upTo));
    OthersCannot(run[i], StoreDone);
  }
}
