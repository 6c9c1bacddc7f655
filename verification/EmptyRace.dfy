/**
 A run in which EMPTY is sent for a directory that has a point cloud: the logger records one and leaves between the
 scan of the directory and the probe of the process table.
 */
module EmptyRace {
  import opened Basics
  import opened Protocol
  import opened Guarantees
  import opened Scenes

  const NOTHING := History([], map[], {}, {})

  const COUNTED: Task := Counted(1, 0, 1, 0, 0, 0)

  /** While the server child has scanned the directory and found nothing. */
  function Between(sv: Server): State {
    State(sv, Client(AwaitNext, 1, true, None, None, map[]), Working(COUNTED), {}, 1, NOTHING)
  }

  /** A thread asks, and the server child scans the root and the directory. */
  function Asking(k: nat): State
    requires k <= 4
  {
    var cl := Client(if k == 1 then Top else AwaitNext, 1, true, None, None, map[]);
    var link := if k == 1 then Quiet else if k == 2 then Sent(SendNext) else Working(Rooted(1, 1));
    if k == 0 then Initial().(srv := After(0))
    else if k == 4 then Between(After(0))
    else State(After(0), cl, link, {}, 1, NOTHING)
  }

  lemma AskingTakes(k: nat)
    requires k < 4
    ensures var e := if k == 0 then StartThread
                     else if k == 1 then Ask
                     else if k == 2 then ScanRoot(1)
                     else ScanFiles(0, 0);
            Takes(Asking(k), e, Asking(k + 1))
    ensures Asking(4) == Between(After(0))
  {
    hide LoggerStep, Notes;
  }

  lemma {:induction false} AskingReached(k: nat)
    requires k <= 3
    ensures Reach(Initial(), Asking(k))
  {
    hide Reach, Takes;
    if k == 0 {
      RecordedReached(0);
    } else {
      AskingReached(k - 1);
      AskingTakes(k - 1);
      var e :| Takes(Asking(k - 1), e, Asking(k));
      TakesReach(Initial(), Asking(k - 1), e, Asking(k));
    }
  }

  lemma UntilTheScan() returns (run: seq<State>, events: seq<Event>)
    ensures IsRun(run, events + [ScanFiles(0, 0)]) && |run| == |events| + 2
    ensures run[|events| + 1] == Between(After(0))
  {
    hide Reach, Takes, Enabled, Step, Asking;
    AskingReached(3);
    AskingTakes(3);
    run, events := EndsWith(Asking(3), ScanFiles(0, 0), Asking(4));
  }

  lemma {:induction false} WithLogger(run0: seq<State>, events0: seq<Event>, k: nat)
    returns (run: seq<State>, events: seq<Event>)
    requires IsRun(run0, events0) && |run0| == |events0| + 1 && run0[|events0|] == Between(After(0)) && k <= 12
    ensures IsRun(run, events) && |events| == |events0| + k && |run| == |run0| + k && run0 <= run && events0 <= events
    ensures run[|events|] == Between(After(k))
    ensures forall i | |events0| <= i <= |events| :: run[i].link == Working(COUNTED)
  {
    hide IsRun, After, LoggerEvent, Enabled, Step;
    if k == 0 {
      run, events := run0, events0;
    } else {
      run, events := WithLogger(run0, events0, k - 1);
      LoggerTakes(Between(After(k - 1)), k - 1);
      OneMore(run, events, LoggerEvent(k - 1), Between(After(k)));
      run, events := run + [Between(After(k))], events + [LoggerEvent(k - 1)];
    }
  }

  /** The server child scans, the logger records and leaves, and the server child says EMPTY. Nothing is lost by it:
      see Guarantees.RemovedDirIsHeld. */
  lemma EmptyIsSentForACloud() returns (run: seq<State>, events: seq<Event>, i: nat, j: nat)
    ensures IsRun(run, events) && ScannedEmpty(run, events, i, j)
    ensures run[j + 1].link.r.d in run[j].srv.dirs && run[j].srv.dirs[run[j + 1].link.r.d].files.clouds != map[]
  {
    hide IsRun, After, Enabled, Step;
    var run0, before := UntilTheScan();
    run, events := WithLogger(run0, before + [ScanFiles(0, 0)], 12);
    i := |before|;
    j := i + 13;
    assert events[i] == ScanFiles(0, 0) && run[i + 1] == run0[i + 1];
    var s := Between(After(12)).(link := Replied(Empty(1, 0)));
    ProbeSaysEmpty();
    OneMore(run, events, Probe, s);
    run, events := run + [s], events + [Probe];
  }

  lemma ProbeSaysEmpty()
    ensures Enabled(Between(After(12)), Probe)
    ensures Step(Between(After(12)), Probe) == Between(After(12)).(link := Replied(Empty(1, 0)))
    ensures 1 in After(12).dirs && After(12).dirs[1].files.clouds != map[]
  {
  }
}
