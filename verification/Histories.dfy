/**
 The history that a state carries is written and never read: two states that differ in nothing else allow the same
 steps, and go on to differ in nothing else.
 */
module Histories {
  import opened Protocol
  import opened Safety
  import opened Writes

  /** What the actors see of a state: all but the record of each session and the history of the run. */
  function Seen(s: State): State {
    s.(srv := s.srv.(logs := map[]), past := History([], map[], {}, {}))
  }

  /** What a guard asks of the history besides holds in every reachable state. */
  ghost predicate Recorded(s: State) {
    && (forall d | d in s.srv.dirs :: d in s.srv.logs)
    && (forall l :: l in s.cl.store <==> l in s.past.meant)
  }

  /** Two states of which the actors see the same. */
  ghost predicate Alike(a: State, b: State) {
    Recorded(a) && Recorded(b) && Seen(a) == Seen(b)
  }

  lemma RecordedInRuns(s: State)
    requires Inv(s) && WriteOk(s)
    ensures Recorded(s)
  {
    hide FreshOk, StuckOk, SameFiles, Conserved, StoreOk, ThreadOk;
    SameKeys(s.cl.store, s.past.meant, Torn(s), TornMetas(s));
  }

  lemma LoggerReadsNone(a: State, b: State, e: Event)
    requires Alike(a, b)
    ensures LoggerEnabled(a.srv, e) <==> LoggerEnabled(b.srv, e)
    ensures LoggerEnabled(a.srv, e) ==>
              Seen(a.(srv := LoggerStep(a.srv, e))) == Seen(b.(srv := LoggerStep(b.srv, e)))
  {
  }

  lemma ServerReadsNone(a: State, b: State, e: Event)
    requires Alike(a, b)
    ensures ServerEnabled(a, e) <==> ServerEnabled(b, e)
    ensures ServerEnabled(a, e) ==> Seen(ServerStep(a, e)) == Seen(ServerStep(b, e))
  {
  }

  lemma NextReadsNone(a: State, b: State, r: Reply)
    requires Alike(a, b)
    ensures Seen(OnNextReply(a, r)) == Seen(OnNextReply(b, r))
  {
    hide WithDir;
  }

  lemma MetaReadsNone(a: State, b: State, r: Reply)
    requires Alike(a, b) && a.cl.pc.AwaitMeta? && a.cl.pc.k < 4
    ensures Seen(OnMetaReply(a, r)) == Seen(OnMetaReply(b, r))
  {
    hide WriteLocalMeta;
  }

  lemma DirReadsNone(a: State, b: State, r: Reply)
    requires Alike(a, b) && a.cl.pc.AwaitDirRemoved?
    ensures Seen(OnDirReply(a, r)) == Seen(OnDirReply(b, r))
  {
    hide Rename;
  }

  lemma EndReadsNone(a: State, b: State, status: int)
    requires Alike(a, b)
    ensures Seen(Exit(a, status)) == Seen(Exit(b, status)) && Seen(Continue(a)) == Seen(Continue(b))
    ensures a.cl == b.cl && a.link == b.link
  {
  }

  lemma ReplyReadsNone(a: State, b: State)
    requires Alike(a, b) && ClientEnabled(a, GetReply)
    ensures ClientEnabled(b, GetReply) && Seen(ClientStep(a, GetReply)) == Seen(ClientStep(b, GetReply))
  {
    hide Alike, Seen, OnNextReply, OnMetaReply, OnDirReply, Exit, Continue;
    EndReadsNone(a, b, -1);
    if a.cl.pc.AwaitNext? {
      NextReadsNone(a, b, a.link.r);
    } else if a.cl.pc.AwaitMeta? {
      MetaReadsNone(a, b, a.link.r);
    } else if a.cl.pc.AwaitDirRemoved? {
      DirReadsNone(a, b, a.link.r);
    }
  }

  lemma StoringReadsNone(a: State, b: State, e: Event)
    requires Alike(a, b) && (e.GetBody? || e.StoreMore? || e.StoreDone?) && ClientEnabled(a, e)
    ensures ClientEnabled(b, e) && Seen(ClientStep(a, e)) == Seen(ClientStep(b, e))
  {
    hide WriteLocalMeta, WriteCloud;
  }

  lemma OtherReadsNone(a: State, b: State, e: Event)
    requires Alike(a, b) && !(e.GetReply? || e.GetBody? || e.StoreMore? || e.StoreDone?) && ClientEnabled(a, e)
    ensures ClientEnabled(b, e) && Seen(ClientStep(a, e)) == Seen(ClientStep(b, e))
  {
  }

  lemma ClientReadsNone(a: State, b: State, e: Event)
    requires Alike(a, b) && ClientEnabled(a, e)
    ensures ClientEnabled(b, e) && Seen(ClientStep(a, e)) == Seen(ClientStep(b, e))
  {
    hide Alike, Seen, ClientEnabled, ClientStep;
    if e.GetReply? {
      ReplyReadsNone(a, b);
    } else if e.GetBody? || e.StoreMore? || e.StoreDone? {
      StoringReadsNone(a, b, e);
    } else {
      OtherReadsNone(a, b, e);
    }
  }

  lemma StepReadsNone(a: State, b: State, e: Event)
    requires Alike(a, b) && Enabled(a, e)
    ensures Enabled(b, e) && Seen(Step(a, e)) == Seen(Step(b, e))
  {
    hide Recorded, Seen, LoggerEnabled, ServerEnabled, ClientEnabled, LoggerStep, ServerStep, ClientStep;
    LoggerReadsNone(a, b, e);
    ServerReadsNone(a, b, e);
    if ClientEnabled(a, e) {
      ClientReadsNone(a, b, e);
    }
  }

  lemma {:induction false} StepsReadNone(a: State, b: State, events: seq<Event>, a': State) returns (b': State)
    requires Inv(a) && WriteOk(a) && Inv(b) && WriteOk(b) && Seen(a) == Seen(b) && Leads(a, events, a')
    ensures Leads(b, events, b') && Seen(a') == Seen(b')
    decreases |events|
  {
    hide Inv, WriteOk, Seen, Enabled, Step, Recorded;
    b' := b;
    if events != [] {
      var e := events[0];
      RecordedInRuns(a);
      RecordedInRuns(b);
      StepReadsNone(a, b, e);
      InvAfterStep(a, e);
      WriteOkAfterStep(a, e);
      InvAfterStep(b, e);
      WriteOkAfterStep(b, e);
      b' := StepsReadNone(Step(a, e), Step(b, e), events[1..], a');
    }
  }

  /** Whatever one run can go on with, another that the actors cannot tell from it can go on with too, and they cannot
      tell them apart afterwards. */
  lemma HistoryIsNotRead(run: seq<State>, events: seq<Event>, run': seq<State>, events': seq<Event>,
                         more: seq<Event>, a: State)
    requires IsRun(run, events) && IsRun(run', events') && Seen(run[|events|]) == Seen(run'[|events'|])
    requires Leads(run[|events|], more, a)
    ensures exists b :: Leads(run'[|events'|], more, b) && Seen(a) == Seen(b)
  {
    hide Inv, WriteOk, Seen, Leads, Enabled, Step;
    WritesAlways(run, events, |events|);
    WritesAlways(run', events', |events'|);
    var b := StepsReadNone(run[|events|], run'[|events'|], more, a);
  }
}
