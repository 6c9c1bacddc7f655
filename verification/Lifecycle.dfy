/**
 The client's main loop and the transmission threads it starts, as a step system over the shared `status` and
 `running`: 1 is a thread at work, 0 none, -2 one that lost its connection and is to be resumed, -1 one that failed.
 */
module Lifecycle {
  /** A thread that has been created has no effect on `status` before it runs. */
  datatype Thread = Spawned | Live

  type Id = nat

  datatype MainPc = Connecting | Polling | TestResume | TestKey | TestError | Leaving | Joining | Exited

  datatype Client = Client(main: MainPc, end: bool, status: int, running: bool, last: Id, threads: map<Id, Thread>)

  datatype Event =
    // main thread
    | Connected
    | GiveUp
    | StatusAnswered
    | StatusFailed
    | ErrorAnswered
    | Resume
    | Key(key: char, answered: bool)
    | NoKey
    | CheckError
    | Leave
    | Joined
    // transmission threads
    | Publish(id: Id)
    | Finish(id: Id, code: int)

  predicate Enabled(s: Client, e: Event) {
    match e
    case Connected => s.main.Connecting?
    case GiveUp => s.main.Connecting?
    case StatusAnswered => s.main.Polling?
    case StatusFailed => s.main.Polling?
    case ErrorAnswered => s.main.Polling? || s.main.TestKey?
    case Resume => s.main.TestResume?
    case Key(_, _) => s.main.TestKey?
    case NoKey => s.main.TestKey?
    case CheckError => s.main.TestError?
    case Leave => s.main.Leaving?
    case Joined => s.main.Joining? && s.last !in s.threads
    case Publish(id) => !s.main.Exited? && id in s.threads && s.threads[id].Spawned?
    case Finish(id, code) =>
      !s.main.Exited? && id in s.threads && s.threads[id].Live? && (code == 0 || code == -1 || code == -2)
  }

  /** CreateTransmissionThread */
  function Create(s: Client): Client {
    s.(running := true, last := s.last + 1, threads := s.threads[s.last + 1 := Spawned])
  }

  /** The tests on a key. */
  function OnKey(s: Client, key: char, answered: bool): Client {
    if (key == '1' || key == '2') && !answered then s.(main := Connecting)
    else
      var s' := s.(main := TestError);
      if key == '3' && s.status == 0 then Create(s')
      else if key == '4' && s.status == 1 then s'.(running := false)
      else if key == '5' then s'.(end := true)
      else s'
  }

  function Step(s: Client, e: Event): Client
    requires Enabled(s, e)
  {
    match e
    case Connected => s.(main := Polling)
    case GiveUp => s.(main := Leaving, end := true)
    case StatusAnswered => s.(main := TestResume)
    case StatusFailed => s.(main := Connecting)
    case ErrorAnswered => s.(main := Leaving)
    case Resume => if s.status == -2 then Create(s.(main := TestKey)) else s.(main := TestKey)
    case Key(key, answered) => OnKey(s, key, answered)
    case NoKey => s.(main := TestError)
    case CheckError => s.(main := if s.status == -1 || s.end then Leaving else Polling)
    case Leave => if s.status == 1 || s.running then s.(main := Joining, running := false) else s.(main := Exited)
    case Joined => s.(main := Exited)
    case Publish(id) => s.(status := 1, threads := s.threads[id := Live])
    case Finish(id, code) => s.(status := code, threads := s.threads - {id})
  }

  function Initial(): Client {
    Client(Connecting, false, 0, false, 0, map[])
  }

  predicate IsRun(run: seq<Client>, events: seq<Event>) {
    && |run| == |events| + 1
    && run[0] == Initial()
    && forall i | 0 <= i < |events| :: Enabled(run[i], events[i]) && run[i + 1] == Step(run[i], events[i])
  }

  // ---------- at most one thread ----------

  predicate AtMostOne(s: Client) {
    forall a, b | a in s.threads && b in s.threads :: a == b
  }

  predicate NoneSpawned(s: Client) {
    forall id | id in s.threads :: s.threads[id].Live?
  }

  /** The step starts a thread. */
  predicate Creates(s: Client, e: Event) {
    (e == Resume && s.status == -2) || (e.Key? && e.key == '3' && s.status == 0)
  }

  /** While there is at most one thread, it is the one started last, and `status` is its own once it has run. */
  predicate Inv(s: Client) {
    && AtMostOne(s)
    && (forall id | id in s.threads ::
          && id == s.last
          && (s.threads[id].Live? ==> s.status == 1)
          && (s.threads[id].Spawned? ==> (s.status == 0 || s.status == -2) && (s.running || s.main.Joining?)))
    && (s.main.Exited? ==> s.threads == map[])
  }

  lemma InvAfterStep(s: Client, e: Event)
    requires Inv(s) && Enabled(s, e) && (Creates(s, e) ==> NoneSpawned(s))
    ensures Inv(Step(s, e))
  {
  }

  lemma {:induction false} InvWhilePrompt(run: seq<Client>, events: seq<Event>, n: nat)
    requires IsRun(run, events) && n < |run|
    requires forall i | 0 <= i < n :: Creates(run[i], events[i]) ==> NoneSpawned(run[i])
    ensures Inv(run[n])
  {
    if n > 0 {
      InvWhilePrompt(run, events, n - 1);
      InvAfterStep(run[n - 1], events[n - 1]);
    }
  }

  lemma TwoAfterStep(s: Client, e: Event)
    requires Inv(s) && Enabled(s, e) && Creates(s, e) && !NoneSpawned(s)
    ensures !AtMostOne(Step(s, e))
  {
    var id :| id in s.threads && s.threads[id].Spawned?;
    var s' := Step(s, e);
    assert id in s'.threads && s'.last in s'.threads && s'.last != id;
  }

  lemma {:induction false} FirstUnprompt(run: seq<Client>, events: seq<Event>, n: nat) returns (first: nat)
    requires IsRun(run, events) && n < |events| && Creates(run[n], events[n]) && !NoneSpawned(run[n])
    ensures first <= n && Creates(run[first], events[first]) && !NoneSpawned(run[first])
    ensures forall i | 0 <= i < first :: Creates(run[i], events[i]) ==> NoneSpawned(run[i])
  {
    if i :| 0 <= i < n && Creates(run[i], events[i]) && !NoneSpawned(run[i]) {
      first := FirstUnprompt(run, events, i);
    } else {
      first := n;
    }
  }

  /** There is at most one thread at any time of a run if and only if the main loop never starts one while an earlier
      one has not yet set `status`. */
  lemma AtMostOneThreadIff(run: seq<Client>, events: seq<Event>)
    requires IsRun(run, events)
    ensures (forall n | 0 <= n < |run| :: AtMostOne(run[n])) <==>
            (forall i | 0 <= i < |events| && Creates(run[i], events[i]) :: NoneSpawned(run[i]))
  {
    if i :| 0 <= i < |events| && Creates(run[i], events[i]) && !NoneSpawned(run[i]) {
      var first := FirstUnprompt(run, events, i);
      InvWhilePrompt(run, events, first);
      TwoAfterStep(run[first], events[first]);
      assert !AtMostOne(run[first + 1]);
    } else {
      forall n | 0 <= n < |run| ensures AtMostOne(run[n]) {
        InvWhilePrompt(run, events, n);
      }
    }
  }

  /** The guard under which the protocol lets a thread start: no other is alive, and none has failed. */
  predicate MayStart(s: Client) {
    s.threads == map[] && (s.status == 0 || s.status == -2)
  }

  /** Every thread of a run is started under the protocol's guard if and only if the run never has two: it is then
      that the guarantees about a single transmission thread apply. */
  lemma GuardHoldsIff(run: seq<Client>, events: seq<Event>)
    requires IsRun(run, events)
    ensures (forall i | 0 <= i < |events| && Creates(run[i], events[i]) :: MayStart(run[i])) <==>
            (forall n | 0 <= n < |run| :: AtMostOne(run[n]))
  {
    AtMostOneThreadIff(run, events);
    forall i | 0 <= i < |events| && Creates(run[i], events[i]) && forall n | 0 <= n < |run| :: AtMostOne(run[n])
      ensures MayStart(run[i])
    {
      InvWhilePrompt(run, events, i);
      NoneAlive(run[i], events[i]);
    }
  }

  lemma NoneAlive(s: Client, e: Event)
    requires Inv(s) && Creates(s, e) && NoneSpawned(s)
    ensures MayStart(s)
  {
    forall id ensures id !in s.threads {
    }
  }

  /** A thread has set `status` before the main loop looks at it again. */
  predicate Prompt(run: seq<Client>, events: seq<Event>)
    requires IsRun(run, events)
  {
    forall i | 0 <= i < |events| && (events[i] == Resume || events[i].Key?) :: NoneSpawned(run[i])
  }

  /** Then there is at most one thread, none outlives the program, and none is started after one has failed. */
  lemma PromptThreads(run: seq<Client>, events: seq<Event>, n: nat)
    requires IsRun(run, events) && Prompt(run, events) && n < |run|
    ensures AtMostOne(run[n])
    ensures n < |events| && Creates(run[n], events[n]) ==> MayStart(run[n])
    ensures run[n].main.Exited? ==> run[n].threads == map[]
    ensures run[n].status == -1 ==> run[n].threads == map[]
  {
    InvWhilePrompt(run, events, n);
    if n < |events| && Creates(run[n], events[n]) {
      NoneAlive(run[n], events[n]);
    }
    if run[n].status == -1 {
      NoThreadAfterFailure(run[n]);
    }
  }

  lemma NoThreadAfterFailure(s: Client)
    requires Inv(s) && s.status == -1
    ensures s.threads == map[]
  {
  }

  lemma {:induction false} FailureIsFinal(run: seq<Client>, events: seq<Event>, m: nat, n: nat)
    requires IsRun(run, events) && Prompt(run, events) && m <= n < |run| && run[m].status == -1
    ensures run[n].status == -1 && run[n].threads == map[]
    ensures n < |events| ==> !Creates(run[n], events[n])
    decreases n - m
  {
    PromptThreads(run, events, n);
    if m < n {
      FailureIsFinal(run, events, m, n - 1);
    }
  }

  /** Pressing '3' in two rounds of the loop, before the first thread runs, starts two. */
  lemma TwoThreads() returns (run: seq<Client>, events: seq<Event>)
    ensures IsRun(run, events) && !AtMostOne(run[|events|])
  {
    events := [Connected, StatusAnswered, Resume, Key('3', true), CheckError, StatusAnswered, Resume, Key('3', true)];
    var first := Client(TestError, false, 0, true, 1, map[1 := Spawned]);
    var second := Client(TestError, false, 0, true, 2, map[1 := Spawned, 2 := Spawned]);
    run := [Initial(), Initial().(main := Polling), Initial().(main := TestResume), Initial().(main := TestKey), first,
            first.(main := Polling), first.(main := TestResume), first.(main := TestKey), second];
    assert 1 in second.threads && 2 in second.threads;
  }

  // ---------- what the keys do ----------

  /** The step tells the thread to stop: '4' is pressed while one is at work, or the program begins to leave while one
      may be. */
  predicate Stops(s: Client, e: Event) {
    (e.Key? && e.key == '4' && s.status == 1) || (e.Leave? && (s.status == 1 || s.running))
  }

  /** Since the last start of a thread, if there was one, nobody has told it to stop. */
  ghost predicate NotStopped(run: seq<Client>, events: seq<Event>, n: nat)
    requires IsRun(run, events) && n < |run|
  {
    exists i | 0 <= i < n :: StartedAndGoesOn(run, events, i, n)
  }

  ghost predicate StartedAndGoesOn(run: seq<Client>, events: seq<Event>, i: nat, n: nat)
    requires IsRun(run, events) && i < n < |run|
  {
    Creates(run[i], events[i]) && forall k | i < k < n :: !Stops(run[k], events[k])
  }

  lemma RunningAfterStep(s: Client, e: Event)
    requires Enabled(s, e)
    ensures Step(s, e).running <==> Creates(s, e) || (s.running && !Stops(s, e))
  {
  }

  /** The thread may run if and only if one has been started and has not been told to stop since. */
  lemma {:induction false} RunningIff(run: seq<Client>, events: seq<Event>, n: nat)
    requires IsRun(run, events) && n < |run|
    ensures run[n].running <==> NotStopped(run, events, n)
  {
    hide Creates, Stops, Enabled, Step;
    if n == 0 {
      NothingRuns();
    } else {
      RunningIff(run, events, n - 1);
      RunningAfterStep(run[n - 1], events[n - 1]);
      if Creates(run[n - 1], events[n - 1]) {
        assert StartedAndGoesOn(run, events, n - 1, n);
      } else if NotStopped(run, events, n - 1) && !Stops(run[n - 1], events[n - 1]) {
        var i :| 0 <= i < n - 1 && StartedAndGoesOn(run, events, i, n - 1);
        assert StartedAndGoesOn(run, events, i, n);
      } else if NotStopped(run, events, n) {
        WasNotStopped(run, events, n);
      }
    }
  }

  lemma WasNotStopped(run: seq<Client>, events: seq<Event>, n: nat)
    requires IsRun(run, events) && 0 < n < |run| && NotStopped(run, events, n)
    ensures Creates(run[n - 1], events[n - 1])
            || (NotStopped(run, events, n - 1) && !Stops(run[n - 1], events[n - 1]))
  {
    hide Creates, Stops, Enabled, Step;
    var i :| 0 <= i < n && StartedAndGoesOn(run, events, i, n);
    if i < n - 1 {
      assert StartedAndGoesOn(run, events, i, n - 1);
    }
  }

  lemma NothingRuns()
    ensures !Initial().running
  {
  }

  /** '5' has been pressed. */
  ghost predicate EndPressed(events: seq<Event>, n: nat)
    requires n <= |events|
  {
    exists i | 0 <= i < n :: IsEnd(events[i])
  }

  predicate IsEnd(e: Event) {
    e.Key? && e.key == '5'
  }

  predicate IsLeaving(s: Client) {
    s.main.Leaving? || s.main.Joining? || s.main.Exited?
  }

  lemma EndAfterStep(s: Client, e: Event)
    requires Enabled(s, e)
    ensures IsLeaving(s) ==> IsLeaving(Step(s, e))
    ensures !IsLeaving(Step(s, e)) ==> (Step(s, e).end <==> s.end || IsEnd(e))
  {
  }

  lemma {:induction false} EndIff(run: seq<Client>, events: seq<Event>, n: nat)
    requires IsRun(run, events) && n < |run| && !IsLeaving(run[n])
    ensures run[n].end <==> EndPressed(events, n)
  {
    hide Enabled, Step, IsEnd;
    if n == 0 {
      NothingEnds();
    } else {
      EndAfterStep(run[n - 1], events[n - 1]);
      EndIff(run, events, n - 1);
    }
  }

  lemma NothingEnds()
    ensures !Initial().end
  {
  }

  /** The program leaves when '5' has been pressed or a thread has failed, at the check that ends each round; when the
      server answers a command with an error; and when it cannot connect. */
  lemma LeavesIff(run: seq<Client>, events: seq<Event>, i: nat)
    requires IsRun(run, events) && i < |events| && !IsLeaving(run[i])
    ensures IsLeaving(run[i + 1]) <==>
              || events[i].GiveUp? || events[i].ErrorAnswered?
              || (events[i].CheckError? && (run[i].status == -1 || EndPressed(events, i)))
  {
    EndIff(run, events, i);
  }

  /** When a command on the control connection fails, the main loop connects again, and the thread is left alone. */
  lemma ReconnectsIff(run: seq<Client>, events: seq<Event>, i: nat)
    requires IsRun(run, events) && i < |events| && !run[i].main.Connecting?
    ensures run[i + 1].main.Connecting? <==>
              events[i].StatusFailed? || (events[i].Key? && events[i].key in {'1', '2'} && !events[i].answered)
    ensures run[i + 1].main.Connecting? ==> run[i + 1] == run[i].(main := Connecting)
  {
  }

  /** A round of the main loop: connect if need be, ask for the status, resume, read a key, check. */
  lemma RoundsGoOn(run: seq<Client>, events: seq<Event>, i: nat)
    requires IsRun(run, events) && i < |events|
    requires !IsLeaving(run[i + 1]) && !run[i + 1].main.Connecting? && run[i + 1].main != run[i].main
    ensures match run[i].main
            case Connecting => run[i + 1].main.Polling?
            case Polling => run[i + 1].main.TestResume?
            case TestResume => run[i + 1].main.TestKey?
            case TestKey => run[i + 1].main.TestError?
            case TestError => run[i + 1].main.Polling?
            case _ => false
  {
  }

  /** The program exits when no thread is at work and none is told to run, or when the last one has ended. */
  lemma ExitsIff(run: seq<Client>, events: seq<Event>, i: nat)
    requires IsRun(run, events) && i < |events| && !run[i].main.Exited?
    ensures run[i + 1].main.Exited? <==>
              || (events[i].Leave? && run[i].status != 1 && !run[i].running)
              || (events[i].Joined? && run[i].last !in run[i].threads)
  {
  }

  /** Where the main loop waits for an answer it may also get none, or an error. */
  lemma AnswersMayIff(run: seq<Client>, events: seq<Event>, i: nat, key: char)
    requires IsRun(run, events) && i < |run|
    ensures Enabled(run[i], Connected) && Enabled(run[i], GiveUp) <==> run[i].main.Connecting?
    ensures Enabled(run[i], StatusAnswered) && Enabled(run[i], StatusFailed) <==> run[i].main.Polling?
    ensures Enabled(run[i], Key(key, true)) && Enabled(run[i], Key(key, false)) <==> run[i].main.TestKey?
    ensures Enabled(run[i], ErrorAnswered) <==> run[i].main.Polling? || run[i].main.TestKey?
  {
  }

  /** A thread sets its status once it runs, and ends with any of three; a program that has exited has no threads. */
  lemma ThreadsMayIff(run: seq<Client>, events: seq<Event>, i: nat, id: Id, code: int)
    requires IsRun(run, events) && i < |run|
    ensures Enabled(run[i], Publish(id)) <==>
              !run[i].main.Exited? && id in run[i].threads && run[i].threads[id] == Spawned
    ensures Enabled(run[i], Finish(id, code)) <==>
              !run[i].main.Exited? && id in run[i].threads && run[i].threads[id] == Live && code in {0, -1, -2}
  {
  }

  /** The status is what the thread that ran last has set: 1 while it is at work, and then what it ended with. */
  lemma StatusIsSet(run: seq<Client>, events: seq<Event>, i: nat)
    requires IsRun(run, events) && i < |events|
    ensures run[i + 1].status == match events[i]
                                 case Publish(_) => 1
                                 case Finish(_, code) => code
                                 case _ => run[i].status
    ensures run[i + 1].threads.Keys ==
            (if Creates(run[i], events[i]) then run[i].threads.Keys + {run[i].last + 1}
             else if events[i].Finish? then run[i].threads.Keys - {events[i].id}
             else run[i].threads.Keys)
  {
  }
}
