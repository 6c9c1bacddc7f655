/**
 Runs that other modules take further: a logger records a point cloud of one byte, a thread asks for it and is sent it,
 stores it and asks for its removal.
 */
module Scenes {
  import opened Basics
  import opened Archive
  import opened Protocol

  // ---------- one step after the other ----------

  predicate Takes(a: State, e: Event, b: State) {
    Enabled(a, e) && Step(a, e) == b
  }

  lemma TakesReach(a: State, b: State, e: Event, c: State)
    requires Reach(a, b) && Takes(b, e, c)
    ensures Reach(a, c)
  {
    hide Reach, Enabled, Step;
    ReachStep(a, b, e);
  }

  /** What is reached from the beginning is the end of a run. */
  lemma RunReaching(b: State) returns (run: seq<State>, events: seq<Event>)
    requires Reach(Initial(), b)
    ensures IsRun(run, events) && run[|events|] == b
  {
    hide Reach, Enabled, Step;
    assert IsRun([Initial()], []);
    run, events := RunTo([Initial()], [], 0, b);
  }

  /** A run that leads to b and goes on with e. */
  lemma EndsWith(b: State, e: Event, c: State) returns (run: seq<State>, events: seq<Event>)
    requires Reach(Initial(), b) && Takes(b, e, c)
    ensures IsRun(run, events + [e]) && run[|events|] == b && run[|events| + 1] == c
  {
    hide Reach, Enabled, Step;
    var r, es := RunReaching(b);
    OneMore(r, es, e, c);
    run, events := r + [c], es;
  }

  lemma EndsWithBoth(b: State, e: Event, c: State, f: Event, a: State) returns (run: seq<State>, events: seq<Event>)
    requires Reach(Initial(), b) && Takes(b, e, c) && Takes(c, f, a)
    ensures IsRun(run, events + [e, f]) && run[|events|] == b && run[|events| + 1] == c && run[|events| + 2] == a
  {
    hide Reach, Enabled, Step;
    var r, es := EndsWith(b, e, c);
    OneMore(r, es + [e], f, a);
    assert es + [e] + [f] == es + [e, f];
    run, events := r + [a], es;
  }

  // ---------- the logger ----------

  const BODY: Bytes := [7]

  const CLOUD: map<nat, Bytes> := map[0 := BODY]

  const NOTE: Bytes := [9]

  /** The first k metadata files. */
  function Notes(k: nat): map<Meta, Bytes> {
    map m: Meta | MetaRank(m) < k :: NOTE
  }

  /** The session's directory and log: the point clouds and metadata files that are there, those that are finished, and
      how many point clouds have been removed. */
  function Disk(clouds: map<nat, Bytes>, done: map<nat, Bytes>, metas: nat, k: nat, removed: nat, l: Logger): Server {
    Server(map[1 := Dir(0, Folder(clouds, Notes(metas)))],
           map[1 := Log(0, Folder(done, Notes(k)), |clouds| + removed, removed)], l, 1)
  }

  /** The logger records one point cloud, writes the metadata and leaves. */
  function LoggerEvent(k: nat): Event
    requires k < 12
  {
    if k == 0 then BeginFile(BODY)
    else if k == 1 then FinishFile
    else if k == 2 then LeaveLoop
    else if k == 11 then LoggerExit
    else if k % 2 == 1 then BeginMeta(NOTE)
    else FinishMeta
  }

  function After(k: nat): Server
    requires k <= 12
  {
    if k == 0 then Disk(map[], map[], 0, 0, 0, Recording(1, 0, false))
    else if k == 1 then Disk(CLOUD, map[], 0, 0, 0, Recording(1, 0, true))
    else if k == 2 then Disk(CLOUD, CLOUD, 0, 0, 0, Recording(1, 1, false))
    else if k == 12 then Disk(CLOUD, CLOUD, 4, 4, 0, Off)
    else if k % 2 == 1 then Disk(CLOUD, CLOUD, (k - 3) / 2, (k - 3) / 2, 0, Closing(1, (k - 3) / 2, false))
    else Disk(CLOUD, CLOUD, (k - 2) / 2, (k - 4) / 2, 0, Closing(1, (k - 4) / 2, true))
  }

  lemma OneCloud()
    ensures |CLOUD| == 1 && Notes(0) == map[]
  {
    assert CLOUD.Keys == {0};
  }

  lemma LoggerRecords(k: nat)
    requires k < 3
    ensures LoggerEnabled(After(k), LoggerEvent(k)) && LoggerStep(After(k), LoggerEvent(k)) == After(k + 1)
  {
    OneCloud();
  }

  lemma NotesGrow(k: nat)
    requires k < 4
    ensures Notes(k)[MetaAt(k) := NOTE] == Notes(k + 1)
  {
    assert forall m: Meta :: MetaRank(m) < k + 1 <==> MetaRank(m) < k || m == MetaAt(k);
  }

  lemma MetaBegins(q: nat)
    requires q < 4
    ensures var sv := Disk(CLOUD, CLOUD, q, q, 0, Closing(1, q, false));
            LoggerEnabled(sv, BeginMeta(NOTE))
            && LoggerStep(sv, BeginMeta(NOTE)) == Disk(CLOUD, CLOUD, q + 1, q, 0, Closing(1, q, true))
  {
    hide Notes;
    NotesGrow(q);
  }

  lemma MetaEnds(q: nat)
    requires q < 4
    ensures var sv := Disk(CLOUD, CLOUD, q + 1, q, 0, Closing(1, q, true));
            LoggerEnabled(sv, FinishMeta)
            && LoggerStep(sv, FinishMeta) == Disk(CLOUD, CLOUD, q + 1, q + 1, 0, Closing(1, q + 1, false))
  {
    hide Notes;
    NotesGrow(q);
    assert MetaAt(q) in Notes(q + 1) && Notes(q + 1)[MetaAt(q)] == NOTE;
  }

  lemma LoggerLeaves()
    ensures var sv := Disk(CLOUD, CLOUD, 4, 4, 0, Closing(1, 4, false));
            LoggerEnabled(sv, LoggerExit) && LoggerStep(sv, LoggerExit) == Disk(CLOUD, CLOUD, 4, 4, 0, Off)
  {
  }

  lemma LoggerCloses(k: nat)
    requires 3 <= k < 12
    ensures LoggerEnabled(After(k), LoggerEvent(k)) && LoggerStep(After(k), LoggerEvent(k)) == After(k + 1)
  {
    hide LoggerEnabled, LoggerStep, Disk;
    if k == 11 {
      LoggerLeaves();
    } else if k % 2 == 1 {
      MetaBegins((k - 3) / 2);
    } else {
      MetaEnds((k - 4) / 2);
    }
  }

  lemma LoggerTakes(s: State, k: nat)
    requires k < 12 && s.srv == After(k)
    ensures Takes(s, LoggerEvent(k), s.(srv := After(k + 1)))
  {
    hide After, LoggerEvent, LoggerEnabled, ServerEnabled, ClientEnabled, LoggerStep, ServerStep, ClientStep;
    if k < 3 {
      LoggerRecords(k);
    } else {
      LoggerCloses(k);
    }
  }

  const LAUNCHED: Server := Server(map[], map[], Launching(1, 0), 1)

  lemma LoggerStarts(s: State)
    requires s.srv == Initial().srv || s.srv == LAUNCHED
    ensures s.srv == Initial().srv ==> Takes(s, Launch(1, 0), s.(srv := LAUNCHED))
    ensures s.srv == LAUNCHED ==> Takes(s, MakeDir, s.(srv := After(0)))
  {
    hide ServerEnabled, ClientEnabled, ServerStep, ClientStep;
    OneCloud();
  }

  lemma {:induction false} RecordedReached(k: nat)
    requires k <= 12
    ensures Reach(Initial(), Initial().(srv := After(k)))
  {
    hide Reach, Takes, After;
    var s := Initial();
    if k == 0 {
      ReachSelf(s);
      LoggerStarts(s);
      TakesReach(s, s, Launch(1, 0), s.(srv := LAUNCHED));
      LoggerStarts(s.(srv := LAUNCHED));
      TakesReach(s, s.(srv := LAUNCHED), MakeDir, s.(srv := After(0)));
    } else {
      RecordedReached(k - 1);
      LoggerTakes(s.(srv := After(k - 1)), k - 1);
      TakesReach(s, s.(srv := After(k - 1)), LoggerEvent(k - 1), s.(srv := After(k)));
    }
  }

  /** The logger has left without writing metadata. */
  const FULL: Server := Disk(CLOUD, CLOUD, 0, 0, 0, Off)

  lemma FullReached()
    ensures Reach(Initial(), Initial().(srv := FULL))
  {
    hide Reach, ServerEnabled, ClientEnabled, ServerStep, ClientStep;
    RecordedReached(2);
    TakesReach(Initial(), Initial().(srv := After(2)), LoggerAbort, Initial().(srv := FULL));
  }

  // ---------- a thread asks ----------

  /** No logger is alive, and the server has point cloud 0 of session 1 and no other. */
  predicate HasOneCloud(sv: Server) {
    sv.logger.Off? && sv.dirs.Keys == {1} && sv.dirs[1].lidar == 0 && sv.dirs[1].files.clouds == CLOUD
  }

  predicate MayAsk(s: State) {
    HasOneCloud(s.srv) && s.cl.pc.Ended? && (s.cl.status == 0 || s.cl.status == -2) && s.link == Quiet
  }

  const SENDING: Link := Replied(Sending(1, 0, 0, 0, 1, BODY))

  /** A thread asks and is sent the point cloud. */
  function Asked(k: nat, before: State): State
    requires k <= 6
  {
    if k == 0 then before
    else
      var cl := before.cl.(pc := if k == 1 then Top else AwaitNext, status := 1, running := true, dir := None);
      var link := if k == 1 then Quiet
                  else if k == 2 then Sent(SendNext)
                  else if k == 3 then Working(Rooted(1, 1))
                  else if k == 4 then Working(Counted(1, 0, 1, 0, 0, 1))
                  else if k == 5 then Working(Chosen(1, 0, 0, 0, 1))
                  else SENDING;
      var sends := before.past.sends + if k == 6 then [Send(1, 0, before.session + 1)] else [];
      State(before.srv, cl, link, before.orphans, before.session + 1, before.past.(sends := sends))
  }

  lemma OneAndOne(sv: Server)
    requires HasOneCloud(sv)
    ensures |sv.dirs| == 1 && |sv.dirs[1].files.clouds| == 1 && IsOldest(sv.dirs, 1)
    ensures IsScan(sv.dirs[1].files.clouds, 0, 0) && HasCloud(sv.dirs, 1, 0, 0)
  {
    assert |CLOUD| == 1 by { assert CLOUD.Keys == {0}; }
  }

  lemma AskedBegins(k: nat, s: State)
    requires k < 2 && MayAsk(s)
    ensures Takes(Asked(k, s), if k == 0 then StartThread else Ask, Asked(k + 1, s))
  {
    hide LoggerStep, ServerStep;
  }

  lemma AskedServed(k: nat, s: State)
    requires 2 <= k < 6 && MayAsk(s)
    ensures var e := if k == 2 then ScanRoot(1)
                     else if k == 3 then ScanFiles(0, 0)
                     else if k == 4 then Probe
                     else ReadCloud;
            Takes(Asked(k, s), e, Asked(k + 1, s))
  {
    hide LoggerStep, ClientStep, IsOldest, IsScan;
    OneAndOne(s.srv);
  }

  lemma {:induction false} AskedReached(k: nat, s: State)
    requires k <= 6 && MayAsk(s) && Reach(Initial(), s)
    ensures Reach(Initial(), Asked(k, s))
  {
    hide Reach, Takes;
    if k > 0 {
      AskedReached(k - 1, s);
      if k <= 2 {
        AskedBegins(k - 1, s);
      } else {
        AskedServed(k - 1, s);
      }
      var e :| Takes(Asked(k - 1, s), e, Asked(k, s));
      TakesReach(Initial(), Asked(k - 1, s), e, Asked(k, s));
    }
  }

  // ---------- and stores ----------

  function Local(bytes: Bytes): Store {
    map[Active(1) := Folder(map[0 := bytes], map[])]
  }

  const EMPTY_LOCAL: Store := map[Active(1) := EMPTY_FOLDER]

  const REMOVAL: Command := RemoveFile(1, 0, 0)

  /** A first thread stores the point cloud and asks for its removal. */
  function Stored(k: nat, sv: Server): State
    requires k <= 5
  {
    var past := History([Send(1, 0, 1)], if k == 1 then EMPTY_LOCAL else Local(BODY), {}, {});
    var pc := if k == 1 then AwaitBody(1, 0, 0)
              else if k == 2 then Storing(1, 0, 0, BODY, 0)
              else if k == 3 then Storing(1, 0, 0, BODY, 1)
              else if k == 4 then MustRemove(1, 0, 0)
              else AwaitRemoved;
    var store := if k == 1 then EMPTY_LOCAL else if k == 2 then Local([]) else Local(BODY);
    if k == 0 then Asked(6, Initial().(srv := sv))
    else
      var link := if k == 1 then SENDING else if k == 5 then Sent(REMOVAL) else Quiet;
      State(sv, Client(pc, 1, true, Some((1, 0)), Some(1), store), link, {}, 1, past)
  }

  lemma LocalWrites(x: Bytes, y: Bytes)
    ensures WithDir(map[], 1) == EMPTY_LOCAL && WithDir(Local(x), 1) == Local(x)
    ensures WriteCloud(EMPTY_LOCAL, 1, 0, y) == Local(y) && WriteCloud(Local(x), 1, 0, y) == Local(y)
  {
    assert EMPTY_LOCAL[Active(1) := Folder(map[0 := y], map[])] == Local(y);
    assert Local(x)[Active(1) := Folder(map[0 := y], map[])] == Local(y);
    assert Local(x)[Active(1)].clouds[0 := y] == map[0 := y];
  }

  lemma StoredBegins(k: nat, sv: Server)
    requires k < 2
    ensures Takes(Stored(k, sv), if k == 0 then GetReply else GetBody, Stored(k + 1, sv))
  {
    hide LoggerStep, ServerStep, WriteCloud, WithDir;
    LocalWrites([], []);
    LocalWrites([], BODY);
  }

  lemma StoredGoesOn(k: nat, sv: Server)
    requires 2 <= k < 5
    ensures Takes(Stored(k, sv), if k == 2 then StoreMore(1) else if k == 3 then StoreDone else Ask, Stored(k + 1, sv))
  {
    hide LoggerStep, ServerStep, WriteCloud, WithDir;
    LocalWrites([], BODY);
    assert BODY[..1] == BODY;
  }

  lemma {:induction false} StoredReached(k: nat, sv: Server)
    requires k <= 5 && HasOneCloud(sv) && Reach(Initial(), Initial().(srv := sv))
    ensures Reach(Initial(), Stored(k, sv))
  {
    hide Reach, Takes;
    if k == 0 {
      AskedReached(6, Initial().(srv := sv));
    } else {
      StoredReached(k - 1, sv);
      if k <= 2 {
        StoredBegins(k - 1, sv);
      } else {
        StoredGoesOn(k - 1, sv);
      }
      var e :| Takes(Stored(k - 1, sv), e, Stored(k, sv));
      TakesReach(Initial(), Stored(k - 1, sv), e, Stored(k, sv));
    }
  }
}
