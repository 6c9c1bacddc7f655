/**
 The drain protocol as a step system: a logger that keeps producing files, a server child that serves one command at a
 time, a transmission thread, and a connection that may be lost at any moment. Commands of a dead connection stay
 pending and may still be executed, at any later time.
 */
module Protocol {
  import opened Basics
  import opened Archive

  /** The logger process. `Launching` is a live process that has not created its directory yet; `open` tells whether
      point cloud `next`, or metadata file number k, is being written. */
  datatype Logger =
    | Off
    | Launching(d: Stamp, lidar: nat)
    | Recording(d: Stamp, next: nat, open: bool)
    | Closing(d: Stamp, k: nat, open: bool)

  /** What was ever recorded for a session: finished files, point clouds begun, point clouds removed from the server.
      A history of the run, which influences no actor: see Histories. */
  datatype Log = Log(lidar: nat, done: Folder, begun: nat, removed: nat)

  datatype Server = Server(dirs: Tree, logs: map<Stamp, Log>, logger: Logger, lastStamp: Stamp)

  datatype Command =
    | SendNext
    | RemoveFile(d: Stamp, lidar: nat, n: nat)
    | SendFile(d: Stamp, lidar: nat, m: Meta)
    | RemoveDir(d: Stamp)

  datatype Reply =
    | NoTr
    | Wait
    | Sending(d: Stamp, lidar: nat, n: nat, last: nat, count: nat, body: Bytes)
    | Empty(d: Stamp, lidar: nat)
    | FileRemoved
    | Requested(body: Bytes)
    | DirRemoved
    | Error

  /** Where SendNext stands: the root was scanned, then the point clouds of the oldest directory, then the process
      table was probed and a file was chosen. */
  datatype Task =
    | Rooted(d: Stamp, dirCount: nat)
    | Counted(d: Stamp, lidar: nat, dirCount: nat, first: nat, last: nat, count: nat)
    | Chosen(d: Stamp, lidar: nat, first: nat, last: nat, count: nat)

  /** The client's current connection. */
  datatype Link = Quiet | Sent(c: Command) | Working(t: Task) | Replied(r: Reply)

  /** Where the transmission thread stands. While it stores a file that it has received, `written` bytes of `body` are
      on its disk. */
  datatype Pc =
    | Ended
    | Top
    | AwaitNext
    | AwaitBody(d: Stamp, lidar: nat, n: nat)
    | Storing(d: Stamp, lidar: nat, n: nat, body: Bytes, written: nat)
    | MustRemove(d: Stamp, lidar: nat, n: nat)
    | AwaitRemoved
    | AskMeta(folder: Stamp, from: Stamp, lidar: nat, k: nat)
    | AwaitMeta(folder: Stamp, from: Stamp, lidar: nat, k: nat)
    | StoringMeta(folder: Stamp, from: Stamp, lidar: nat, k: nat, body: Bytes, written: nat)
    | MustRemoveDir(folder: Stamp)
    | AwaitDirRemoved(folder: Stamp)

  /** A local directory is called `<time>-active` until its transfer is complete. */
  datatype LocalDir = Active(d: Stamp) | Final(d: Stamp)

  type Store = map<LocalDir, Folder>

  /** `tr` survives the thread and `dir` does not; neither has a value before its first assignment. */
  datatype Client = Client(pc: Pc, status: int, running: bool, tr: Option<(Stamp, nat)>, dir: Option<Stamp>,
      store: Store)

  /** A point cloud sent on the connection number `session`. */
  datatype Send = Send(d: Stamp, n: nat, session: nat)

  /** The history of the run, which influences no actor: the point clouds sent; the client's disk as it would be if
      every file it has begun to store were complete; the files whose storing was interrupted when the client was
      killed, and that have not been stored since. */
  datatype History = History(sends: seq<Send>, meant: Store, wrecked: set<(Stamp, nat)>,
      wreckedMetas: set<(Stamp, Meta)>)

  datatype State = State(srv: Server, cl: Client, link: Link, orphans: set<Command>, session: nat, past: History)

  datatype Event =
    // logger
    | Launch(ts: Stamp, lidar: nat)
    | MakeDir
    | BeginFile(bytes: Bytes)
    | Write(bytes: Bytes)
    | FinishFile
    | LeaveLoop
    | BeginMeta(bytes: Bytes)
    | FinishMeta
    | LoggerExit
    | LoggerAbort
    // server
    | ScanRoot(oldest: Stamp)
    | ScanFiles(first: nat, last: nat)
    | Probe
    | ReadCloud
    | ServeRemoveFile
    | ServeSendFile
    | ServeRemoveDir
    | ServeError
    | RunOrphan(c: Command)
    // client
    | StartThread
    | Ask
    | GetReply
    | GetBody
    | StoreMore(upTo: nat)
    | StoreDone
    | Lose(status: int)
    | UserStop
    | Restart

  // ---------- logger steps ----------

  predicate Open(sv: Server, d: Stamp) {
    (sv.logger.Recording? || sv.logger.Closing?) && sv.logger.d == d
  }

  /** Point cloud n of directory d is the one being written. */
  predicate Busy(sv: Server, d: Stamp, n: nat) {
    sv.logger == Recording(d, n, true)
  }

  /** Metadata file m of directory d is the one being written. */
  predicate BusyMeta(sv: Server, d: Stamp, m: Meta) {
    sv.logger.Closing? && sv.logger.d == d && sv.logger.open && sv.logger.k < 4 && MetaAt(sv.logger.k) == m
  }

  predicate LoggerEnabled(sv: Server, e: Event) {
    match e
    case Launch(ts, lidar) => sv.logger.Off? && ts > sv.lastStamp && lidar < 2
    case MakeDir => sv.logger.Launching?
    case BeginFile(_) => sv.logger.Recording? && !sv.logger.open && sv.logger.d in sv.dirs && sv.logger.d in sv.logs
    case Write(_) =>
      && (sv.logger.Recording? || (sv.logger.Closing? && sv.logger.k < 4)) && sv.logger.open && sv.logger.d in sv.dirs
    case FinishFile => sv.logger.Recording? && sv.logger.open && sv.logger.d in sv.dirs && sv.logger.d in sv.logs
                       && sv.logger.next in sv.dirs[sv.logger.d].files.clouds
    case LeaveLoop => sv.logger.Recording? && !sv.logger.open
    case BeginMeta(_) => sv.logger.Closing? && sv.logger.k < 4 && !sv.logger.open && sv.logger.d in sv.dirs
    case FinishMeta => sv.logger.Closing? && sv.logger.k < 4 && sv.logger.open && sv.logger.d in sv.dirs
        && sv.logger.d in sv.logs
                       && MetaAt(sv.logger.k) in sv.dirs[sv.logger.d].files.metas
    case LoggerExit => sv.logger.Closing? && sv.logger.k == 4 && !sv.logger.open
    case LoggerAbort => sv.logger.Launching? || ((sv.logger.Recording? || sv.logger.Closing?) && !sv.logger.open)
    case _ => false
  }

  function PutCloud(dir: Dir, n: nat, bytes: Bytes): Dir {
    dir.(files := dir.files.(clouds := dir.files.clouds[n := bytes]))
  }

  function PutMeta(dir: Dir, m: Meta, bytes: Bytes): Dir {
    dir.(files := dir.files.(metas := dir.files.metas[m := bytes]))
  }

  function LoggerStep(sv: Server, e: Event): Server
    requires LoggerEnabled(sv, e)
  {
    match e
    case Launch(ts, lidar) => sv.(logger := Launching(ts, lidar), lastStamp := ts)
    case MakeDir =>
      var d := sv.logger.d;
      sv.(dirs := sv.dirs[d := Dir(sv.logger.lidar, EMPTY_FOLDER)],
          logs := sv.logs[d := Log(sv.logger.lidar, EMPTY_FOLDER, 0, 0)],
          logger := Recording(d, 0, false))
    case BeginFile(bytes) =>
      var d, n := sv.logger.d, sv.logger.next;
      sv.(dirs := sv.dirs[d := PutCloud(sv.dirs[d], n, bytes)],
          logs := sv.logs[d := sv.logs[d].(begun := n + 1)],
          logger := Recording(d, n, true))
    case Write(bytes) =>
      var d := sv.logger.d;
      sv.(dirs := sv.dirs[d := if sv.logger.Recording? then PutCloud(sv.dirs[d], sv.logger.next, bytes)
                               else PutMeta(sv.dirs[d], MetaAt(sv.logger.k), bytes)])
    case FinishFile =>
      var d, n := sv.logger.d, sv.logger.next;
      var log := sv.logs[d];
      sv.(logs := sv.logs[d := log.(done := log.done.(clouds := log.done.clouds[n := sv.dirs[d].files.clouds[n]]))],
          logger := Recording(d, n + 1, false))
    case LeaveLoop => sv.(logger := Closing(sv.logger.d, 0, false))
    case BeginMeta(bytes) =>
      var d, k := sv.logger.d, sv.logger.k;
      sv.(dirs := sv.dirs[d := PutMeta(sv.dirs[d], MetaAt(k), bytes)], logger := Closing(d, k, true))
    case FinishMeta =>
      var d, k := sv.logger.d, sv.logger.k;
      var m, log := MetaAt(k), sv.logs[d];
      sv.(logs := sv.logs[d := log.(done := log.done.(metas := log.done.metas[m := sv.dirs[d].files.metas[m]]))],
          logger := Closing(d, k + 1, false))
    case LoggerExit => sv.(logger := Off)
    case LoggerAbort => sv.(logger := Off)
  }

  // ---------- server steps ----------

  /** The effect of a command on the disk, and its reply, for the commands served in one step. */
  function ServeTree(t: Tree, c: Command): (Tree, Reply)
    requires !c.SendNext?
  {
    match c
    case RemoveFile(d, lidar, n) =>
      if HasCloud(t, d, lidar, n) then (WithoutCloud(t, d, n), FileRemoved) else (t, Error)
    case SendFile(d, lidar, m) =>
      var found := Resolve(t, d, lidar, m);
      (t, if found.Some? then Requested(found.value) else Error)
    case RemoveDir(d) =>
      if d in t then (t - {d}, DirRemoved) else (t, Error)
  }

  /** The same, with the removal entered in the history. */
  function Serve(sv: Server, c: Command): (Server, Reply)
    requires !c.SendNext?
  {
    var (t, r) := ServeTree(sv.dirs, c);
    var logs := if r.FileRemoved? && c.d in sv.logs then
                  sv.logs[c.d := sv.logs[c.d].(removed := sv.logs[c.d].removed + 1)]
                else sv.logs;
    (sv.(dirs := t, logs := logs), r)
  }

  /** What SendNext decides once it knows whether a logger process is alive. */
  function Decide(t: Task, alive: bool): Link
    requires t.Counted?
  {
    var minCount := if alive && t.dirCount == 1 then 2 else 1;
    if t.count >= minCount then Working(Chosen(t.d, t.lidar, t.first, t.last, t.count))
    else if alive && t.dirCount == 1 then Replied(Wait)
    else Replied(Empty(t.d, t.lidar))
  }

  predicate IsScan(clouds: map<nat, Bytes>, first: nat, last: nat) {
    clouds != map[] ==>
      && first in clouds && (forall n | n in clouds :: first <= n)
      && last in clouds && (forall n | n in clouds :: n <= last)
  }

  predicate ServerEnabled(s: State, e: Event) {
    match e
    case ScanRoot(oldest) => s.link == Sent(SendNext) && (s.srv.dirs == map[] || IsOldest(s.srv.dirs, oldest))
    case ScanFiles(first, last) =>
      && s.link.Working? && s.link.t.Rooted? && s.link.t.d in s.srv.dirs
      && IsScan(s.srv.dirs[s.link.t.d].files.clouds, first, last)
    case Probe => s.link.Working? && s.link.t.Counted?
    case ReadCloud => s.link.Working? && s.link.t.Chosen?
    case ServeRemoveFile => s.link.Sent? && s.link.c.RemoveFile?
    case ServeSendFile => s.link.Sent? && s.link.c.SendFile?
    case ServeRemoveDir => s.link.Sent? && s.link.c.RemoveDir?
    case ServeError => s.link.Sent? || s.link.Working?
    case RunOrphan(c) => c in s.orphans && !c.SendNext?
    case _ => false
  }

  function ServerStep(s: State, e: Event): State
    requires ServerEnabled(s, e)
  {
    match e
    case ScanRoot(oldest) =>
      s.(link := if s.srv.dirs == map[] then Replied(NoTr) else Working(Rooted(oldest, |s.srv.dirs|)))
    case ScanFiles(first, last) =>
      var t := s.link.t;
      var dir := s.srv.dirs[t.d];
      s.(link := Working(Counted(t.d, dir.lidar, t.dirCount, first, last, |dir.files.clouds|)))
    case Probe => s.(link := Decide(s.link.t, !s.srv.logger.Off?))
    case ReadCloud =>
      var t := s.link.t;
      if HasCloud(s.srv.dirs, t.d, t.lidar, t.first) then
        s.(link := Replied(Sending(t.d, t.lidar, t.first, t.last, t.count, s.srv.dirs[t.d].files.clouds[t.first])),
           past := s.past.(sends := s.past.sends + [Send(t.d, t.first, s.session)]))
      else s.(link := Replied(Error))
    case ServeRemoveFile => var (sv, r) := Serve(s.srv, s.link.c); s.(srv := sv, link := Replied(r))
    case ServeSendFile => var (sv, r) := Serve(s.srv, s.link.c); s.(srv := sv, link := Replied(r))
    case ServeRemoveDir => var (sv, r) := Serve(s.srv, s.link.c); s.(srv := sv, link := Replied(r))
    case ServeError => s.(link := Replied(Error))
    case RunOrphan(c) => s.(srv := Serve(s.srv, c).0)
  }

  // ---------- client steps ----------

  /** The thread ends with the given status and its connection is closed. */
  function Exit(s: State, status: int): State {
    s.(cl := s.cl.(pc := Ended, status := status), link := Quiet)
  }

  /** The test at the end of the transmission loop. */
  function Continue(s: State): State {
    if s.cl.running then s.(cl := s.cl.(pc := Top), link := Quiet) else Exit(s, 0)
  }

  /** The command of a dead connection may still be on its way. */
  function Orphaned(s: State): set<Command> {
    s.orphans + if s.link.Sent? then {s.link.c} else {}
  }

  predicate CanAsk(pc: Pc) {
    pc.Top? || pc.MustRemove? || (pc.AskMeta? && pc.k < 4) || pc.MustRemoveDir?
  }

  function NextCommand(pc: Pc): Command
    requires CanAsk(pc)
  {
    match pc
    case Top => SendNext
    case MustRemove(d, lidar, n) => RemoveFile(d, lidar, n)
    case AskMeta(_, from, lidar, k) => SendFile(from, lidar, MetaAt(k))
    case MustRemoveDir(folder) => RemoveDir(folder)
  }

  function Awaiting(pc: Pc): Pc
    requires CanAsk(pc)
  {
    match pc
    case Top => AwaitNext
    case MustRemove(d, lidar, n) => AwaitRemoved
    case AskMeta(folder, from, lidar, k) => AwaitMeta(folder, from, lidar, k)
    case MustRemoveDir(folder) => AwaitDirRemoved(folder)
  }

  function WriteCloud(st: Store, d: Stamp, n: nat, body: Bytes): Store
    requires Active(d) in st
  {
    st[Active(d) := st[Active(d)].(clouds := st[Active(d)].clouds[n := body])]
  }

  function WriteLocalMeta(st: Store, d: Stamp, m: Meta, body: Bytes): Store
    requires Active(d) in st
  {
    st[Active(d) := st[Active(d)].(metas := st[Active(d)].metas[m := body])]
  }

  /** rename() of a missing directory, or onto an existing one that is not empty, changes nothing. */
  function Rename(st: Store, from: Stamp, to: Stamp): Store {
    if Active(from) in st && Final(to) !in st then (st - {Active(from)})[Final(to) := st[Active(from)]] else st
  }

  function WithDir(st: Store, d: Stamp): Store {
    if Active(d) in st then st else st[Active(d) := EMPTY_FOLDER]
  }

  function OnNextReply(s: State, r: Reply): State {
    match r
    case NoTr => Exit(s, 0)
    case Error => Exit(s, -1)
    case Sending(d, lidar, n, _, _, _) =>
      s.(cl := s.cl.(pc := AwaitBody(d, lidar, n), tr := Some((d, lidar)), dir := Some(d),
          store := WithDir(s.cl.store, d)),
         past := s.past.(meant := WithDir(s.past.meant, d)))
    case Empty(d, _) =>
      if s.cl.tr.None? then Exit(s, -1)
      else s.(cl := s.cl.(pc := AskMeta(d, s.cl.tr.value.0, s.cl.tr.value.1, 0)), link := Quiet)
    case _ => Continue(s)
  }

  predicate HasDir(s: State) {
    s.cl.dir.Some? && Active(s.cl.dir.value) in s.cl.store && Active(s.cl.dir.value) in s.past.meant
  }

  /** Opening a local file empties the copy that was there. */
  function OnMetaReply(s: State, r: Reply): State
    requires s.cl.pc.AwaitMeta? && s.cl.pc.k < 4
  {
    var pc := s.cl.pc;
    if r.Requested? && HasDir(s) then
      var d, m := s.cl.dir.value, MetaAt(pc.k);
      s.(cl := s.cl.(pc := StoringMeta(pc.folder, pc.from, pc.lidar, pc.k, r.body, 0),
                     store := WriteLocalMeta(s.cl.store, d, m, [])),
         link := Quiet,
         past := s.past.(meant := WriteLocalMeta(s.past.meant, d, m, r.body),
             wreckedMetas := s.past.wreckedMetas - {(d, m)}))
    else Exit(s, -1)
  }

  function OnBody(s: State, body: Bytes): State
    requires s.cl.pc.AwaitBody? && Active(s.cl.pc.d) in s.cl.store && Active(s.cl.pc.d) in s.past.meant
  {
    var pc := s.cl.pc;
    s.(cl := s.cl.(pc := Storing(pc.d, pc.lidar, pc.n, body, 0), store := WriteCloud(s.cl.store, pc.d, pc.n, [])),
       link := Quiet,
       past := s.past.(meant := WriteCloud(s.past.meant, pc.d, pc.n, body), wrecked := s.past.wrecked - {(pc.d, pc.n)}))
  }

  /** A file has been opened for writing and not been closed yet. */
  predicate IsStoring(pc: Pc) {
    pc.Storing? || (pc.StoringMeta? && pc.k < 4)
  }

  function StoreUpTo(s: State, upTo: nat): State
    requires IsStoring(s.cl.pc) && upTo <= |s.cl.pc.body| && HasDir(s)
  {
    var pc, d := s.cl.pc, s.cl.dir.value;
    s.(cl := s.cl.(pc := pc.(written := upTo),
                   store := if pc.Storing? then WriteCloud(s.cl.store, d, pc.n, pc.body[..upTo])
                            else WriteLocalMeta(s.cl.store, d, MetaAt(pc.k), pc.body[..upTo])))
  }

  function AfterStore(pc: Pc): Pc
    requires IsStoring(pc)
  {
    if pc.Storing? then MustRemove(pc.d, pc.lidar, pc.n)
    else if pc.k == 3 then MustRemoveDir(pc.folder)
    else AskMeta(pc.folder, pc.from, pc.lidar, pc.k + 1)
  }

  /** What is left incomplete when the client is killed now. */
  function Wrecks(cl: Client): set<(Stamp, nat)> {
    if cl.pc.Storing? && cl.pc.written < |cl.pc.body| then {(cl.pc.d, cl.pc.n)} else {}
  }

  function MetaWrecks(cl: Client): set<(Stamp, Meta)> {
    if cl.pc.StoringMeta? && cl.pc.k < 4 && cl.pc.written < |cl.pc.body| && cl.dir.Some? then
      {(cl.dir.value, MetaAt(cl.pc.k))}
    else {}
  }

  function OnDirReply(s: State, r: Reply): State
    requires s.cl.pc.AwaitDirRemoved?
  {
    if r.Error? then Exit(s, -1)
    else if s.cl.dir.None? then Continue(s)
    else Continue(s.(cl := s.cl.(store := Rename(s.cl.store, s.cl.dir.value, s.cl.pc.folder)),
                     past := s.past.(meant := Rename(s.past.meant, s.cl.dir.value, s.cl.pc.folder))))
  }

  /** The thread is about to receive a file; then a frame that is cut within its end mark ends it with -1. */
  predicate AwaitsFile(s: State) {
    s.cl.pc.AwaitBody? || (s.cl.pc.AwaitMeta? && s.link.Replied? && s.link.r.Requested?)
  }

  predicate ClientEnabled(s: State, e: Event) {
    match e
    case StartThread => s.cl.pc.Ended? && (s.cl.status == 0 || s.cl.status == -2)
    case Ask => CanAsk(s.cl.pc)
    case GetReply =>
      && s.link.Replied?
      && (s.cl.pc.AwaitNext? || s.cl.pc.AwaitRemoved? || (s.cl.pc.AwaitMeta? && s.cl.pc.k < 4)
         || s.cl.pc.AwaitDirRemoved?)
    case GetBody =>
      && s.cl.pc.AwaitBody? && s.link.Replied? && s.link.r.Sending?
      && Active(s.cl.pc.d) in s.cl.store && Active(s.cl.pc.d) in s.past.meant
    case StoreMore(upTo) => IsStoring(s.cl.pc) && s.cl.pc.written < upTo <= |s.cl.pc.body| && HasDir(s)
    case StoreDone => IsStoring(s.cl.pc) && s.cl.pc.written == |s.cl.pc.body|
    case Lose(status) =>
      !s.cl.pc.Ended? && !IsStoring(s.cl.pc) && (status == -2 || (status == -1 && AwaitsFile(s)))
    case UserStop => true
    case Restart => true
    case _ => false
  }

  function ClientStep(s: State, e: Event): State
    requires ClientEnabled(s, e)
  {
    match e
    case StartThread => s.(cl := s.cl.(pc := Top, status := 1, running := true, dir := None), link := Quiet,
        session := s.session + 1)
    case Ask => s.(cl := s.cl.(pc := Awaiting(s.cl.pc)), link := Sent(NextCommand(s.cl.pc)))
    case GetReply =>
      if s.cl.pc.AwaitNext? then OnNextReply(s, s.link.r)
      else if s.cl.pc.AwaitRemoved? then (if s.link.r.Error? then Exit(s, -1) else Continue(s))
      else if s.cl.pc.AwaitMeta? then OnMetaReply(s, s.link.r)
      else OnDirReply(s, s.link.r)
    case GetBody => OnBody(s, s.link.r.body)
    case StoreMore(upTo) => StoreUpTo(s, upTo)
    case StoreDone => s.(cl := s.cl.(pc := AfterStore(s.cl.pc)))
    case Lose(status) => Exit(s, status).(orphans := Orphaned(s))
    case UserStop => s.(cl := s.cl.(running := false))
    case Restart =>
      s.(cl := Client(Ended, 0, false, None, None, s.cl.store), link := Quiet, orphans := Orphaned(s),
         past := s.past.(wrecked := s.past.wrecked + Wrecks(s.cl),
             wreckedMetas := s.past.wreckedMetas + MetaWrecks(s.cl)))
  }

  // ---------- runs ----------

  predicate Enabled(s: State, e: Event) {
    LoggerEnabled(s.srv, e) || ServerEnabled(s, e) || ClientEnabled(s, e)
  }

  function Step(s: State, e: Event): State
    requires Enabled(s, e)
  {
    if LoggerEnabled(s.srv, e) then s.(srv := LoggerStep(s.srv, e))
    else if ServerEnabled(s, e) then ServerStep(s, e)
    else ClientStep(s, e)
  }

  function Initial(): State {
    State(Server(map[], map[], Off, 0), Client(Ended, 0, false, None, None, map[]), Quiet, {}, 0,
        History([], map[], {}, {}))
  }

  /** The states a run goes through: each is the previous one after an enabled step. */
  predicate IsRun(run: seq<State>, events: seq<Event>) {
    && |run| == |events| + 1
    && run[0] == Initial()
    && forall i | 0 <= i < |events| :: Enabled(run[i], events[i]) && run[i + 1] == Step(run[i], events[i])
  }

  lemma OneMore(run: seq<State>, events: seq<Event>, e: Event, s: State)
    requires IsRun(run, events) && Enabled(run[|events|], e) && s == Step(run[|events|], e)
    ensures IsRun(run + [s], events + [e])
  {
    hide Enabled, Step;
    var run', events' := run + [s], events + [e];
    forall i | 0 <= i < |events'| ensures Enabled(run'[i], events'[i]) && run'[i + 1] == Step(run'[i], events'[i]) {
      if i < |events| {
        assert run'[i] == run[i] && events'[i] == events[i] && run'[i + 1] == run[i + 1];
      }
    }
  }

  /** Taking these steps, one after the other, leads from a to b. */
  predicate Leads(a: State, events: seq<Event>, b: State)
    decreases |events|
  {
    if events == [] then a == b else Enabled(a, events[0]) && Leads(Step(a, events[0]), events[1..], b)
  }

  ghost predicate Reach(a: State, b: State) {
    exists events :: Leads(a, events, b)
  }

  lemma ReachSelf(a: State)
    ensures Reach(a, a)
  {
    assert Leads(a, [], a);
  }

  lemma {:induction false} LeadsOn(a: State, es: seq<Event>, b: State, fs: seq<Event>, c: State)
    requires Leads(a, es, b) && Leads(b, fs, c)
    ensures Leads(a, es + fs, c)
    decreases |es|
  {
    hide Enabled, Step;
    if es == [] {
      assert es + fs == fs;
    } else {
      LeadsOn(Step(a, es[0]), es[1..], b, fs, c);
      assert (es + fs)[1..] == es[1..] + fs;
    }
  }

  lemma ReachOn(a: State, b: State, c: State)
    requires Reach(a, b) && Reach(b, c)
    ensures Reach(a, c)
  {
    var es :| Leads(a, es, b);
    var fs :| Leads(b, fs, c);
    LeadsOn(a, es, b, fs, c);
  }

  lemma ReachStep(a: State, b: State, e: Event)
    requires Reach(a, b) && Enabled(b, e)
    ensures Reach(a, Step(b, e))
  {
    hide Enabled, Step;
    assert Leads(Step(b, e), [e][1..], Step(b, e));
    assert Leads(b, [e], Step(b, e));
    ReachOn(a, b, Step(b, e));
  }

  /** A run can be continued with any steps that are enabled one after the other. */
  lemma {:induction false} RunGoesOn(run: seq<State>, events: seq<Event>, more: seq<Event>, b: State)
    returns (run': seq<State>)
    requires IsRun(run, events) && Leads(run[|events|], more, b)
    ensures IsRun(run', events + more) && run'[|events + more|] == b && run <= run'
    decreases |more|
  {
    hide Enabled, Step;
    if more == [] {
      assert events + more == events;
      run' := run;
    } else {
      var next := Step(run[|events|], more[0]);
      run' := RunGoesOn(run + [next], events + [more[0]], more[1..], b);
      assert events + more == events + [more[0]] + more[1..];
    }
  }

  /** Whatever can be reached from a state of a run belongs to a run that begins in the same way. */
  lemma RunTo(run: seq<State>, events: seq<Event>, i: nat, b: State) returns (run': seq<State>, events': seq<Event>)
    requires IsRun(run, events) && i < |run| && Reach(run[i], b)
    ensures IsRun(run', events') && i <= |events'| && run'[|events'|] == b
    ensures run[..i + 1] <= run' && events[..i] <= events' && run'[i] == run[i]
  {
    hide Enabled, Step, Leads;
    var more :| Leads(run[i], more, b);
    assert IsRun(run[..i + 1], events[..i]);
    run' := RunGoesOn(run[..i + 1], events[..i], more, b);
    events' := events[..i] + more;
  }
}
