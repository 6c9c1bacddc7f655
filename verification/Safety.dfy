/**
 Safety of the drain protocol, over every run: every finished file is on the server or among those that the client has
 begun to store, a directory is removed only when all its files are, and a file being written is never sent. A store
 is here the client's disk as it would be with these files complete; what of it is on the disk is in Writes.
 */
module Safety {
  import opened Basics
  import opened Archive
  import opened Protocol

  // ---------- the disk and the logger ----------

  ghost predicate LogOk(sv: Server, d: Stamp)
    requires d in sv.logs
  {
    var log := sv.logs[d];
    && d <= sv.lastStamp
    && log.removed <= log.begun
    && (forall n: nat :: n in log.done.clouds <==> n < log.begun && !Busy(sv, d, n))
    && (Open(sv, d) ==> log.begun == 0 || log.removed < log.begun)
  }

  /** The point clouds left in a directory are those numbered from `removed` up to `begun`, and they and the metadata
      files are as the logger left them, but for the one being written. */
  ghost predicate DirOk(sv: Server, d: Stamp)
    requires d in sv.dirs && d in sv.logs
  {
    && sv.dirs[d].lidar == sv.logs[d].lidar
    && CloudsOk(sv.logs[d], sv.dirs[d].files.clouds)
    && MetasOk(sv, sv.logs[d].done.metas, sv.dirs[d].files.metas, d)
  }

  ghost predicate CloudsOk(log: Log, clouds: map<nat, Bytes>) {
    && (forall n: nat :: n in clouds <==> log.removed <= n < log.begun)
    && (forall n: nat | n in clouds && n in log.done.clouds :: clouds[n] == log.done.clouds[n])
  }

  ghost predicate MetasOk(sv: Server, done: map<Meta, Bytes>, metas: map<Meta, Bytes>, d: Stamp) {
    && (forall m | m in done :: m in metas && metas[m] == done[m])
    && (forall m | m in metas :: m in done || BusyMeta(sv, d, m))
  }

  ghost predicate LoggerOk(sv: Server) {
    match sv.logger
    case Off => true
    case Launching(d, _) => d == sv.lastStamp && d !in sv.logs
    case Recording(d, next, open) =>
      && d == sv.lastStamp && d in sv.dirs && d in sv.logs
      && sv.logs[d].begun == next + (if open then 1 else 0)
      && sv.logs[d].done.metas == map[]
    case Closing(d, k, open) =>
      && d == sv.lastStamp && d in sv.dirs && d in sv.logs && k <= 4
      && (forall m :: m in sv.logs[d].done.metas <==> MetaRank(m) < k)
      && (open ==> k < 4 && MetaAt(k) in sv.dirs[d].files.metas)
  }

  ghost predicate ServerOk(sv: Server) {
    && (forall d | d in sv.logs :: LogOk(sv, d))
    && (forall d | d in sv.dirs :: d in sv.logs && DirOk(sv, d))
    && LoggerOk(sv)
  }

  // ---------- the copies that the client is meant to hold ----------

  ghost predicate HasCloudCopy(st: Store, l: LocalDir, n: nat, body: Bytes) {
    l in st && n in st[l].clouds && st[l].clouds[n] == body
  }

  ghost predicate HasMetaCopy(st: Store, l: LocalDir, m: Meta, body: Bytes) {
    l in st && m in st[l].metas && st[l].metas[m] == body
  }

  /** The client has point cloud n of session d with this content. */
  ghost predicate HeldCloud(st: Store, d: Stamp, n: nat, body: Bytes) {
    HasCloudCopy(st, Active(d), n, body) || HasCloudCopy(st, Final(d), n, body)
  }

  ghost predicate HeldMeta(st: Store, d: Stamp, m: Meta, body: Bytes) {
    HasMetaCopy(st, Active(d), m, body) || HasMetaCopy(st, Final(d), m, body)
  }

  ghost predicate CloudOnServer(sv: Server, d: Stamp, n: nat, body: Bytes) {
    d in sv.dirs && n in sv.dirs[d].files.clouds && sv.dirs[d].files.clouds[n] == body
  }

  ghost predicate MetaOnServer(sv: Server, d: Stamp, m: Meta, body: Bytes) {
    d in sv.dirs && m in sv.dirs[d].files.metas && sv.dirs[d].files.metas[m] == body
  }

  /** Every file the logger ever finished is still on the server or held by the client, unchanged. */
  ghost predicate Conserved(sv: Server, st: Store) {
    && (forall d, n: nat | d in sv.logs && n in sv.logs[d].done.clouds ::
          CloudOnServer(sv, d, n, sv.logs[d].done.clouds[n]) || HeldCloud(st, d, n, sv.logs[d].done.clouds[n]))
    && (forall d, m | d in sv.logs && m in sv.logs[d].done.metas ::
          MetaOnServer(sv, d, m, sv.logs[d].done.metas[m]) || HeldMeta(st, d, m, sv.logs[d].done.metas[m]))
  }

  ghost predicate Complete(metas: map<Meta, Bytes>) {
    forall m: Meta :: m in metas
  }

  /** Nothing the client stores differs from what the logger wrote, and a directory that has lost its "-active" suffix
      is a complete copy of a session that is closed and gone from the server. */
  ghost predicate CopyOk(sv: Server, st: Store, l: LocalDir)
    requires l in st
  {
    && l.d in sv.logs
    && (forall n: nat | n in st[l].clouds ::
         n in sv.logs[l.d].done.clouds && st[l].clouds[n] == sv.logs[l.d].done.clouds[n])
    && (forall m | m in st[l].metas :: m in sv.logs[l.d].done.metas && st[l].metas[m] == sv.logs[l.d].done.metas[m])
    && (l.Final? ==> l.d !in sv.dirs && !Open(sv, l.d) && st[l] == sv.logs[l.d].done && Complete(st[l].metas))
  }

  ghost predicate StoreOk(sv: Server, st: Store) {
    forall l | l in st :: CopyOk(sv, st, l)
  }

  // ---------- facts that stay true once they are true ----------

  /** Point cloud n of d is finished and will stay so, and no smaller one is left. */
  ghost predicate Sendable(sv: Server, d: Stamp, n: nat) {
    && d in sv.logs
    && n <= sv.logs[d].removed && n < sv.logs[d].begun
    && (Open(sv, d) ==> n + 1 < sv.logs[d].begun)
  }

  ghost predicate Removable(sv: Server, st: Store, d: Stamp, n: nat) {
    && Sendable(sv, d, n)
    && n in sv.logs[d].done.clouds
    && HeldCloud(st, d, n, sv.logs[d].done.clouds[n])
  }

  /** Session d is over and all its point clouds have been removed. */
  ghost predicate Drained(sv: Server, d: Stamp) {
    d in sv.logs && !Open(sv, d) && (d in sv.dirs ==> sv.logs[d].removed == sv.logs[d].begun)
  }

  ghost predicate DirRemovable(sv: Server, st: Store, d: Stamp) {
    && Drained(sv, d)
    && (forall m: Meta :: m in sv.logs[d].done.metas && HeldMeta(st, d, m, sv.logs[d].done.metas[m]))
  }

  /** No directory on the server is older than d. */
  ghost predicate First(sv: Server, d: Stamp) {
    d in sv.logs && forall e | e in sv.dirs :: d <= e
  }

  ghost predicate CommandOk(sv: Server, st: Store, c: Command) {
    match c
    case RemoveFile(d, _, n) => Removable(sv, st, d, n)
    case RemoveDir(d) => DirRemovable(sv, st, d)
    case _ => true
  }

  // ---------- the thread and its connection ----------

  ghost predicate TrOk(sv: Server, tr: Option<(Stamp, nat)>) {
    tr.Some? ==> First(sv, tr.value.0) && sv.logs[tr.value.0].begun > 0 && sv.logs[tr.value.0].lidar == tr.value.1
  }

  /** The last session sent is d, or its directory is gone. */
  ghost predicate TrGone(sv: Server, tr: Option<(Stamp, nat)>, d: Stamp) {
    tr.Some? && tr.value.0 != d ==> tr.value.0 !in sv.dirs
  }

  /** An EMPTY reply about d does the right thing: if d was the last session sent, it really is drained. */
  ghost predicate EmptyOk(sv: Server, tr: Option<(Stamp, nat)>, d: Stamp) {
    && d in sv.logs
    && TrGone(sv, tr, d)
    && (tr.Some? && tr.value.0 == d ==> Drained(sv, d))
  }

  ghost predicate TaskOk(sv: Server, tr: Option<(Stamp, nat)>, t: Task) {
    && First(sv, t.d)
    && match t
       case Rooted(d, dirCount) =>
         TrGone(sv, tr, d) && (dirCount != 1 ==> !Open(sv, d))
       case Counted(d, lidar, dirCount, first, last, count) =>
         && TrGone(sv, tr, d) && (dirCount != 1 ==> !Open(sv, d))
         && lidar == sv.logs[d].lidar
         && (count >= 1 ==> first <= sv.logs[d].removed && first < sv.logs[d].begun)
         && (count >= 2 ==> first + 1 < sv.logs[d].begun)
         && (count == 0 ==> EmptyOk(sv, tr, d))
       case Chosen(d, lidar, first, _, _) =>
         lidar == sv.logs[d].lidar && Sendable(sv, d, first)
  }

  ghost predicate SendingOk(sv: Server, r: Reply)
    requires r.Sending?
  {
    && First(sv, r.d) && Sendable(sv, r.d, r.n)
    && r.lidar == sv.logs[r.d].lidar
    && r.n in sv.logs[r.d].done.clouds && r.body == sv.logs[r.d].done.clouds[r.n]
  }

  ghost predicate MetaOk(s: State, folder: Stamp, from: Stamp, lidar: nat, k: nat) {
    && k < 4
    && s.cl.tr == Some((from, lidar))
    && EmptyOk(s.srv, s.cl.tr, folder)
    && (k > 0 ==> from == folder && s.cl.dir == Some(folder))
    && (forall m: Meta | MetaRank(m) < k ::
          m in s.srv.logs[folder].done.metas && HeldMeta(s.past.meant, folder, m, s.srv.logs[folder].done.metas[m]))
  }

  ghost predicate ThreadOk(s: State) {
    var sv, st, tr, link := s.srv, s.past.meant, s.cl.tr, s.link;
    match s.cl.pc
    case Ended => link.Quiet?
    case Top => link.Quiet?
    case AwaitNext =>
      (match link
       case Quiet => false
       case Sent(c) => c == SendNext
       case Working(t) => TaskOk(sv, tr, t)
       case Replied(r) => (r.Sending? ==> SendingOk(sv, r)) && (r.Empty? ==> EmptyOk(sv, tr, r.d)))
    case AwaitBody(d, lidar, n) =>
      && link.Replied? && link.r.Sending? && SendingOk(sv, link.r)
      && link.r.d == d && link.r.lidar == lidar && link.r.n == n
      && tr == Some((d, lidar)) && s.cl.dir == Some(d) && Active(d) in st
    case Storing(d, lidar, n, body, written) =>
      && link.Quiet? && Removable(sv, st, d, n) && s.cl.dir == Some(d) && Active(d) in st
      && body == sv.logs[d].done.clouds[n] && written <= |body|
    case MustRemove(d, lidar, n) => link.Quiet? && Removable(sv, st, d, n)
    case AwaitRemoved => (link.Sent? && link.c.RemoveFile? && CommandOk(sv, st, link.c)) || link.Replied?
    case AskMeta(folder, from, lidar, k) => link.Quiet? && MetaOk(s, folder, from, lidar, k)
    case AwaitMeta(folder, from, lidar, k) =>
      && MetaOk(s, folder, from, lidar, k)
      && ((link.Sent? && link.c == SendFile(from, lidar, MetaAt(k)))
          || (link.Replied? && (link.r.Requested? ==>
                && from == folder && MetaAt(k) in sv.logs[folder].done.metas
                && link.r.body == sv.logs[folder].done.metas[MetaAt(k)])))
    case StoringMeta(folder, from, lidar, k, body, written) =>
      && link.Quiet? && MetaOk(s, folder, from, lidar, k) && from == folder && s.cl.dir == Some(folder)
         && Active(folder) in st
      && MetaAt(k) in sv.logs[folder].done.metas && body == sv.logs[folder].done.metas[MetaAt(k)] && written <= |body|
      && HeldMeta(st, folder, MetaAt(k), body)
    case MustRemoveDir(folder) => link.Quiet? && DirRemovable(sv, st, folder) && s.cl.dir == Some(folder)
    case AwaitDirRemoved(folder) =>
      && DirRemovable(sv, st, folder) && s.cl.dir == Some(folder)
      && ((link.Sent? && link.c == RemoveDir(folder))
          || (link.Replied? && (!link.r.Error? ==> folder !in sv.dirs)))
  }

  /** Within a thread, the local directory in use is that of the last session sent. */
  ghost predicate DirIsTr(cl: Client) {
    cl.dir.Some? ==> cl.tr.Some? && cl.tr.value.0 == cl.dir.value
  }

  ghost predicate DataOk(sv: Server, st: Store, orphans: set<Command>) {
    && ServerOk(sv)
    && Conserved(sv, st)
    && StoreOk(sv, st)
    && (forall c | c in orphans :: CommandOk(sv, st, c))
  }

  /** The invariant of every run. */
  ghost predicate Inv(s: State) {
    && DataOk(s.srv, s.past.meant, s.orphans)
    && TrOk(s.srv, s.cl.tr)
    && DirIsTr(s.cl)
    && ThreadOk(s)
  }

  // ---------- what later states keep ----------

  /** One session's log after some steps: it only grows, and not at all once the session is closed. */
  ghost predicate LogKept(a: Server, b: Server, d: Stamp)
    requires d in a.logs
  {
    && d in b.logs
    && a.logs[d].lidar == b.logs[d].lidar
    && a.logs[d].begun <= b.logs[d].begun && a.logs[d].removed <= b.logs[d].removed
    && (forall n | n in a.logs[d].done.clouds ::
         n in b.logs[d].done.clouds && a.logs[d].done.clouds[n] == b.logs[d].done.clouds[n])
    && (forall m | m in a.logs[d].done.metas ::
         m in b.logs[d].done.metas && a.logs[d].done.metas[m] == b.logs[d].done.metas[m])
    && (d in b.dirs ==> d in a.dirs)
    && (!Open(a, d) ==> !Open(b, d) && a.logs[d].begun == b.logs[d].begun && a.logs[d].done == b.logs[d].done)
  }

  ghost predicate Later(a: Server, b: Server) {
    && a.lastStamp <= b.lastStamp
    && (forall d | d in a.logs :: LogKept(a, b, d))
    && (forall d | d in b.dirs && d !in a.dirs :: d == a.lastStamp && d !in a.logs)
  }

  /** The client never loses a copy. */
  ghost predicate StoreKept(a: Store, b: Store) {
    && (forall d, n, body :: HeldCloud(a, d, n, body) ==> HeldCloud(b, d, n, body))
    && (forall d, m, body :: HeldMeta(a, d, m, body) ==> HeldMeta(b, d, m, body))
  }

  lemma CommandKept(a: Server, b: Server, sa: Store, sb: Store, c: Command)
    requires ServerOk(a) && ServerOk(b) && Later(a, b) && StoreKept(sa, sb) && CommandOk(a, sa, c)
    ensures CommandOk(b, sb, c)
  {
  }

  lemma FirstKept(a: Server, b: Server, d: Stamp)
    requires ServerOk(a) && Later(a, b) && First(a, d)
    ensures First(b, d)
  {
  }

  lemma TrKept(a: Server, b: Server, tr: Option<(Stamp, nat)>, d: Stamp)
    requires ServerOk(a) && ServerOk(b) && Later(a, b) && TrOk(a, tr)
    ensures TrOk(b, tr)
    ensures TrGone(a, tr, d) ==> TrGone(b, tr, d)
    ensures EmptyOk(a, tr, d) ==> EmptyOk(b, tr, d)
  {
  }

  lemma TaskKept(a: Server, b: Server, tr: Option<(Stamp, nat)>, t: Task)
    requires ServerOk(a) && ServerOk(b) && Later(a, b) && TrOk(a, tr) && TaskOk(a, tr, t)
    ensures TaskOk(b, tr, t)
  {
  }

  lemma SendingKept(a: Server, b: Server, r: Reply)
    requires ServerOk(a) && Later(a, b) && r.Sending? && SendingOk(a, r)
    ensures SendingOk(b, r)
  {
  }

  lemma NextKept(s: State, sv: Server)
    requires Inv(s) && ServerOk(sv) && Later(s.srv, sv) && s.cl.pc.AwaitNext?
    ensures ThreadOk(s.(srv := sv))
  {
    hide DataOk, Later;
    var a, tr := s.srv, s.cl.tr;
    InvMeansServerOk(s);
    match s.link
    case Working(t) => TaskKept(a, sv, tr, t);
    case Replied(r) =>
      if r.Sending? {
        SendingKept(a, sv, r);
      }
      if r.Empty? {
        TrKept(a, sv, tr, r.d);
      }
    case _ =>
  }

  lemma CloudKept(s: State, sv: Server)
    requires Inv(s) && ServerOk(sv) && Later(s.srv, sv)
    requires s.cl.pc.AwaitBody? || s.cl.pc.Storing? || s.cl.pc.MustRemove? || s.cl.pc.AwaitRemoved?
    ensures ThreadOk(s.(srv := sv))
  {
    hide Conserved, StoreOk;
    var a, st := s.srv, s.past.meant;
    match s.cl.pc
    case AwaitBody(_, _, _) => SendingKept(a, sv, s.link.r);
    case Storing(d, lidar, n, _, _) => CommandKept(a, sv, st, st, RemoveFile(d, lidar, n)); assert LogKept(a, sv, d);
    case MustRemove(d, lidar, n) => CommandKept(a, sv, st, st, RemoveFile(d, lidar, n));
    case AwaitRemoved =>
      if s.link.Sent? {
        CommandKept(a, sv, st, st, s.link.c);
      }
  }

  lemma FolderKept(s: State, sv: Server)
    requires Inv(s) && ServerOk(sv) && Later(s.srv, sv)
    requires s.cl.pc.AskMeta? || s.cl.pc.AwaitMeta? || s.cl.pc.StoringMeta?
    ensures ThreadOk(s.(srv := sv))
  {
    hide Conserved, StoreOk;
    TrKept(s.srv, sv, s.cl.tr, s.cl.pc.folder);
    assert LogKept(s.srv, sv, s.cl.pc.folder);
  }

  lemma RemovalKept(s: State, sv: Server)
    requires Inv(s) && ServerOk(sv) && Later(s.srv, sv) && (s.cl.pc.MustRemoveDir? || s.cl.pc.AwaitDirRemoved?)
    ensures ThreadOk(s.(srv := sv))
  {
    hide Conserved, StoreOk;
    CommandKept(s.srv, sv, s.past.meant, s.past.meant, RemoveDir(s.cl.pc.folder));
    assert LogKept(s.srv, sv, s.cl.pc.folder);
  }

  lemma InvMeansServerOk(s: State)
    requires Inv(s)
    ensures ServerOk(s.srv)
  {
  }

  /** A step of another actor leaves the thread's knowledge valid. */
  lemma ThreadKept(s: State, sv: Server)
    requires Inv(s) && ServerOk(sv) && Later(s.srv, sv)
    ensures ThreadOk(s.(srv := sv))
  {
    hide ServerOk, Later, DataOk;
    if s.cl.pc.AwaitNext? {
      NextKept(s, sv);
    } else if s.cl.pc.AwaitBody? || s.cl.pc.Storing? || s.cl.pc.MustRemove? || s.cl.pc.AwaitRemoved? {
      CloudKept(s, sv);
    } else if s.cl.pc.MustRemoveDir? || s.cl.pc.AwaitDirRemoved? {
      RemovalKept(s, sv);
    } else if s.cl.pc.AskMeta? || s.cl.pc.AwaitMeta? || s.cl.pc.StoringMeta? {
      FolderKept(s, sv);
    }
  }

  lemma StoreOkKept(a: Server, b: Server, st: Store)
    requires ServerOk(a) && Later(a, b) && StoreOk(a, st)
    ensures StoreOk(b, st)
  {
  }

  /** The server may move to a later state if it conserves the files. */
  lemma InvAfterServer(s: State, sv: Server)
    requires Inv(s) && ServerOk(sv) && Later(s.srv, sv) && Conserved(sv, s.past.meant)
    ensures Inv(s.(srv := sv))
  {
    ThreadKept(s, sv);
    StoreOkKept(s.srv, sv, s.past.meant);
    TrKept(s.srv, sv, s.cl.tr, 0);
    forall c | c in s.orphans ensures CommandOk(sv, s.past.meant, c) {
      CommandKept(s.srv, sv, s.past.meant, s.past.meant, c);
    }
  }

  // ---------- logger steps ----------

  /** Every finished file that was on the server is still there. */
  ghost predicate FilesStay(a: Server, b: Server) {
    && (forall d, n: nat |
          d in b.logs && n in b.logs[d].done.clouds && !CloudOnServer(b, d, n, b.logs[d].done.clouds[n]) ::
          d in a.logs && n in a.logs[d].done.clouds && a.logs[d].done.clouds[n] == b.logs[d].done.clouds[n]
          && !CloudOnServer(a, d, n, b.logs[d].done.clouds[n]))
    && (forall d, m | d in b.logs && m in b.logs[d].done.metas && !MetaOnServer(b, d, m, b.logs[d].done.metas[m]) ::
          d in a.logs && m in a.logs[d].done.metas && a.logs[d].done.metas[m] == b.logs[d].done.metas[m]
          && !MetaOnServer(a, d, m, b.logs[d].done.metas[m]))
  }

  /** A logger step ends in a good, later state and keeps every finished file where it was. */
  ghost predicate GoodMove(a: Server, b: Server) {
    ServerOk(b) && Later(a, b) && FilesStay(a, b)
  }

  lemma LogOkAfterLogger(sv: Server, e: Event, d: Stamp)
    requires ServerOk(sv) && LoggerEnabled(sv, e) && d in LoggerStep(sv, e).logs
    ensures LogOk(LoggerStep(sv, e), d)
  {
    assert d in sv.logs ==> LogOk(sv, d);
  }

  lemma CloudsOkAfterLogger(sv: Server, e: Event, d: Stamp)
    requires ServerOk(sv) && LoggerEnabled(sv, e) && d in LoggerStep(sv, e).dirs
    ensures var b := LoggerStep(sv, e);
            d in b.logs && b.dirs[d].lidar == b.logs[d].lidar && CloudsOk(b.logs[d], b.dirs[d].files.clouds)
  {
    hide MetasOk;
    assert d in sv.dirs ==> DirOk(sv, d) && LogOk(sv, d);
  }

  lemma WellFormedAt(sv: Server, d: Stamp)
    requires ServerOk(sv) && d in sv.dirs
    ensures d in sv.logs && DirOk(sv, d) && LogOk(sv, d)
  {
  }

  lemma MetasOkAfterLogger(sv: Server, e: Event, d: Stamp)
    requires ServerOk(sv) && LoggerEnabled(sv, e) && d in LoggerStep(sv, e).dirs && d in LoggerStep(sv, e).logs
    ensures var b := LoggerStep(sv, e); MetasOk(b, b.logs[d].done.metas, b.dirs[d].files.metas, d)
  {
    hide ServerOk, CloudsOk, LogOk;
    LoggerIsOk(sv);
    if d in sv.dirs {
      WellFormedAt(sv, d);
    }
  }

  lemma LoggerIsOk(sv: Server)
    requires ServerOk(sv)
    ensures LoggerOk(sv)
  {
  }

  lemma LoggerOkAfterLogger(sv: Server, e: Event)
    requires ServerOk(sv) && LoggerEnabled(sv, e)
    ensures LoggerOk(LoggerStep(sv, e))
  {
  }

  lemma LogKeptAfterLogger(sv: Server, e: Event, d: Stamp)
    requires ServerOk(sv) && LoggerEnabled(sv, e) && d in sv.logs
    ensures LogKept(sv, LoggerStep(sv, e), d)
  {
    assert LogOk(sv, d);
  }

  lemma NewDirAfterLogger(sv: Server, e: Event)
    requires ServerOk(sv) && LoggerEnabled(sv, e)
    ensures var b := LoggerStep(sv, e);
            sv.lastStamp <= b.lastStamp && forall d | d in b.dirs && d !in sv.dirs :: d == sv.lastStamp && d !in sv.logs
  {
  }

  lemma CloudStays(sv: Server, e: Event, d: Stamp, n: nat)
    requires ServerOk(sv) && LoggerEnabled(sv, e) && d in LoggerStep(sv, e).logs
             && n in LoggerStep(sv, e).logs[d].done.clouds
    ensures var b := LoggerStep(sv, e);
            var body := b.logs[d].done.clouds[n];
            CloudOnServer(b, d, n, body)
            || (d in sv.logs && n in sv.logs[d].done.clouds && sv.logs[d].done.clouds[n] == body
                && !CloudOnServer(sv, d, n, body))
  {
  }

  lemma MetaStays(sv: Server, e: Event, d: Stamp, m: Meta)
    requires ServerOk(sv) && LoggerEnabled(sv, e) && d in LoggerStep(sv, e).logs
             && m in LoggerStep(sv, e).logs[d].done.metas
    ensures var b := LoggerStep(sv, e);
            var body := b.logs[d].done.metas[m];
            MetaOnServer(b, d, m, body)
            || (d in sv.logs && m in sv.logs[d].done.metas && sv.logs[d].done.metas[m] == body
                && !MetaOnServer(sv, d, m, body))
  {
    assert d in sv.logs ==> LogOk(sv, d);
  }

  lemma FilesStayAfterLogger(sv: Server, e: Event)
    requires ServerOk(sv) && LoggerEnabled(sv, e)
    ensures FilesStay(sv, LoggerStep(sv, e))
  {
    hide LoggerStep, LoggerEnabled, ServerOk, CloudOnServer, MetaOnServer;
    var b := LoggerStep(sv, e);
    forall d, n: nat | d in b.logs && n in b.logs[d].done.clouds && !CloudOnServer(b, d, n, b.logs[d].done.clouds[n])
      ensures d in sv.logs && n in sv.logs[d].done.clouds && sv.logs[d].done.clouds[n] == b.logs[d].done.clouds[n]
              && !CloudOnServer(sv, d, n, b.logs[d].done.clouds[n])
    {
      CloudStays(sv, e, d, n);
    }
    forall d, m | d in b.logs && m in b.logs[d].done.metas && !MetaOnServer(b, d, m, b.logs[d].done.metas[m])
      ensures d in sv.logs && m in sv.logs[d].done.metas && sv.logs[d].done.metas[m] == b.logs[d].done.metas[m]
              && !MetaOnServer(sv, d, m, b.logs[d].done.metas[m])
    {
      MetaStays(sv, e, d, m);
    }
  }

  lemma LoggerStepGood(sv: Server, e: Event)
    requires ServerOk(sv) && LoggerEnabled(sv, e)
    ensures GoodMove(sv, LoggerStep(sv, e))
  {
    hide LoggerStep, LoggerEnabled, LogOk, CloudsOk, MetasOk, LoggerOk, LogKept, FilesStay;
    var b := LoggerStep(sv, e);
    forall d | d in b.logs ensures LogOk(b, d) {
      LogOkAfterLogger(sv, e, d);
    }
    forall d | d in b.dirs ensures d in b.logs && DirOk(b, d) {
      CloudsOkAfterLogger(sv, e, d);
      MetasOkAfterLogger(sv, e, d);
    }
    forall d | d in sv.logs ensures LogKept(sv, b, d) {
      LogKeptAfterLogger(sv, e, d);
    }
    LoggerOkAfterLogger(sv, e);
    NewDirAfterLogger(sv, e);
    FilesStayAfterLogger(sv, e);
  }

  lemma GoodMoveConserves(a: Server, b: Server, st: Store)
    requires GoodMove(a, b) && Conserved(a, st)
    ensures Conserved(b, st)
  {
  }

  lemma InvAfterLogger(s: State, e: Event)
    requires Inv(s) && LoggerEnabled(s.srv, e)
    ensures Inv(s.(srv := LoggerStep(s.srv, e)))
  {
    LoggerStepGood(s.srv, e);
    GoodMoveConserves(s.srv, LoggerStep(s.srv, e), s.past.meant);
    InvAfterServer(s, LoggerStep(s.srv, e));
  }

  // ---------- server steps ----------

  /** Executing an acknowledged removal, now or late, is safe. */
  lemma RemoveFileSafe(sv: Server, st: Store, d: Stamp, lidar: nat, n: nat)
    requires ServerOk(sv) && Conserved(sv, st) && Removable(sv, st, d, n)
    ensures var b := Serve(sv, RemoveFile(d, lidar, n)).0; ServerOk(b) && Later(sv, b) && Conserved(b, st)
  {
    ServeRemoveFile(sv, d, lidar, n);
    if HasCloud(sv.dirs, d, lidar, n) {
      assert DirOk(sv, d) && n == sv.logs[d].removed;
      RemoveCloudOk(sv, d, n);
      RemoveCloudConserves(sv, st, d, n);
    } else {
      SameServer(sv);
    }
  }

  lemma ServeRemoveFile(sv: Server, d: Stamp, lidar: nat, n: nat)
    requires d in sv.logs
    ensures Serve(sv, RemoveFile(d, lidar, n)).0 == if HasCloud(sv.dirs, d, lidar, n) then RemoveCloud(sv, d, n) else sv
  {
  }

  /** The server without point cloud n of directory d. */
  function RemoveCloud(sv: Server, d: Stamp, n: nat): Server
    requires d in sv.dirs && d in sv.logs
  {
    sv.(dirs := WithoutCloud(sv.dirs, d, n), logs := sv.logs[d := sv.logs[d].(removed := sv.logs[d].removed + 1)])
  }

  lemma RemoveCloudOk(sv: Server, d: Stamp, n: nat)
    requires ServerOk(sv) && Sendable(sv, d, n) && d in sv.dirs && n == sv.logs[d].removed
    ensures ServerOk(RemoveCloud(sv, d, n)) && Later(sv, RemoveCloud(sv, d, n))
  {
    var b := RemoveCloud(sv, d, n);
    forall e | e in b.logs ensures LogOk(b, e) && LogKept(sv, b, e) {
      assert LogOk(sv, e);
    }
    forall e | e in b.dirs ensures e in b.logs && DirOk(b, e) {
      assert DirOk(sv, e);
    }
  }

  lemma RemoveCloudConserves(sv: Server, st: Store, d: Stamp, n: nat)
    requires Conserved(sv, st) && Removable(sv, st, d, n) && d in sv.dirs
    ensures Conserved(RemoveCloud(sv, d, n), st)
  {
  }

  /** Executing a directory removal, now or late, is safe: every file of the session is already held. */
  lemma RemoveDirSafe(sv: Server, st: Store, d: Stamp)
    requires ServerOk(sv) && Conserved(sv, st) && DirRemovable(sv, st, d)
    ensures var b := Serve(sv, RemoveDir(d)).0; ServerOk(b) && Later(sv, b) && Conserved(b, st)
  {
    var b := Serve(sv, RemoveDir(d)).0;
    forall e | e in b.logs ensures LogOk(b, e) {
      assert LogOk(sv, e);
    }
    forall e | e in b.dirs ensures e in b.logs && DirOk(b, e) {
      assert DirOk(sv, e);
    }
    forall e | e in sv.logs ensures LogKept(sv, b, e) {
    }
    forall e, k: nat | e in b.logs && k in b.logs[e].done.clouds
      ensures CloudOnServer(b, e, k, b.logs[e].done.clouds[k]) || HeldCloud(st, e, k, b.logs[e].done.clouds[k])
    {
      assert e in sv.dirs ==> DirOk(sv, e);
      assert CloudOnServer(sv, e, k, b.logs[e].done.clouds[k]) && e != d ==>
          CloudOnServer(b, e, k, b.logs[e].done.clouds[k]);
    }
    forall e, m | e in b.logs && m in b.logs[e].done.metas
      ensures MetaOnServer(b, e, m, b.logs[e].done.metas[m]) || HeldMeta(st, e, m, b.logs[e].done.metas[m])
    {
      assert MetaOnServer(sv, e, m, b.logs[e].done.metas[m]) && e != d ==>
          MetaOnServer(b, e, m, b.logs[e].done.metas[m]);
    }
  }

  lemma SameServer(sv: Server)
    ensures Later(sv, sv)
  {
  }

  /** Any command the client ever sent may be executed, now or late. */
  lemma ServeSafe(sv: Server, st: Store, c: Command)
    requires ServerOk(sv) && Conserved(sv, st) && CommandOk(sv, st, c) && !c.SendNext?
    ensures var b := Serve(sv, c).0; ServerOk(b) && Later(sv, b) && Conserved(b, st)
  {
    match c
    case RemoveFile(d, lidar, n) => RemoveFileSafe(sv, st, d, lidar, n);
    case RemoveDir(d) => RemoveDirSafe(sv, st, d);
    case SendFile(_, _, _) => SameServer(sv);
  }

  lemma OnlyDir(t: Tree, d: Stamp)
    requires d in t && forall e | e in t :: e == d
    ensures |t| == 1
  {
    var stamps := t.Keys;
    assert stamps == {d} by {
      forall e | e in stamps ensures e in {d} {
        assert e in t;
      }
    }
    assert |t| == |stamps|;
  }

  lemma LaterExists(t: Tree, d: Stamp)
    requires IsOldest(t, d) && |t| != 1
    ensures exists e :: e in t && d < e
  {
    if forall e | e in t :: e == d {
      OnlyDir(t, d);
    }
  }

  lemma ScanRootGood(s: State, e: Event)
    requires Inv(s) && e.ScanRoot? && ServerEnabled(s, e)
    ensures Inv(ServerStep(s, e))
  {
    var sv := s.srv;
    if sv.dirs != map[] {
      var d := e.oldest;
      assert DirOk(sv, d);
      if |sv.dirs| != 1 {
        LaterExists(sv.dirs, d);
        var later :| later in sv.dirs && d < later;
        assert LogOk(sv, later);
      }
      assert TaskOk(sv, s.cl.tr, Rooted(d, |sv.dirs|));
    }
  }

  /** A scan sees the interval that is left: it starts at the number of files removed so far, ends at the last one
      begun, and has no gap. */
  lemma ScanSeesInterval(sv: Server, d: Stamp, first: nat, last: nat)
    requires ServerOk(sv) && d in sv.dirs && IsScan(sv.dirs[d].files.clouds, first, last)
    ensures var clouds := sv.dirs[d].files.clouds;
            && |clouds| == sv.logs[d].begun - sv.logs[d].removed
            && (clouds != map[] ==>
                 first == sv.logs[d].removed && last + 1 == sv.logs[d].begun && |clouds| == last - first + 1)
  {
    var clouds, lo, hi := sv.dirs[d].files.clouds, sv.logs[d].removed, sv.logs[d].begun;
    assert DirOk(sv, d) && LogOk(sv, d);
    assert forall n: nat :: n in clouds.Keys <==> lo <= n < hi;
    IntervalSize(clouds.Keys, lo, hi);
    if clouds != map[] {
      assert lo in clouds by { assert first in clouds; }
      assert hi - 1 in clouds;
    }
  }

  lemma {:induction false} IntervalSize(ks: set<nat>, lo: nat, hi: nat)
    requires lo <= hi && forall n: nat :: n in ks <==> lo <= n < hi
    ensures |ks| == hi - lo
    decreases hi - lo
  {
    if lo < hi {
      IntervalSize(ks - {lo}, lo + 1, hi);
    } else {
      assert ks == {};
    }
  }

  lemma ScanFilesGood(s: State, e: Event)
    requires Inv(s) && e.ScanFiles? && ServerEnabled(s, e)
    ensures Inv(ServerStep(s, e))
  {
    var t := s.link.t;
    ScanSeesInterval(s.srv, t.d, e.first, e.last);
    assert DirOk(s.srv, t.d) && LogOk(s.srv, t.d);
    assert TaskOk(s.srv, s.cl.tr, ServerStep(s, e).link.t);
  }

  lemma ProbeGood(s: State, e: Event)
    requires Inv(s) && e.Probe? && ServerEnabled(s, e)
    ensures Inv(ServerStep(s, e))
  {
  }

  lemma ReadCloudGood(s: State, e: Event)
    requires Inv(s) && e.ReadCloud? && ServerEnabled(s, e)
    ensures Inv(ServerStep(s, e))
  {
    var t := s.link.t;
    if HasCloud(s.srv.dirs, t.d, t.lidar, t.first) {
      assert DirOk(s.srv, t.d) && LogOk(s.srv, t.d);
    }
  }

  lemma ServeGood(s: State, e: Event)
    requires Inv(s) && ServerEnabled(s, e) && (e.ServeRemoveFile? || e.ServeSendFile? || e.ServeRemoveDir?)
    ensures Inv(ServerStep(s, e))
  {
    var s' := ServerStep(s, e);
    assert CommandOk(s.srv, s.past.meant, s.link.c);
    ServeSafe(s.srv, s.past.meant, s.link.c);
    InvAfterServer(s, s'.srv);
    if s.cl.pc.AwaitMeta? && s'.link.r.Requested? {
      assert DirOk(s.srv, s.cl.pc.folder);
    }
  }

  lemma InvAfterServerStep(s: State, e: Event)
    requires Inv(s) && ServerEnabled(s, e)
    ensures Inv(ServerStep(s, e))
  {
    hide *;
    match e
    case ScanRoot(_) => ScanRootGood(s, e);
    case ScanFiles(_, _) => ScanFilesGood(s, e);
    case Probe => ProbeGood(s, e);
    case ReadCloud => ReadCloudGood(s, e);
    case ServeError => ServeErrorGood(s);
    case RunOrphan(_) => OrphanGood(s, e);
    case ServeRemoveFile => ServeGood(s, e);
    case ServeSendFile => ServeGood(s, e);
    case ServeRemoveDir => ServeGood(s, e);
    case _ => NotOfServer(s, e); assert false;
  }

  lemma ServeErrorGood(s: State)
    requires Inv(s) && ServerEnabled(s, ServeError)
    ensures Inv(ServerStep(s, ServeError))
  {
  }

  lemma OrphanGood(s: State, e: Event)
    requires Inv(s) && ServerEnabled(s, e) && e.RunOrphan?
    ensures Inv(ServerStep(s, e))
  {
    hide Serve;
    ServeSafe(s.srv, s.past.meant, e.c);
    InvAfterServer(s, Serve(s.srv, e.c).0);
  }

  lemma NotOfServer(s: State, e: Event)
    requires ServerEnabled(s, e)
    ensures e.ScanRoot? || e.ScanFiles? || e.Probe? || e.ReadCloud? || e.ServeError? || e.RunOrphan?
            || e.ServeRemoveFile? || e.ServeSendFile? || e.ServeRemoveDir?
  {
  }

  // ---------- client steps ----------

  /** The client may gain true copies. */
  lemma StoreGood(sv: Server, sa: Store, sb: Store, cs: set<Command>)
    requires StoreKept(sa, sb) && Conserved(sv, sa) && forall c | c in cs :: CommandOk(sv, sa, c)
    ensures Conserved(sv, sb) && forall c | c in cs :: CommandOk(sv, sb, c)
  {
  }

  /** Folder f has everything that the store has under l. */
  ghost predicate Extends(st: Store, l: LocalDir, f: Folder) {
    l in st ==>
      && (forall n | n in st[l].clouds :: n in f.clouds && f.clouds[n] == st[l].clouds[n])
      && (forall m | m in st[l].metas :: m in f.metas && f.metas[m] == st[l].metas[m])
  }

  lemma ExtendKeeps(sa: Store, l: LocalDir, f: Folder)
    requires Extends(sa, l, f)
    ensures StoreKept(sa, sa[l := f])
  {
  }

  /** The client may extend a local directory with true copies. */
  lemma ExtendGood(sv: Server, sa: Store, d: Stamp, f: Folder, cs: set<Command>)
    requires DataOk(sv, sa, cs) && Extends(sa, Active(d), f)
    requires CopyOk(sv, sa[Active(d) := f], Active(d))
    ensures DataOk(sv, sa[Active(d) := f], cs) && StoreKept(sa, sa[Active(d) := f])
  {
    var sb := sa[Active(d) := f];
    ExtendKeeps(sa, Active(d), f);
    StoreGood(sv, sa, sb, cs);
    forall l | l in sb ensures CopyOk(sv, sb, l) {
      assert l != Active(d) ==> CopyOk(sv, sa, l);
    }
  }

  lemma SendingReplyGood(s: State)
    requires Inv(s) && s.cl.pc.AwaitNext? && s.link.Replied? && s.link.r.Sending?
    ensures Inv(OnNextReply(s, s.link.r))
  {
    if Active(s.link.r.d) !in s.past.meant {
      ExtendGood(s.srv, s.past.meant, s.link.r.d, EMPTY_FOLDER, s.orphans);
    }
  }

  lemma EmptyReplyGood(s: State)
    requires Inv(s) && s.cl.pc.AwaitNext? && s.link.Replied? && s.link.r.Empty?
    ensures Inv(OnNextReply(s, s.link.r))
  {
  }

  /** Ending the thread, or going back to the top of its loop, needs nothing. */
  lemma LeaveGood(s: State, status: int)
    requires Inv(s)
    ensures Inv(Exit(s, status)) && Inv(Continue(s))
  {
  }

  lemma NextReplyGood(s: State)
    requires Inv(s) && s.cl.pc.AwaitNext? && s.link.Replied?
    ensures Inv(OnNextReply(s, s.link.r))
  {
    if s.link.r.Sending? {
      SendingReplyGood(s);
    } else if s.link.r.Empty? {
      EmptyReplyGood(s);
    } else {
      LeaveGood(s, -1);
      LeaveGood(s, 0);
    }
  }

  lemma CloudStoreGood(sv: Server, sa: Store, d: Stamp, n: nat, body: Bytes, cs: set<Command>)
    requires DataOk(sv, sa, cs)
    requires Active(d) in sa && d in sv.logs && n in sv.logs[d].done.clouds && body == sv.logs[d].done.clouds[n]
    ensures var sb := WriteCloud(sa, d, n, body); DataOk(sv, sb, cs) && HeldCloud(sb, d, n, body)
  {
    var sb := WriteCloud(sa, d, n, body);
    assert CopyOk(sv, sa, Active(d));
    ExtendGood(sv, sa, d, sb[Active(d)], cs);
    assert HasCloudCopy(sb, Active(d), n, body);
  }

  lemma BodyGood(s: State)
    requires Inv(s) && ClientEnabled(s, GetBody)
    ensures Inv(ClientStep(s, GetBody))
  {
    CloudStoreGood(s.srv, s.past.meant, s.cl.pc.d, s.cl.pc.n, s.link.r.body, s.orphans);
  }

  lemma StoreMoreGood(s: State, e: Event)
    requires Inv(s) && ClientEnabled(s, e) && e.StoreMore?
    ensures Inv(ClientStep(s, e))
  {
    hide DataOk, First;
  }

  lemma StoreDoneGood(s: State)
    requires Inv(s) && ClientEnabled(s, StoreDone)
    ensures Inv(ClientStep(s, StoreDone))
  {
    hide DataOk, First, HeldMeta, HeldCloud;
    if s.cl.pc.StoringMeta? {
      RankOfNext(s.cl.pc.k);
    }
  }

  lemma RankOfNext(k: nat)
    requires k < 4
    ensures forall m: Meta :: MetaRank(m) < k + 1 ==> MetaRank(m) < k || m == MetaAt(k)
    ensures k == 3 ==> forall m: Meta :: MetaRank(m) < k + 1
  {
  }

  lemma NotOfClient(s: State, e: Event)
    requires ClientEnabled(s, e)
    ensures e.StartThread? || e.Ask? || e.GetReply? || e.GetBody? || e.StoreMore? || e.StoreDone? || e.Lose?
            || e.UserStop? || e.Restart?
  {
  }

  lemma MetaStoreGood(sv: Server, sa: Store, d: Stamp, m: Meta, body: Bytes, cs: set<Command>)
    requires DataOk(sv, sa, cs)
    requires Active(d) in sa && d in sv.logs && m in sv.logs[d].done.metas && body == sv.logs[d].done.metas[m]
    ensures var sb := WriteLocalMeta(sa, d, m, body);
            DataOk(sv, sb, cs) && StoreKept(sa, sb) && HeldMeta(sb, d, m, body) && Active(d) in sb
  {
    var sb := WriteLocalMeta(sa, d, m, body);
    assert CopyOk(sv, sa, Active(d));
    ExtendGood(sv, sa, d, sb[Active(d)], cs);
    assert HasMetaCopy(sb, Active(d), m, body);
  }

  lemma MetaReplyGood(s: State)
    requires Inv(s) && s.cl.pc.AwaitMeta? && s.cl.pc.k < 4 && s.link.Replied?
    ensures Inv(OnMetaReply(s, s.link.r))
  {
    hide ServerOk, Conserved, CommandOk, StoreOk, First, Drained, HeldMeta, WriteLocalMeta;
    if s.link.r.Requested? && HasDir(s) {
      var d, k := s.cl.pc.folder, s.cl.pc.k;
      MetaStoreGood(s.srv, s.past.meant, d, MetaAt(k), s.link.r.body, s.orphans);
    }
  }

  /** When a directory is renamed, the copy is complete. */
  lemma RenameGood(sv: Server, sa: Store, d: Stamp, cs: set<Command>)
    requires DataOk(sv, sa, cs) && DirRemovable(sv, sa, d) && d !in sv.dirs
    ensures DataOk(sv, Rename(sa, d, d), cs)
  {
    var sb := Rename(sa, d, d);
    if sb != sa {
      assert CopyOk(sv, sa, Active(d));
      CopyIsWhole(sv, sa, d);
      RenameKeeps(sa, d);
      StoreGood(sv, sa, sb, cs);
      forall l | l in sb ensures CopyOk(sv, sb, l) {
        assert l != Final(d) ==> CopyOk(sv, sa, l);
      }
    }
  }

  lemma RenameKeeps(sa: Store, d: Stamp)
    ensures StoreKept(sa, Rename(sa, d, d))
  {
  }

  lemma CopyIsWhole(sv: Server, st: Store, d: Stamp)
    requires Conserved(sv, st) && Active(d) in st && CopyOk(sv, st, Active(d)) && Final(d) !in st
    requires DirRemovable(sv, st, d) && d !in sv.dirs
    ensures st[Active(d)] == sv.logs[d].done && Complete(st[Active(d)].metas)
  {
    var copy, done := st[Active(d)], sv.logs[d].done;
    forall n: nat | n in done.clouds ensures n in copy.clouds {
      assert HeldCloud(st, d, n, done.clouds[n]);
    }
    assert copy.clouds.Keys == done.clouds.Keys && copy.clouds == done.clouds;
    forall m: Meta ensures m in copy.metas {
      assert HeldMeta(st, d, m, done.metas[m]);
    }
    assert copy.metas.Keys == done.metas.Keys && copy.metas == done.metas;
  }

  lemma DirReplyGood(s: State)
    requires Inv(s) && s.cl.pc.AwaitDirRemoved? && s.link.Replied?
    ensures Inv(OnDirReply(s, s.link.r))
  {
    if !s.link.r.Error? {
      RenameGood(s.srv, s.past.meant, s.cl.pc.folder, s.orphans);
    }
  }

  lemma LoseGood(s: State, e: Event)
    requires Inv(s) && ClientEnabled(s, e) && (e.Lose? || e.Restart?)
    ensures Inv(ClientStep(s, e))
  {
  }

  lemma AskGood(s: State)
    requires Inv(s) && ClientEnabled(s, Ask)
    ensures Inv(ClientStep(s, Ask))
  {
  }

  lemma StartOrStopGood(s: State, e: Event)
    requires Inv(s) && ClientEnabled(s, e) && (e.StartThread? || e.UserStop?)
    ensures Inv(ClientStep(s, e))
  {
    hide DataOk, First;
  }

  lemma RemovedReplyGood(s: State)
    requires Inv(s) && s.cl.pc.AwaitRemoved?
    ensures Inv(Continue(s)) && forall status :: Inv(Exit(s, status))
  {
    hide DataOk, First;
  }

  lemma ReplyGood(s: State)
    requires Inv(s) && ClientEnabled(s, GetReply)
    ensures Inv(ClientStep(s, GetReply))
  {
    hide Inv, OnNextReply, OnMetaReply, OnDirReply, Exit, Continue;
    if s.cl.pc.AwaitNext? {
      NextReplyGood(s);
    } else if s.cl.pc.AwaitMeta? {
      MetaReplyGood(s);
    } else if s.cl.pc.AwaitDirRemoved? {
      DirReplyGood(s);
    } else {
      RemovedReplyGood(s);
    }
  }

  lemma InvAfterClientStep(s: State, e: Event)
    requires Inv(s) && ClientEnabled(s, e)
    ensures Inv(ClientStep(s, e))
  {
    hide Inv, ClientStep;
    match e
    case StartThread => StartOrStopGood(s, e);
    case UserStop => StartOrStopGood(s, e);
    case Ask => AskGood(s);
    case GetReply => ReplyGood(s);
    case GetBody => BodyGood(s);
    case StoreMore(_) => StoreMoreGood(s, e);
    case StoreDone => StoreDoneGood(s);
    case Lose(_) => LoseGood(s, e);
    case Restart => LoseGood(s, e);
    case _ => NotOfClient(s, e); assert false;
  }

  // ---------- every run ----------

  lemma InvAfterStep(s: State, e: Event)
    requires Inv(s) && Enabled(s, e)
    ensures Inv(Step(s, e))
  {
    if LoggerEnabled(s.srv, e) {
      InvAfterLogger(s, e);
    } else if ServerEnabled(s, e) {
      InvAfterServerStep(s, e);
    } else {
      InvAfterClientStep(s, e);
    }
  }

  lemma {:induction false} InvAlways(run: seq<State>, events: seq<Event>, i: nat)
    requires IsRun(run, events) && i < |run|
    ensures Inv(run[i])
  {
    if i > 0 {
      InvAlways(run, events, i - 1);
      InvAfterStep(run[i - 1], events[i - 1]);
    }
  }
}
