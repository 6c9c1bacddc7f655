/**
 One command and its reply, down to the bytes: the client prints a command, its bytes arrive in arbitrary chunks, the
 server reads the line, acts on its directory tree and prints a reply, and the client reads that in turn. What the
 client makes of it is the reply that the protocol gives to the command, and nothing is left unread for the next
 exchange.
 */
module Exchanges {
  import opened Basics
  import opened Archive
  import opened Text
  import opened Timestamps
  import opened Wire
  import opened Streams
  import opened Frames
  import opened MetaPaths
  import opened Sessions
  import opened ServerChildren
  import P = Protocol

  /** What the transmission thread can ask for. */
  datatype Order =
    | Next
    | Remove(name: string, lidar: nat, n: nat)
    | Fetch(name: string, lidar: nat, m: Meta)
    | RemoveAll(name: string)

  predicate WellFormed(o: Order) {
    && (!o.Next? ==> IsStamp(o.name))
    && (o.Remove? || o.Fetch? ==> o.lidar < 2)
    && (o.Remove? ==> Fits64(o.n))
  }

  function CommandOf(o: Order): Command {
    match o
    case Next => SendNext
    case Remove(name, lidar, n) => RemoveFile(name, lidar, n)
    case Fetch(name, lidar, m) => SendFile(MetaPath(name, lidar, m))
    case RemoveAll(name) => RemoveDir(name)
  }

  function Meaning(o: Order): P.Command {
    match o
    case Next => P.SendNext
    case Remove(name, lidar, n) => P.RemoveFile(StringToTime(name), lidar, n)
    case Fetch(name, lidar, m) => P.SendFile(StringToTime(name), lidar, m)
    case RemoveAll(name) => P.RemoveDir(StringToTime(name))
  }

  /** The protocol's effect and reply. */
  ghost predicate Serves(o: Order, t: Tree, alive: bool, t': Tree, r: P.Reply) {
    if o.Next? then t' == t && AnswersNext(t, alive, r) else (t', r) == P.ServeTree(t, Meaning(o))
  }

  /** What the client has read: a line, a line and the file it announces, or no complete reply. */
  datatype Received = JustLine(text: string) | WithFile(header: string, content: Bytes) | Broken(code: int)

  function Heard(s: Sent): Received {
    match s case Line(text) => JustLine(text) case File(header, x) => WithFile(header, x)
  }

  /** What the client makes of what it has read. */
  function Decode(o: Order, got: Received): P.Reply {
    match (o, got)
    case (Next, JustLine(text)) =>
      (match NextAnswerOf(text)
       case Waiting => P.Wait
       case Drained(name, lidar) => if lidar < 0 then P.Error else P.Empty(StringToTime(name), lidar)
       case Finished => P.NoTr
       case Nothing => P.Wait
       case _ => P.Error)
    case (Next, WithFile(header, x)) =>
      (match NextAnswerOf(header)
       case Incoming(q) =>
         if q.Sending? && q.lidar >= 0 && q.first >= 0 && q.last >= 0 && q.count >= 0 then
           P.Sending(StringToTime(q.name), q.lidar, q.first, q.last, q.count, x)
         else P.Error
       case _ => P.Error)
    case (Fetch(_, _, _), WithFile(_, x)) => P.Requested(x)
    case (Remove(_, _, _), JustLine(text)) => if StartsWith(text, "ERROR") then P.Error else P.FileRemoved
    case (RemoveAll(_), JustLine(text)) => if StartsWith(text, "ERROR") then P.Error else P.DirRemoved
    case _ => P.Error
  }

  /** Of any line that answers SEND_NEXT the loop takes one that matches none of its tests like WAIT: it asks again. */
  lemma AnyLineIsTaken(text: string)
    ensures var r := Decode(Next, JustLine(text));
            && (StartsWith(text, "ERROR") ==> r.Error?)
            && (StartsWith(text, "WAIT") ==> r.Wait?)
            && (StartsWith(text, "NO_T") ==> r.NoTr?)
            && ((forall w | w in {"ERROR", "SENDING", "EMPTY", "NO_T"} :: !StartsWith(text, w)) ==> r.Wait?)
  {
    assert "NO_T"[0] == 'N' && "WAIT"[0] == 'W' && "ERROR"[0] == 'E' && "SENDING"[0] == 'S' && "EMPTY"[0] == 'E';
  }

  /** The session that an answer to SEND_NEXT names. */
  function NameIn(got: Received): string {
    match got
    case JustLine(text) => (match NextAnswerOf(text) case Drained(name, _) => name case _ => "")
    case WithFile(header, _) =>
      (match NextAnswerOf(header)
       case Incoming(q) => if q.Sending? then q.name else ""
       case _ => "")
    case Broken(_) => ""
  }

  /** The client takes what it has read for the reply r, with the name of its session. */
  predicate Understands(o: Order, got: Received, r: P.Reply) {
    && !got.Broken? && Decode(o, got) == r
    && (r.Sending? || r.Empty? ==> IsStamp(NameIn(got)) && StringToTime(NameIn(got)) == r.d)
  }

  // ---------- what the client prints is what the server handles ----------

  /** Printable ASCII without blanks. */
  predicate Solid(s: string) {
    forall i | 0 <= i < |s| :: '!' <= s[i] <= '~'
  }

  lemma SolidIsWord(s: string)
    requires Solid(s)
    ensures Plain(s) && (s != "" ==> IsWord(s))
  {
  }

  lemma StampIsSolid(name: string)
    requires IsStamp(name)
    ensures Solid(name) && |name| == 15
  {
    hide IsDate, DateOf;
    StampChars(name);
  }

  lemma LogIsSolid(lidar: nat, tail: string)
    requires lidar < 2 && Solid(tail)
    ensures Solid(LOG + Pad4(lidar) + tail)
  {
    hide Solid;
    PadTwo(lidar);
    PiecesAreSolid();
    SolidTogether(LOG, Pad4(lidar));
    SolidTogether(LOG + Pad4(lidar), tail);
  }

  lemma PiecesAreSolid()
    ensures Solid("0000") && Solid("0001") && Solid(LOG)
  {
  }

  lemma SolidTogether(a: string, b: string)
    requires Solid(a) && Solid(b)
    ensures Solid(a + b)
  {
  }

  lemma TailsAreSolid()
    ensures Solid("/run/mpa/tof/data.csv") && Solid("/info.json") && Solid("/run/mpa/vvpx4_body_wrt_local/data.csv")
  {
  }

  lemma SuffixIsSolid(lidar: nat)
    requires lidar < 2
    ensures Solid(CsvSuffix(lidar)) && Solid(InfoSuffix(lidar)) && Solid(ImuSuffix(lidar))
  {
    hide Pad4, Solid;
    TailsAreSolid();
    LogIsSolid(lidar, "/run/mpa/tof/data.csv");
    LogIsSolid(lidar, "/info.json");
    LogIsSolid(lidar, "/run/mpa/vvpx4_body_wrt_local/data.csv");
  }

  /** A metadata path has no blanks, is printable and short. */
  lemma PathShape(name: string, lidar: nat, m: Meta)
    requires IsStamp(name) && lidar < 2
    ensures var path := MetaPath(name, lidar, m); Solid(path) && 15 <= |path| <= 73
  {
    hide CsvSuffix, InfoSuffix, ImuSuffix, IsStamp;
    StampIsSolid(name);
    SuffixIsSolid(lidar);
    SuffixIsSolid(OtherLog(lidar));
    SuffixesDiffer(lidar, OtherLog(lidar));
    SuffixesDiffer(OtherLog(lidar), lidar);
  }

  lemma OrderIsHandled(o: Order)
    requires WellFormed(o)
    ensures Dispatch(CommandLine(CommandOf(o))) == Handle(CommandOf(o))
  {
    hide Dispatch, CommandLine, MetaPath, IsStamp, IsWord, Solid;
    if !o.Next? {
      StampIsSolid(o.name);
      SolidIsWord(o.name);
    }
    if o.Fetch? {
      PathShape(o.name, o.lidar, o.m);
      SolidIsWord(MetaPath(o.name, o.lidar, o.m));
    }
    CommandRoundTrip(CommandOf(o));
  }

  /** No command is cut off by the client's buffer of MAXCMDLEN characters. */
  lemma CommandFits(o: Order)
    requires WellFormed(o)
    ensures |CommandLine(CommandOf(o))| + 2 <= 128
  {
    hide MetaPath, IsStamp, PrintInt, Solid;
    if !o.Next? {
      StampLength(o.name);
    }
    match o
    case Next =>
    case Remove(name, lidar, n) =>
      NumberFits(lidar);
      NumberFits(n);
      ThreeFields(W(name), N(lidar), N(n));
    case Fetch(name, lidar, m) =>
      PathShape(name, lidar, m);
      OneField(W(MetaPath(name, lidar, m)));
    case RemoveAll(name) => OneField(W(name));
  }

  lemma OneField(a: Field)
    ensures |PrintFields([a])| == 1 + |FieldText(a)|
  {
    assert [a][1..] == [];
  }

  lemma ThreeFields(a: Field, b: Field, c: Field)
    ensures |PrintFields([a, b, c])| == 3 + |FieldText(a)| + |FieldText(b)| + |FieldText(c)|
  {
    assert [a, b, c][1..] == [b, c] && [b, c][1..] == [c] && [c][1..] == [];
    assert PrintFields([a, b, c]) == " " + FieldText(a) + PrintFields([b, c]);
    assert PrintFields([b, c]) == " " + FieldText(b) + PrintFields([c]);
    OneField(c);
  }

  // ---------- what the server prints is what the client understands ----------

  ghost predicate FileFits(z: Codec, x: Bytes) {
    Fits64(|x|) && Fits64(|z.compress(x)|)
  }

  /** File numbers, counts and sizes are numbers of 64 bits. */
  ghost predicate TreeFits(z: Codec, t: Tree) {
    forall d | d in t ::
      && t[d].lidar < 2 && Fits64(|t[d].files.clouds|)
      && (forall n | n in t[d].files.clouds :: Fits64(n) && FileFits(z, t[d].files.clouds[n]))
      && (forall m | m in t[d].files.metas :: FileFits(z, t[d].files.metas[m]))
  }

  function FirstLine(s: Sent): string {
    match s case Line(text) => text case File(header, _) => header
  }

  function FileOf(s: Sent): Option<Bytes> {
    match s case Line(_) => None case File(_, x) => Some(x)
  }

  /** A reply that the client's line buffer holds and whose header announces the file behind it, if there is one. */
  ghost predicate Transmittable(z: Codec, requested: bool, s: Sent) {
    Announces(z, FirstLine(s), requested, FileOf(s))
  }

  /** The reply comes across: it can be transmitted, and is taken for r. */
  ghost predicate ComesAcross(z: Codec, o: Order, s: Sent, r: P.Reply) {
    Transmittable(z, o.Fetch?, s) && Understands(o, Heard(s), r)
  }

  lemma AnswerShape(t: Tree, alive: bool, r: P.Reply)
    requires AnswersNext(t, alive, r)
    ensures r.NoTr? || r.Wait? || r.Sending? || r.Empty?
    ensures r.Sending? || r.Empty? ==> r.d in t && r.lidar == t[r.d].lidar
    ensures r.Sending? ==>
              var clouds := t[r.d].files.clouds;
              r.n in clouds && r.last in clouds && r.count == |clouds| && r.body == clouds[r.n]
  {
  }

  lemma PlainLine(text: string, requested: bool)
    requires text != "" && text[0] != 'S'
    ensures SizesOf(text, requested) == NoFile
  {
    assert "SENDING"[0] == 'S' && "SENDING REQUESTED"[0] == 'S';
  }

  lemma SendingComesAcross(z: Codec, t: Tree, r: P.Reply, name: string)
    requires r.Sending? && r.d in t && r.lidar == t[r.d].lidar && TreeFits(z, t)
    requires r.n in t[r.d].files.clouds && r.last in t[r.d].files.clouds && r.count == |t[r.d].files.clouds|
    requires r.body == t[r.d].files.clouds[r.n] && IsStamp(name) && StringToTime(name) == r.d
    ensures ComesAcross(z, Next, NextSent(r, name, |z.compress(r.body)|), r)
  {
    hide IsStamp, StringToTime, ReplyLine, NextAnswerOf, SizesOf, Plain, IsWord;
    var q := Sending(name, r.lidar, r.n, r.last, r.count, |r.body|, |z.compress(r.body)|);
    StampIsPlain(name);
    SendingAnnounces(q);
    SendingRoundTrip(q);
  }

  lemma EmptyComesAcross(z: Codec, r: P.Reply, name: string, comp: nat)
    requires r.Empty? && r.lidar < 2 && IsStamp(name) && StringToTime(name) == r.d
    ensures ComesAcross(z, Next, NextSent(r, name, comp), r)
  {
    hide IsStamp, StringToTime, NextAnswerOf, SizesOf, IsWord;
    var fs := [W(name), N(r.lidar)];
    StampIsPlain(name);
    StampLength(name);
    NumberFits(r.lidar);
    EmptyRoundTrip(Empty(name, r.lidar));
    PlainFields(fs);
    FieldsFit(fs);
    PlainLine(ReplyLine(Empty(name, r.lidar)), false);
  }

  lemma NextComesAcross(z: Codec, t: Tree, alive: bool, r: P.Reply, name: string, comp: nat)
    requires AnswersNext(t, alive, r) && TreeFits(z, t)
    requires r.Sending? || r.Empty? ==> IsStamp(name) && StringToTime(name) == r.d
    requires r.Sending? ==> comp == |z.compress(r.body)|
    ensures ComesAcross(z, Next, NextSent(r, name, comp), r)
  {
    hide IsStamp, StringToTime, AnswersNext, NextAnswerOf, SizesOf, ComesAcross;
    AnswerShape(t, alive, r);
    match r
    case Sending(_, _, _, _, _, _) => SendingComesAcross(z, t, r, name);
    case Empty(_, _) => EmptyComesAcross(z, r, name, comp);
    case NoTr => ShortComesAcross(z, NoTr, r);
    case Wait => ShortComesAcross(z, Wait, r);
  }

  lemma ShortComesAcross(z: Codec, q: Reply, r: P.Reply)
    requires (q.NoTr? && r.NoTr?) || (q.Wait? && r.Wait?)
    ensures ComesAcross(z, Next, Line(ReplyLine(q)), r)
  {
    AnswerPlain();
    PlainLine(ReplyLine(q), false);
  }

  lemma DataDirIsSolid(path: string)
    requires Solid(path)
    ensures Solid(DATA_DIR + "/" + path) && |DATA_DIR| < 100
  {
    assert Solid(DATA_DIR + "/");
  }

  lemma RequestedPath(o: Order)
    requires o.Fetch? && WellFormed(o)
    ensures var path := DATA_DIR + "/" + CommandOf(o).path; IsWord(path) && Plain(path) && |path| <= 256
  {
    hide IsStamp, MetaPath, IsWord, Plain, Solid;
    PathShape(o.name, o.lidar, o.m);
    DataDirIsSolid(CommandOf(o).path);
    SolidIsWord(DATA_DIR + "/" + CommandOf(o).path);
  }

  lemma FileComesAcross(z: Codec, o: Order, x: Bytes)
    requires o.Fetch? && WellFormed(o) && FileFits(z, x)
    ensures ComesAcross(z, o, File(ReplyLine(Requested(DATA_DIR + "/" + CommandOf(o).path, |x|, |z.compress(x)|)), x),
            P.Requested(x))
  {
    hide WellFormed, ReplyLine, SizesOf, IsWord, Plain, NextAnswerOf, NameIn, MetaPath;
    RequestedPath(o);
    RequestedAnnounces(Requested(DATA_DIR + "/" + CommandOf(o).path, |x|, |z.compress(x)|));
  }

  lemma ErrorComesAcross(z: Codec, o: Order, why: string)
    requires !o.Next? && Plain(why) && |why| <= 1000
    ensures ComesAcross(z, o, Line(ReplyLine(Error(why))), P.Error)
  {
    assert StartsWith("ERROR" + why, "ERROR");
    PlainLine("ERROR" + why, o.Fetch?);
  }

  lemma FileRemovedLine(o: Order)
    requires WellFormed(o) && o.Remove?
    ensures var text := ReplyLine(FileRemoved(o.n, o.name)); Plain(text) && 0 < |text| <= BUFSIZ && text[0] != 'S'
  {
    hide IsStamp, PrintInt, Fits64;
    StampIsPlain(o.name);
    StampLength(o.name);
    NumberFits(o.n);
    PlainNumber(o.n);
  }

  lemma DirRemovedLine(o: Order)
    requires WellFormed(o) && o.RemoveAll?
    ensures var text := ReplyLine(DirRemoved(o.name)); Plain(text) && 0 < |text| <= BUFSIZ && text[0] != 'S'
  {
    hide IsStamp;
    StampIsPlain(o.name);
    StampLength(o.name);
  }

  lemma PlainNumber(n: int)
    ensures Plain(PrintInt(n))
  {
    PlainFields([N(n)]);
    assert PrintFields([N(n)])[1..] == PrintInt(n);
  }

  lemma RemovalComesAcross(z: Codec, o: Order, r: P.Reply)
    requires WellFormed(o) && ((o.Remove? && r == P.FileRemoved) || (o.RemoveAll? && r == P.DirRemoved))
    ensures ComesAcross(z, o, Line(ReplyLine(if o.Remove? then FileRemoved(o.n, o.name) else DirRemoved(o.name))), r)
  {
    hide WellFormed, SizesOf, ReplyLine, Plain;
    var q := if o.Remove? then FileRemoved(o.n, o.name) else DirRemoved(o.name);
    AcknowledgementIsNoError(q);
    if o.Remove? {
      FileRemovedLine(o);
    } else {
      DirRemovedLine(o);
    }
    PlainLine(ReplyLine(q), false);
  }

  lemma NextAnswered(z: Codec, o: Order, t: Tree, alive: bool, t': Tree, s: Sent)
    requires o.Next? && TreeFits(z, t) && Answers(z.compress, CommandLine(CommandOf(o)), t, alive, t', s)
    ensures exists r :: Serves(o, t, alive, t', r) && ComesAcross(z, o, s, r)
  {
    hide Dispatch, CommandLine, IsStamp, StringToTime, AnswersNext, NextSent, ReplyLine, ComesAcross, MetaPath, Lookup;
    hide Resolve, P.ServeTree;
    OrderIsHandled(o);
    var r: P.Reply, name, comp :|
      && AnswersNext(t, alive, r) && s == NextSent(r, name, comp)
      && (r.Sending? || r.Empty? ==> IsStamp(name) && StringToTime(name) == r.d)
      && (r.Sending? ==> comp == |z.compress(r.body)|);
    NextComesAcross(z, t, alive, r, name, comp);
    assert Serves(o, t, alive, t', r);
  }

  lemma FetchAnswered(z: Codec, o: Order, t: Tree, alive: bool, t': Tree, s: Sent)
    requires o.Fetch? && WellFormed(o) && TreeFits(z, t)
             && Answers(z.compress, CommandLine(CommandOf(o)), t, alive, t', s)
    ensures exists r :: Serves(o, t, alive, t', r) && ComesAcross(z, o, s, r)
  {
    hide Dispatch, CommandLine, IsStamp, StringToTime, AnswersNext, NextSent, ReplyLine, ComesAcross, MetaPath, Lookup;
    hide Resolve, P.ServeTree;
    OrderIsHandled(o);
    StampLength(o.name);
    LookupIsResolve(t, o.name, o.lidar, o.m);
    var found := Resolve(t, StringToTime(o.name), o.lidar, o.m);
    var r := if found.Some? then P.Requested(found.value) else P.Error;
    FetchServed(o, t, alive);
    if found.Some? {
      ResolvedFits(z, t, StringToTime(o.name), o.lidar, o.m);
      FileComesAcross(z, o, found.value);
    } else {
      ErrorComesAcross(z, o, " compressing buffer");
    }
    assert Serves(o, t, alive, t', r) && ComesAcross(z, o, s, r);
  }

  lemma RemovalAnswered(z: Codec, o: Order, t: Tree, alive: bool, t': Tree, s: Sent)
    requires (o.Remove? || o.RemoveAll?) && WellFormed(o)
    requires Answers(z.compress, CommandLine(CommandOf(o)), t, alive, t', s)
    ensures exists r :: Serves(o, t, alive, t', r) && ComesAcross(z, o, s, r)
  {
    hide Dispatch, CommandLine, IsStamp, StringToTime, AnswersNext, NextSent, ReplyLine, ComesAcross, MetaPath, Lookup;
    hide Resolve, P.ServeTree;
    OrderIsHandled(o);
    var r := P.ServeTree(t, Meaning(o)).1;
    RemovalReplies(t, Meaning(o));
    if !r.Error? {
      RemovalComesAcross(z, o, r);
    } else if o.Remove? {
      ErrorComesAcross(z, o, " DELETING FILE");
    } else {
      StampIsPlain(o.name);
      StampLength(o.name);
      ErrorComesAcross(z, o, " REMOVING DIR " + o.name);
    }
    assert Serves(o, t, alive, t', r) && ComesAcross(z, o, s, r);
  }

  /** Whatever the server does on a command of the thread is what the protocol says, and comes across. */
  lemma AnswerComesAcross(z: Codec, o: Order, t: Tree, alive: bool, t': Tree, s: Sent)
    requires WellFormed(o) && TreeFits(z, t) && Answers(z.compress, CommandLine(CommandOf(o)), t, alive, t', s)
    ensures exists r :: Serves(o, t, alive, t', r) && ComesAcross(z, o, s, r)
  {
    hide WellFormed, TreeFits, Answers, Serves, ComesAcross, CommandLine, CommandOf;
    match o
    case Next => NextAnswered(z, o, t, alive, t', s);
    case Fetch(_, _, _) => FetchAnswered(z, o, t, alive, t', s);
    case _ => RemovalAnswered(z, o, t, alive, t', s);
  }

  lemma RemovalReplies(t: Tree, c: P.Command)
    requires c.RemoveFile? || c.RemoveDir?
    ensures var r := P.ServeTree(t, c).1; r.Error? || r == (if c.RemoveFile? then P.FileRemoved else P.DirRemoved)
  {
  }

  lemma FetchServed(o: Order, t: Tree, alive: bool)
    requires o.Fetch?
    ensures var found := Resolve(t, StringToTime(o.name), o.lidar, o.m);
            Serves(o, t, alive, t, if found.Some? then P.Requested(found.value) else P.Error)
  {
  }

  lemma ResolvedFits(z: Codec, t: Tree, d: Stamp, lidar: nat, m: Meta)
    requires TreeFits(z, t) && Resolve(t, d, lidar, m).Some?
    ensures FileFits(z, Resolve(t, d, lidar, m).value)
  {
  }

  // ---------- sessions ----------

  /** A way in which the network may cut what is sent: each message, by its number, in its own way. */
  ghost predicate IsCutter(cut: (nat, Bytes) -> seq<Bytes>) {
    forall k, b :: IsChunked(cut(k, b)) && Flatten(cut(k, b)) == b
  }

  /** The client has learned from `got` what the protocol says about order o. */
  ghost predicate Learned(o: Order, t: Tree, alive: bool, t': Tree, got: Received) {
    Serves(o, t, alive, t', Decode(o, got)) && Understands(o, got, Decode(o, got))
  }

  lemma OrderIsNoClose(o: Order)
    requires WellFormed(o)
    ensures Dispatch(CommandLine(CommandOf(o))) != Handle(Close)
  {
    OrderIsHandled(o);
  }

  lemma HeardIsLearned(z: Codec, o: Order, t: Tree, alive: bool, t': Tree, s: Sent)
    requires WellFormed(o) && TreeFits(z, t) && Answers(z.compress, CommandLine(CommandOf(o)), t, alive, t', s)
    ensures Transmittable(z, o.Fetch?, s) && Learned(o, t, alive, t', Heard(s)) && TreeFits(z, t')
  {
    hide Answers, Serves, Transmittable, TreeFits, Decode, NameIn;
    AnswerComesAcross(z, o, t, alive, t', s);
    var r :| Serves(o, t, alive, t', r) && ComesAcross(z, o, s, r);
    ServedFits(z, o, t, alive, t', r);
  }

  lemma ServedFits(z: Codec, o: Order, t: Tree, alive: bool, t': Tree, r: P.Reply)
    requires TreeFits(z, t) && Serves(o, t, alive, t', r)
    ensures TreeFits(z, t')
  {
    hide AnswersNext, StringToTime, Resolve, FileFits, Fits64;
    if t' != t && o.Remove? {
      var d := StringToTime(o.name);
      FewerFit(t[d].files.clouds, t'[d].files.clouds);
    }
  }

  lemma FewerFit(a: map<nat, Bytes>, b: map<nat, Bytes>)
    requires b.Keys <= a.Keys
    ensures Fits64(|a|) ==> Fits64(|b|)
  {
    var rest := a.Keys - b.Keys;
    assert a.Keys == b.Keys + rest;
    assert |a.Keys| == |b.Keys| + |rest|;
    assert |a| == |a.Keys| && |b| == |b.Keys|;
  }

  lemma CommandIsPlain(o: Order)
    requires WellFormed(o)
    ensures Plain(CommandLine(CommandOf(o))) && 0 < |CommandLine(CommandOf(o))| < 128
  {
    hide IsStamp, MetaPath, Solid, PrintFields;
    CommandFits(o);
    if !o.Next? {
      StampIsSolid(o.name);
      SolidIsWord(o.name);
    }
    if o.Fetch? {
      PathShape(o.name, o.lidar, o.m);
      SolidIsWord(MetaPath(o.name, o.lidar, o.m));
    }
    PlainFields(Arguments(CommandOf(o)));
    KeywordIsPlain(CommandOf(o));
  }

  lemma KeywordIsPlain(c: Command)
    ensures Plain(Keyword(c)) && Keyword(c) != ""
  {
  }

  lemma WholeFrame(frame: Bytes)
    ensures frame[|frame|..] == [] && frame <= frame && [] + frame == frame
  {
  }

  /** The connection of a transmission thread with its server child: the server's end, where commands arrive, and the
      client's, where replies do. */
  class Channel {
    const server: ServerChild
    const up: Connection
    const down: Connection
    const z: Codec
    const cut: (nat, Bytes) -> seq<Bytes>
    /** How many messages have been sent, in both directions. */
    var sent: nat

    ghost predicate Valid()
      reads server, up, up.buffer, down, down.buffer
      ensures Valid() ==> TreeFits(z, server.dirs) && up.Valid() && down.Valid()
      ensures Valid() ==> up.Stream() == [] && down.Stream() == []
    {
      && up != down && up.buffer != down.buffer && server.Valid() && up.Valid() && down.Valid()
      && Lawful(z) && IsCutter(cut) && TreeFits(z, server.dirs) && up.Stream() == [] && down.Stream() == []
    }

    constructor (server: ServerChild, up: Connection, down: Connection, z: Codec, cut: (nat, Bytes) -> seq<Bytes>)
      requires up != down && up.buffer != down.buffer && server.Valid() && up.Valid() && down.Valid()
      requires Lawful(z) && IsCutter(cut) && TreeFits(z, server.dirs) && up.Stream() == [] && down.Stream() == []
      ensures Valid() && this.server == server && this.up == up && this.down == down && this.z == z && this.cut == cut
    {
      this.server, this.up, this.down, this.z, this.cut, this.sent := server, up, down, z, cut, 0;
    }

    /** The client's sending of a line and the server's reading of it. */
    method SendCommand(text: string) returns (cmd: string)
      requires up.Valid() && up.Stream() == [] && IsCutter(cut) && Plain(text) && |text| <= BUFSIZ
      modifies this`sent, up, up.buffer
      ensures up.Valid() && up.Stream() == [] && cmd == text && sent == old(sent) + 1
    {
      hide ReadLine, Unread, Plain, Clean;
      ghost var line := ToBytes(text) + [NL];
      PlainIsClean(text);
      up.Arrive(cut(sent, ToBytes(text) + [NL]));
      sent := sent + 1;
      assert [] + line == line && line == ToBytes(text) + [NL] + [];
      LineIsRead(up.View(), ToBytes(text), []);
      var buf := new byte[BUFSIZ + 1];
      var ret := up.ReadLineInto(buf);
      cmd := ToText(buf[..ret]);
    }

    /** A command and its reply. `garbage` are the values of variables that scanf does not assign. */
    method Exchange(o: Order, garbage: (int, int)) returns (got: Received)
      requires Valid() && WellFormed(o)
      modifies this`sent, server, up, up.buffer, down, down.buffer
      ensures Valid() && server.alive == old(server.alive) && sent == old(sent) + 2
      ensures Learned(o, old(server.dirs), server.alive, server.dirs, got)
    {
      hide Dispatch, CommandLine, Answers, TreeFits, Learned, Lawful, WellFormed, Tail, Plain, Unread, StringToTime;
      hide IsStamp, ReplyFrame, Announces;
      OrderIsNoClose(o);
      CommandIsPlain(o);
      var cmd := SendCommand(CommandLine(CommandOf(o)));
      var answer := HandleLine(server, z.compress, cmd);
      var s := answer.value;
      HeardIsLearned(z, o, old(server.dirs), server.alive, server.dirs, s);
      AnnouncedIsPlain(z, FirstLine(s), o.Fetch?, FileOf(s));
      ghost var frame := ReplyFrame(z, FirstLine(s), FileOf(s));
      down.Arrive(cut(sent, ReplyFrame(z, FirstLine(s), FileOf(s))));
      sent := sent + 1;
      WholeFrame(frame);
      var text, out := ReceiveReply(down, z, o.Fetch?, garbage, FirstLine(s), FileOf(s));
      match out
      case Stored(content) => got := WithFile(text, content);
      case Returned(code) => got := if code == -5 then JustLine(text) else Broken(code);
      case Exited(code) => got := Broken(code);
    }

    /** The same, with the reply as the thread takes it and the session that it names. */
    method Ask(o: Order) returns (r: P.Reply, name: string)
      requires Valid() && WellFormed(o)
      modifies this`sent, server, up, up.buffer, down, down.buffer
      ensures Valid() && server.alive == old(server.alive)
      ensures Serves(o, old(server.dirs), server.alive, server.dirs, r)
      ensures r.Sending? || r.Empty? ==> IsStamp(name) && StringToTime(name) == r.d
    {
      hide *;
      var got := Exchange(o, (0, 0));
      r, name := Decode(o, got), NameIn(got);
      LearnedMeans(o, old(server.dirs), server.alive, server.dirs, got);
    }

    /** Lockstep: over a session without a connection loss, each reply read answers the command just sent, and between
        the exchanges nothing is left unread on either side. */
    method Session(orders: seq<Order>, garbage: (int, int)) returns (got: seq<Received>, ghost trees: seq<Tree>)
      requires Valid() && forall o | o in orders :: WellFormed(o)
      modifies this`sent, server, up, up.buffer, down, down.buffer
      ensures Valid() && server.alive == old(server.alive) && up.Stream() == [] && down.Stream() == []
      ensures |got| == |orders| && |trees| == |orders| + 1 && trees[0] == old(server.dirs)
              && trees[|orders|] == server.dirs
      ensures forall i | 0 <= i < |orders| :: Learned(orders[i], trees[i], server.alive, trees[i + 1], got[i])
    {
      hide *;
      got, trees := [], [server.dirs];
      for i := 0 to |orders|
        invariant Valid() && server.alive == old(server.alive)
        invariant |got| == i && |trees| == i + 1 && trees[0] == old(server.dirs) && trees[i] == server.dirs
        invariant forall k | 0 <= k < i :: Learned(orders[k], trees[k], server.alive, trees[k + 1], got[k])
      {
        var reply := Exchange(orders[i], garbage);
        got, trees := got + [reply], trees + [server.dirs];
      }
    }
  }

  lemma AnnouncedIsPlain(z: Codec, header: string, requested: bool, file: Option<Bytes>)
    requires Announces(z, header, requested, file)
    ensures Plain(header)
  {
  }

  lemma LearnedMeans(o: Order, t: Tree, alive: bool, t': Tree, got: Received)
    requires Learned(o, t, alive, t', got)
    ensures var r := Decode(o, got);
            Serves(o, t, alive, t', r)
                && (r.Sending? || r.Empty? ==> IsStamp(NameIn(got)) && StringToTime(NameIn(got)) == r.d)
  {
  }
}
