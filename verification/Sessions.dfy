/**
 The server's command loop: one command line in, exactly one reply out, until CLOSE.
 */
module Sessions {
  import opened Basics
  import opened Archive
  import opened Text
  import opened Timestamps
  import opened Wire
  import opened MetaPaths
  import opened ServerChildren
  import P = Protocol

  // ---------- one command ----------

  /** One reply on the wire: a line, or a file with the line that announces it. */
  datatype Sent = Line(text: string) | File(header: string, content: Bytes)

  /** The answer to SEND_NEXT as it is printed. `comp` is the compressed size. */
  function NextSent(r: P.Reply, name: string, comp: nat): Sent {
    match r
    case NoTr => Line(ReplyLine(NoTr))
    case Wait => Line(ReplyLine(Wait))
    case Sending(_, lidar, n, last, count, body) => File(ReplyLine(Sending(name, lidar, n, last, count, |body|, comp)),
        body)
    case Empty(_, lidar) => Line(ReplyLine(Empty(name, lidar)))
    case _ => Line(ReplyLine(Error("")))
  }

  /** What a command line does to the tree and what is sent for it. */
  ghost predicate Answers(z: Bytes -> Bytes, line: string, t: Tree, alive: bool, t': Tree, s: Sent) {
    match Dispatch(line)
    case Handle(SendNext) =>
      t' == t && exists r: P.Reply, name, comp ::
        && AnswersNext(t, alive, r) && s == NextSent(r, name, comp)
        && (r.Sending? || r.Empty? ==> IsStamp(name) && StringToTime(name) == r.d)
        && (r.Sending? ==> comp == |z(r.body)|)
    case Handle(RemoveFile(name, lidar, n)) =>
      if lidar < 0 || n < 0 then t' == t && s == Line(ReplyLine(Error(" DELETING FILE")))
      else
        var (u, r) := P.ServeTree(t, P.RemoveFile(StringToTime(name), lidar, n));
        t' == u && s == Line(ReplyLine(if r.Error? then Error(" DELETING FILE") else FileRemoved(n, name)))
    case Handle(SendFile(path)) =>
      && t' == t
      && (match Lookup(t, path)
          case None => s == Line(ReplyLine(Error(" compressing buffer")))
          case Some(x) => s == File(ReplyLine(Requested(DATA_DIR + "/" + path, |x|, |z(x)|)), x))
    case Handle(RemoveDir(name)) =>
      var (u, r) := P.ServeTree(t, P.RemoveDir(StringToTime(name)));
      t' == u && s == Line(ReplyLine(if r.Error? then Error(" REMOVING DIR " + name) else DirRemoved(name)))
    case Handle(Status) => t' == t && s == Line(if alive then "STATUS: 1" else "STATUS: 0")
    case Handle(Start(_)) =>
      t' == t && s == Line(if alive then "The logging system is already running" else "Logging system STARTED")
    case Handle(Stop) =>
      t' == t && s == Line(if alive then "Logging system STOPPED" else "The logging system is NOT running")
    case NotValid => t' == t && s == Line("Not valid command")
    case _ => t' == t && s.Line?
  }

  /** What the user's commands are answered with. The client reads 1 from the answer to STATUS if a logger is alive and
      0 if not; the two answers to START differ in whether one was started, those to STOP in whether there was one to
      be stopped; and none of these, nor that to an unknown command, is taken for an error. */
  ghost predicate TellsState(line: string, alive: bool, s: Sent) {
    match Dispatch(line)
    case Handle(Status) => IsNoError(s) && StatusOf(s.text) == Some(if alive then 1 else 0)
    case Handle(Start(_)) => IsNoError(s) && (s.text == "Logging system STARTED" <==> !alive)
    case Handle(Stop) => IsNoError(s) && (s.text == "Logging system STOPPED" <==> alive)
    case NotValid => IsNoError(s)
    case _ => true
  }

  predicate IsNoError(s: Sent) {
    s.Line? && !StartsWith(s.text, "ERROR")
  }

  lemma StateIsTold(z: Bytes -> Bytes, line: string, t: Tree, alive: bool, t': Tree, s: Sent)
    requires Answers(z, line, t, alive, t', s)
    ensures TellsState(line, alive, s)
  {
    hide Dispatch, Lookup, AnswersNext, ReplyLine, NextSent, P.ServeTree, StatusOf, StringToTime, IsStamp;
    StatusRoundTrip(0);
    StatusRoundTrip(1);
    PrintedStatus();
    assert "ERROR"[0] == 'E';
  }

  lemma PrintedStatus()
    ensures "STATUS:" + PrintFields([N(0)]) == "STATUS: 0" && "STATUS:" + PrintFields([N(1)]) == "STATUS: 1"
  {
  }

  /** For any names, numbers and paths: a removal succeeds exactly if there is what it names, then it removes that and
      no more, and else it changes nothing; a request for a file succeeds exactly if there is one. Whether the reply is
      an error tells which. */
  lemma ErrorsAreTold(z: Bytes -> Bytes, line: string, t: Tree, alive: bool, t': Tree, s: Sent)
    requires Answers(z, line, t, alive, t', s)
    ensures match Dispatch(line)
            case Handle(RemoveFile(name, lidar, n)) =>
              var d := StringToTime(name);
              if lidar >= 0 && n >= 0 && HasCloud(t, d, lidar, n) then IsNoError(s) && t' == WithoutCloud(t, d, n)
              else !IsNoError(s) && t' == t
            case Handle(RemoveDir(name)) =>
              var d := StringToTime(name);
              t'.Keys == t.Keys - {d} && (forall e | e in t' :: t'[e] == t[e]) && (IsNoError(s) <==> d in t)
            case Handle(SendFile(path)) =>
              && t' == t
              && (if s.File? then Lookup(t, path) == Some(s.content) else !IsNoError(s) && Lookup(t, path) == None)
            case _ => t' == t
  {
    hide Dispatch, Lookup, AnswersNext, NextSent, StringToTime, IsStamp, PrintInt;
    assert "ERROR"[0] == 'E' && "FILE "[0] == 'F' && "DIR "[0] == 'D';
  }

  /** The handlers, each with the reply it prints. */
  method HandleSendNext(server: ServerChild, z: Bytes -> Bytes, line: string) returns (sent: Sent)
    requires server.Valid() && Dispatch(line) == Handle(SendNext)
    ensures Answers(z, line, server.dirs, server.alive, server.dirs, sent)
  {
    hide StringToTime, IsStamp, Dispatch, Lookup, AnswersNext, ReplyLine, NextSent;
    var r, name := server.SendNext();
    var comp := if r.Sending? then |z(r.body)| else 0;
    sent := NextSent(r, name, comp);
  }

  method HandleRemoveFile(server: ServerChild, z: Bytes -> Bytes, line: string, name: string, lidar: int, n: int)
    returns (sent: Sent)
    requires server.Valid() && Dispatch(line) == Handle(RemoveFile(name, lidar, n))
    modifies server
    ensures server.Valid() && server.alive == old(server.alive)
    ensures Answers(z, line, old(server.dirs), server.alive, server.dirs, sent)
  {
    hide StringToTime, IsStamp, Dispatch, Lookup, AnswersNext, ReplyLine, P.ServeTree;
    var r := P.Error;
    if lidar >= 0 && n >= 0 {
      r := server.RemoveFile(StringToTime(name), lidar, n);
    }
    sent := Line(ReplyLine(if r.Error? then Error(" DELETING FILE") else FileRemoved(n, name)));
  }

  method HandleSendFile(server: ServerChild, z: Bytes -> Bytes, line: string, path: string) returns (sent: Sent)
    requires server.Valid() && Dispatch(line) == Handle(SendFile(path))
    ensures Answers(z, line, server.dirs, server.alive, server.dirs, sent)
  {
    hide Dispatch, Lookup, AnswersNext, ReplyLine;
    var r := server.SendFile(path);
    sent := if r.Requested? then File(ReplyLine(Requested(DATA_DIR + "/" + path, |r.body|, |z(r.body)|)), r.body)
            else Line(ReplyLine(Error(" compressing buffer")));
  }

  method HandleRemoveDir(server: ServerChild, z: Bytes -> Bytes, line: string, name: string) returns (sent: Sent)
    requires server.Valid() && Dispatch(line) == Handle(RemoveDir(name))
    modifies server
    ensures server.Valid() && server.alive == old(server.alive)
    ensures Answers(z, line, old(server.dirs), server.alive, server.dirs, sent)
  {
    hide StringToTime, IsStamp, Dispatch, Lookup, AnswersNext, ReplyLine, P.ServeTree;
    var r := server.RemoveDir(StringToTime(name));
    sent := Line(ReplyLine(if r.Error? then Error(" REMOVING DIR " + name) else DirRemoved(name)));
  }

  /** One round of the loop: no reply to CLOSE, and exactly one to anything else. */
  method HandleLine(server: ServerChild, z: Bytes -> Bytes, line: string) returns (sent: Option<Sent>)
    requires server.Valid()
    modifies server
    ensures server.Valid() && server.alive == old(server.alive)
    ensures sent.None? <==> Dispatch(line) == Handle(Close)
    ensures sent.None? ==> server.dirs == old(server.dirs)
    ensures sent.Some? ==> Answers(z, line, old(server.dirs), server.alive, server.dirs, sent.value)
    ensures sent.Some? ==> TellsState(line, server.alive, sent.value)
  {
    hide StringToTime, IsStamp, Dispatch, Lookup, AnswersNext, ReplyLine, P.ServeTree, TellsState;
    match Dispatch(line) {
      case Handle(Close) => sent := None;
      case Handle(SendNext) =>
        var reply := HandleSendNext(server, z, line);
        sent := Some(reply);
      case Handle(RemoveFile(name, lidar, n)) =>
        var reply := HandleRemoveFile(server, z, line, name, lidar, n);
        sent := Some(reply);
      case Handle(SendFile(path)) =>
        var reply := HandleSendFile(server, z, line, path);
        sent := Some(reply);
      case Handle(RemoveDir(name)) =>
        var reply := HandleRemoveDir(server, z, line, name);
        sent := Some(reply);
      case Handle(Status) => sent := Some(Line(if server.alive then "STATUS: 1" else "STATUS: 0"));
      case Handle(Start(_)) =>
        sent := Some(Line(if server.alive then "The logging system is already running" else "Logging system STARTED"));
      case Handle(Stop) =>
        sent := Some(Line(if server.alive then "Logging system STOPPED" else "The logging system is NOT running"));
      case NoArguments => sent := Some(Line("ERROR"));
      case NotValid => sent := Some(Line("Not valid command"));
    }
    if sent.Some? {
      StateIsTold(z, line, old(server.dirs), server.alive, server.dirs, sent.value);
    }
  }

  // ---------- a session ----------

  function CommandsBeforeClose(lines: seq<string>): (n: nat)
    ensures n <= |lines|
  {
    if lines == [] || Dispatch(lines[0]) == Handle(Close) then 0 else 1 + CommandsBeforeClose(lines[1..])
  }

  lemma {:induction false} CloseEndsSession(lines: seq<string>, k: nat)
    requires k <= |lines| && forall i | 0 <= i < k :: Dispatch(lines[i]) != Handle(Close)
    ensures k == |lines| || Dispatch(lines[k]) == Handle(Close) <==> CommandsBeforeClose(lines) == k
    ensures k <= CommandsBeforeClose(lines)
  {
    hide Dispatch;
    if k > 0 {
      CloseEndsSession(lines[1..], k - 1);
    }
  }

  /** server_handler, on the lines received before the connection ends: the i-th reply answers the i-th command, there
      is one for each command before CLOSE, and the tree goes through the states these commands lead to. */
  method ServerHandler(server: ServerChild, z: Bytes -> Bytes, lines: seq<string>)
    returns (out: seq<Sent>, ghost trees: seq<Tree>)
    requires server.Valid()
    modifies server
    ensures server.Valid() && server.alive == old(server.alive)
    ensures |out| == CommandsBeforeClose(lines)
    ensures |trees| == |out| + 1 && trees[0] == old(server.dirs) && trees[|out|] == server.dirs
    ensures forall i | 0 <= i < |out| :: Answers(z, lines[i], trees[i], server.alive, trees[i + 1], out[i])
  {
    hide Dispatch, Answers;
    out, trees := [], [server.dirs];
    var activeConnection := true;
    while activeConnection && |out| < |lines|
      invariant server.Valid() && server.alive == old(server.alive)
      invariant |out| <= |lines| && |trees| == |out| + 1 && trees[0] == old(server.dirs) && trees[|out|] == server.dirs
      invariant forall i | 0 <= i < |out| :: Dispatch(lines[i]) != Handle(Close)
      invariant !activeConnection ==> |out| < |lines| && Dispatch(lines[|out|]) == Handle(Close)
      invariant forall i | 0 <= i < |out| :: Answers(z, lines[i], trees[i], server.alive, trees[i + 1], out[i])
      decreases activeConnection, |lines| - |out|
    {
      var sent := HandleLine(server, z, lines[|out|]);
      if sent.None? {
        activeConnection := false;
      } else {
        out := out + [sent.value];
        trees := trees + [server.dirs];
      }
    }
    CloseEndsSession(lines, |out|);
  }
}
