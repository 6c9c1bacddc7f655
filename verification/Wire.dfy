/**
 The lines that client and server exchange, the file names they build from them, and the tests by which each side
 recognises what the other printed.
 */
module Wire {
  import opened Basics
  import opened Text
  import opened Timestamps

  // ---------- lists of fields ----------

  datatype Field = W(word: string) | N(number: int)

  predicate Printable(fs: seq<Field>) {
    forall i | 0 <= i < |fs| :: fs[i].W? ==> IsWord(fs[i].word)
  }

  function FieldText(f: Field): string {
    match f case W(w) => w case N(n) => PrintInt(n)
  }

  /** printf(" %s %d ..."), with a blank before each field. */
  function PrintFields(fs: seq<Field>): string {
    if fs == [] then "" else " " + FieldText(fs[0]) + PrintFields(fs[1..])
  }

  datatype Conversion = Word | Int

  function Conversions(fs: seq<Field>): seq<Conversion> {
    seq(|fs|, i requires 0 <= i < |fs| => if fs[i].W? then Word else Int)
  }

  function ScanField(s: string, c: Conversion): Option<(Field, string)> {
    if c.Word? then match ScanWord(s) case None => None case Some((w, rest)) => Some((W(w), rest))
    else match ScanInt(s) case None => None case Some((n, rest)) => Some((N(n), rest))
  }

  /** scanf("%s %d ..."): None unless every conversion succeeds; then some variable keeps no value. */
  function ScanFields(s: string, format: seq<Conversion>): Option<seq<Field>> {
    if format == [] then Some([])
    else
      var first := ScanField(s, format[0]);
      if first.None? then None
      else
        var more := ScanFields(first.value.1, format[1..]);
        if more.None? then None else Some([first.value.0] + more.value)
  }

  lemma PrintFieldsBlank(fs: seq<Field>)
    ensures PrintFields(fs) != "" ==> PrintFields(fs)[0] == ' '
  {
  }

  lemma FieldRoundTrip(f: Field, rest: string)
    requires (f.W? ==> IsWord(f.word)) && (rest != "" ==> rest[0] == ' ')
    ensures ScanField(" " + FieldText(f) + rest, if f.W? then Word else Int) == Some((f, rest))
  {
    match f
    case W(w) => ScanWordPrinted(w, rest);
    case N(n) => ScanIntPrinted(n, rest);
  }

  /** Scanning a printed list gives the list back. */
  lemma {:induction false} FieldsRoundTrip(fs: seq<Field>)
    requires Printable(fs)
    ensures ScanFields(PrintFields(fs), Conversions(fs)) == Some(fs)
  {
    hide ScanField, FieldText;
    if fs != [] {
      FieldsRoundTrip(fs[1..]);
      PrintFieldsBlank(fs[1..]);
      assert Conversions(fs)[1..] == Conversions(fs[1..]);
      FieldRoundTrip(fs[0], PrintFields(fs[1..]));
      assert [fs[0]] + fs[1..] == fs;
    }
  }

  /** A line that starts with a keyword: scanf("%*s ...") skips it. */
  function ScanAfter(line: string, format: seq<Conversion>): Option<seq<Field>> {
    match ScanWord(line)
    case None => None
    case Some((_, rest)) => ScanFields(rest, format)
  }

  lemma LineRoundTrip(keyword: string, fs: seq<Field>)
    requires IsWord(keyword) && Printable(fs)
    ensures ScanAfter(keyword + PrintFields(fs), Conversions(fs)) == Some(fs)
  {
    PrintFieldsBlank(fs);
    ScanWordPrinted(keyword, PrintFields(fs));
    FieldsRoundTrip(fs);
  }

  // ---------- commands ----------

  datatype Command =
    | Status
    | Start(name: string)
    | Stop
    | SendNext
    | RemoveFile(name: string, lidar: int, n: int)
    | RemoveDir(name: string)
    | SendFile(path: string)
    | Close

  function Keyword(c: Command): string {
    match c
    case Status => "STATUS"
    case Start(_) => "START"
    case Stop => "STOP"
    case SendNext => "SEND_NEXT"
    case RemoveFile(_, _, _) => "REMOVE_FILE"
    case RemoveDir(_) => "REMOVE_DIR"
    case SendFile(_) => "SEND_FILE"
    case Close => "CLOSE"
  }

  function Arguments(c: Command): seq<Field> {
    match c
    case Start(name) => [W(name)]
    case RemoveFile(name, lidar, n) => [W(name), N(lidar), N(n)]
    case RemoveDir(name) => [W(name)]
    case SendFile(path) => [W(path)]
    case _ => []
  }

  /** The line the client sends, without its newline. */
  function CommandLine(c: Command): string {
    Keyword(c) + PrintFields(Arguments(c))
  }

  datatype Handled = Handle(c: Command) | NoArguments | NotValid

  /** The tests of the command loop, in their order, and what each handler reads from the line. */
  function Dispatch(line: string): Handled {
    if line == "STATUS" then Handle(Status)
    else if StartsWith(line, "START") then
      match ScanAfter(line, [Word]) case None => NoArguments case Some(f) => StartOf(f)
    else if line == "STOP" then Handle(Stop)
    else if line == "SEND_NEXT" then Handle(SendNext)
    else if StartsWith(line, "REMOVE_FILE") then
      match ScanAfter(line, [Word, Int, Int]) case None => NoArguments case Some(f) => RemoveFileOf(f)
    else if StartsWith(line, "REMOVE_DIR") then
      match ScanAfter(line, [Word]) case None => NoArguments case Some(f) => RemoveDirOf(f)
    else if StartsWith(line, "SEND_FILE") then
      match ScanAfter(line, [Word]) case None => NoArguments case Some(f) => SendFileOf(f)
    else if line == "CLOSE" then Handle(Close)
    else NotValid
  }

  function StartOf(f: seq<Field>): Handled {
    if |f| == 1 && f[0].W? then Handle(Start(f[0].word)) else NoArguments
  }

  function RemoveFileOf(f: seq<Field>): Handled {
    if |f| == 3 && f[0].W? && f[1].N? && f[2].N? then
      Handle(RemoveFile(f[0].word, f[1].number, f[2].number))
    else NoArguments
  }

  function RemoveDirOf(f: seq<Field>): Handled {
    if |f| == 1 && f[0].W? then Handle(RemoveDir(f[0].word)) else NoArguments
  }

  function SendFileOf(f: seq<Field>): Handled {
    if |f| == 1 && f[0].W? then Handle(SendFile(f[0].word)) else NoArguments
  }

  lemma DispatchStart(line: string, f: seq<Field>)
    requires |line| > 5 && StartsWith(line, "START") && line[5] == ' ' && ScanAfter(line, [Word]) == Some(f)
    ensures Dispatch(line) == StartOf(f)
  {
  }

  lemma DispatchRemoveFile(line: string, f: seq<Field>)
    requires |line| > 11 && StartsWith(line, "REMOVE_FILE") && ScanAfter(line, [Word, Int, Int]) == Some(f)
    ensures Dispatch(line) == RemoveFileOf(f)
  {
    assert line[0] == 'R';
  }

  lemma DispatchRemoveDir(line: string, f: seq<Field>)
    requires |line| > 10 && StartsWith(line, "REMOVE_DIR") && ScanAfter(line, [Word]) == Some(f)
    ensures Dispatch(line) == RemoveDirOf(f)
  {
    assert line[0] == 'R' && line[7] == 'D' && "REMOVE_FILE"[7] == 'F';
  }

  lemma DispatchSendFile(line: string, f: seq<Field>)
    requires |line| > 9 && StartsWith(line, "SEND_FILE") && ScanAfter(line, [Word]) == Some(f)
    ensures Dispatch(line) == SendFileOf(f)
  {
    assert line[0] == 'S' && line[1] == 'E' && line[5] == 'F';
    assert "START"[1] == 'T' && "SEND_NEXT"[5] == 'N' && "REMOVE_FILE"[0] == 'R' && "REMOVE_DIR"[0] == 'R';
  }

  /** A line keeps its keyword in front. */
  lemma KeywordFirst(keyword: string, fs: seq<Field>)
    requires IsWord(keyword) && fs != [] && Printable(fs)
    ensures var line := keyword + PrintFields(fs);
            |line| > |keyword| && line[|keyword|] == ' ' && StartsWith(line, keyword)
            && (forall i | 0 <= i < |keyword| :: line[i] == keyword[i])
            && ScanAfter(line, Conversions(fs)) == Some(fs)
  {
    LineRoundTrip(keyword, fs);
    PrintFieldsBlank(fs);
  }

  lemma StartCommand(fs: seq<Field>)
    requires |fs| == 1 && fs[0].W? && Printable(fs)
    ensures Dispatch("START" + PrintFields(fs)) == StartOf(fs)
  {
    assert Conversions(fs) == [Word];
    KeywordFirst("START", fs);
    DispatchStart("START" + PrintFields(fs), fs);
  }

  lemma RemoveDirCommand(fs: seq<Field>)
    requires |fs| == 1 && fs[0].W? && Printable(fs)
    ensures Dispatch("REMOVE_DIR" + PrintFields(fs)) == RemoveDirOf(fs)
  {
    assert Conversions(fs) == [Word];
    KeywordFirst("REMOVE_DIR", fs);
    DispatchRemoveDir("REMOVE_DIR" + PrintFields(fs), fs);
  }

  lemma SendFileCommand(fs: seq<Field>)
    requires |fs| == 1 && fs[0].W? && Printable(fs)
    ensures Dispatch("SEND_FILE" + PrintFields(fs)) == SendFileOf(fs)
  {
    assert Conversions(fs) == [Word];
    KeywordFirst("SEND_FILE", fs);
    DispatchSendFile("SEND_FILE" + PrintFields(fs), fs);
  }

  lemma RemoveFileCommand(fs: seq<Field>)
    requires |fs| == 3 && fs[0].W? && fs[1].N? && fs[2].N? && Printable(fs)
    ensures Dispatch("REMOVE_FILE" + PrintFields(fs)) == RemoveFileOf(fs)
  {
    assert Conversions(fs) == [Word, Int, Int];
    KeywordFirst("REMOVE_FILE", fs);
    DispatchRemoveFile("REMOVE_FILE" + PrintFields(fs), fs);
  }

  /** Every command the client prints reaches exactly the handler it is meant for, with its arguments. */
  lemma CommandRoundTrip(c: Command)
    requires Printable(Arguments(c))
    ensures Dispatch(CommandLine(c)) == Handle(c)
  {
    if Arguments(c) == [] {
      PlainCommand(c);
    } else if c.RemoveFile? {
      RemoveFileCommand(Arguments(c));
    } else if c.RemoveDir? {
      RemoveDirCommand(Arguments(c));
    } else if c.SendFile? {
      SendFileCommand(Arguments(c));
    } else {
      StartCommand(Arguments(c));
    }
  }

  lemma PlainCommand(c: Command)
    requires Arguments(c) == []
    ensures Dispatch(CommandLine(c)) == Handle(c)
  {
    assert CommandLine(c) == Keyword(c);
    assert "STOP"[2] != "START"[2] && "SEND_NEXT"[1] != "START"[1];
    assert "CLOSE"[0] == 'C' && "REMOVE_FILE"[0] == 'R' && "REMOVE_DIR"[0] == 'R' && "SEND_FILE"[0] == 'S'
        && "START"[0] == 'S';
  }

  /** Which handler a line reaches, whatever the line: one of four only by its whole text, one of four others by its
      first word, and none otherwise. */
  lemma WhichHandler(line: string)
    ensures Dispatch(line) == Handle(Status) <==> line == "STATUS"
    ensures Dispatch(line) == Handle(Stop) <==> line == "STOP"
    ensures Dispatch(line) == Handle(SendNext) <==> line == "SEND_NEXT"
    ensures Dispatch(line) == Handle(Close) <==> line == "CLOSE"
    ensures Dispatch(line).Handle? && Dispatch(line).c.Start? ==> StartsWith(line, "START")
    ensures Dispatch(line).Handle? && Dispatch(line).c.RemoveFile? ==> StartsWith(line, "REMOVE_FILE")
    ensures Dispatch(line).Handle? && Dispatch(line).c.RemoveDir? ==> StartsWith(line, "REMOVE_DIR")
    ensures Dispatch(line).Handle? && Dispatch(line).c.SendFile? ==> StartsWith(line, "SEND_FILE")
    ensures Dispatch(line) == NotValid <==>
              && line !in {"STATUS", "STOP", "SEND_NEXT", "CLOSE"}
              && !StartsWith(line, "START") && !StartsWith(line, "REMOVE_FILE")
              && !StartsWith(line, "REMOVE_DIR") && !StartsWith(line, "SEND_FILE")
  {
    hide ScanAfter;
    assert "STATUS"[3] == 'T' && "START"[3] == 'R' && "STOP"[2] == 'O' && "SEND_NEXT"[1] == 'E';
    assert "SEND_NEXT"[5] == 'N' && "SEND_FILE"[5] == 'F' && "REMOVE_FILE"[7] == 'F' && "REMOVE_DIR"[7] == 'D';
    assert "CLOSE"[0] == 'C' && "REMOVE_FILE"[0] == 'R' && "REMOVE_DIR"[0] == 'R';
  }

  // ---------- replies ----------

  datatype Reply =
    | NoTr
    | Wait
    | Sending(name: string, lidar: int, first: int, last: int, count: int, orig: int, comp: int)
    | Empty(name: string, lidar: int)
    | Requested(path: string, orig: int, comp: int)
    | FileRemoved(n: int, name: string)
    | DirRemoved(name: string)
    | Error(why: string)

  /** The line the server sends, without its newline. */
  function ReplyLine(r: Reply): string {
    match r
    case NoTr => "NO_TR"
    case Wait => "WAIT"
    case Sending(name, lidar, first, last, count, orig, comp) =>
      "SENDING" + PrintFields([W(name), N(lidar), N(first), N(last), N(count), N(orig), N(comp)])
    case Empty(name, lidar) => "EMPTY" + PrintFields([W(name), N(lidar)])
    case Requested(path, orig, comp) => "SENDING" + PrintFields([W("REQUESTED"), W(path), N(orig), N(comp)])
    case FileRemoved(n, name) => "FILE " + PrintInt(n) + ", " + name + " REMOVED"
    case DirRemoved(name) => "DIR " + name + " REMOVED"
    case Error(why) => "ERROR" + why
  }

  /** What the transmission loop makes of the answer to SEND_NEXT; Nothing when no test of the loop matches. */
  datatype NextAnswer = Failed | Waiting | Incoming(r: Reply) | Drained(name: string,
      lidar: int) | Finished | Garbled | Nothing

  function NextAnswerOf(rec: string): NextAnswer {
    if StartsWith(rec, "ERROR") then Failed
    else if StartsWith(rec, "WAIT") then Waiting
    else if StartsWith(rec, "SENDING") then
      match ScanAfter(rec, [Word, Int, Int, Int, Int, Int, Int]) case None => Garbled case Some(f) => IncomingOf(f)
    else if StartsWith(rec, "EMPTY") then
      match ScanAfter(rec, [Word, Int]) case None => Garbled case Some(f) => DrainedOf(f)
    else if StartsWith(rec, "NO_T") then Finished
    else Nothing
  }

  function IncomingOf(f: seq<Field>): NextAnswer {
    if |f| == 7 && f[0].W? && (forall i | 1 <= i < 7 :: f[i].N?) then
      Incoming(Sending(f[0].word, f[1].number, f[2].number, f[3].number, f[4].number, f[5].number, f[6].number))
    else Garbled
  }

  function DrainedOf(f: seq<Field>): NextAnswer {
    if |f| == 2 && f[0].W? && f[1].N? then Drained(f[0].word, f[1].number) else Garbled
  }

  /** What RequestFile makes of the answer to SEND_FILE: the two sizes, original and compressed. */
  function FileAnswerOf(rec: string): Option<(int, int)> {
    if StartsWith(rec, "SENDING REQUESTED") then
      match ScanAfter(rec, [Word, Word, Int, Int])
      case None => None
      case Some(f) => if |f| == 4 && f[2].N? && f[3].N? then Some((f[2].number, f[3].number)) else None
    else None
  }

  lemma AnswerSending(rec: string, f: seq<Field>)
    requires StartsWith(rec, "SENDING") && ScanAfter(rec, [Word, Int, Int, Int, Int, Int, Int]) == Some(f)
    ensures NextAnswerOf(rec) == IncomingOf(f)
  {
    assert rec[0] == 'S' && "ERROR"[0] == 'E' && "WAIT"[0] == 'W';
  }

  lemma AnswerEmpty(rec: string, f: seq<Field>)
    requires StartsWith(rec, "EMPTY") && ScanAfter(rec, [Word, Int]) == Some(f)
    ensures NextAnswerOf(rec) == DrainedOf(f)
  {
    assert rec[0] == 'E' && rec[1] == 'M' && "ERROR"[1] == 'R' && "WAIT"[0] == 'W' && "SENDING"[0] == 'S';
  }

  lemma SendingFields(fs: seq<Field>)
    requires |fs| == 7 && fs[0].W? && (forall i | 1 <= i < 7 :: fs[i].N?) && Printable(fs)
    ensures NextAnswerOf("SENDING" + PrintFields(fs)) == IncomingOf(fs)
  {
    KeywordFirst("SENDING", fs);
    assert Conversions(fs) == [Word, Int, Int, Int, Int, Int, Int];
    AnswerSending("SENDING" + PrintFields(fs), fs);
  }

  lemma SendingRoundTrip(r: Reply)
    requires r.Sending? && IsWord(r.name)
    ensures NextAnswerOf(ReplyLine(r)) == Incoming(r)
  {
    var fs := [W(r.name), N(r.lidar), N(r.first), N(r.last), N(r.count), N(r.orig), N(r.comp)];
    SendingFields(fs);
    assert IncomingOf(fs) == Incoming(r);
  }

  lemma EmptyRoundTrip(r: Reply)
    requires r.Empty? && IsWord(r.name)
    ensures NextAnswerOf(ReplyLine(r)) == Drained(r.name, r.lidar)
  {
    var fs := [W(r.name), N(r.lidar)];
    KeywordFirst("EMPTY", fs);
    assert Conversions(fs) == [Word, Int];
    AnswerEmpty(ReplyLine(r), fs);
  }

  lemma AnswerRequested(rec: string, f: seq<Field>)
    requires StartsWith(rec, "SENDING REQUESTED") && ScanAfter(rec, [Word, Word, Int, Int]) == Some(f)
    requires |f| == 4 && f[2].N? && f[3].N?
    ensures FileAnswerOf(rec) == Some((f[2].number, f[3].number))
  {
  }

  lemma RequestedPrefix(tail: string)
    ensures StartsWith("SENDING" + (" " + "REQUESTED" + tail), "SENDING REQUESTED")
  {
    assert "SENDING" + (" " + "REQUESTED" + tail) == "SENDING REQUESTED" + tail;
  }

  lemma {:induction false} RequestedFields(fs: seq<Field>)
    requires |fs| == 4 && fs[0] == W("REQUESTED") && fs[1].W? && fs[2].N? && fs[3].N? && Printable(fs)
    ensures FileAnswerOf("SENDING" + PrintFields(fs)) == Some((fs[2].number, fs[3].number))
  {
    KeywordFirst("SENDING", fs);
    assert Conversions(fs) == [Word, Word, Int, Int];
    RequestedPrefix(PrintFields(fs[1..]));
    AnswerRequested("SENDING" + PrintFields(fs), fs);
  }

  lemma RequestedRoundTrip(r: Reply)
    requires r.Requested? && IsWord(r.path)
    ensures FileAnswerOf(ReplyLine(r)) == Some((r.orig, r.comp))
  {
    RequestedFields([W("REQUESTED"), W(r.path), N(r.orig), N(r.comp)]);
  }

  lemma AnswerError(why: string)
    ensures NextAnswerOf("ERROR" + why) == Failed
  {
    assert ("ERROR" + why)[..5] == "ERROR";
  }

  lemma AnswerPlain()
    ensures NextAnswerOf("NO_TR") == Finished && NextAnswerOf("WAIT") == Waiting
  {
    assert "NO_TR"[0] == 'N' && "WAIT"[0] == 'W' && "ERROR"[0] == 'E' && "SENDING"[0] == 'S' && "EMPTY"[0] == 'E';
  }

  /** The answer to SEND_NEXT is understood as it was meant, whichever it is. */
  lemma NextAnswerRoundTrip(r: Reply)
    requires r.NoTr? || r.Wait? || r.Error? || r.Sending? || r.Empty?
    requires r.Sending? || r.Empty? ==> IsWord(r.name)
    ensures NextAnswerOf(ReplyLine(r)) ==
            match r
            case NoTr => Finished
            case Wait => Waiting
            case Sending(_, _, _, _, _, _, _) => Incoming(r)
            case Empty(name, lidar) => Drained(name, lidar)
            case _ => Failed
  {
    match r
    case Sending(_, _, _, _, _, _, _) => SendingRoundTrip(r);
    case Empty(_, _) => EmptyRoundTrip(r);
    case Error(why) => AnswerError(why);
    case _ => AnswerPlain();
  }

  /** What the client's main loop reads from the answer to STATUS. */
  function StatusOf(rec: string): Option<int> {
    match ScanAfter(rec, [Int])
    case None => None
    case Some(f) => if |f| == 1 && f[0].N? then Some(f[0].number) else None
  }

  lemma StatusRoundTrip(n: int)
    ensures StatusOf("STATUS:" + PrintFields([N(n)])) == Some(n)
  {
    assert Conversions([N(n)]) == [Int];
    KeywordFirst("STATUS:", [N(n)]);
  }

  /** An acknowledgement is never taken for an error, so a removal that was done is known to be done. */
  lemma AcknowledgementIsNoError(r: Reply)
    requires r.FileRemoved? || r.DirRemoved? || r.Requested?
    ensures !StartsWith(ReplyLine(r), "ERROR")
  {
    assert ReplyLine(r)[0] != "ERROR"[0];
  }

  /** Of an answer that is cut short, and taken for a whole line, the loop sees what its tests can still tell. */
  lemma CutAnswers(k: nat)
    ensures k <= 5 ==> NextAnswerOf("NO_TR"[..k]) == if k >= 4 then Finished else Nothing
    ensures k <= 4 ==> NextAnswerOf("WAIT"[..k]) == if k == 4 then Waiting else Nothing
    ensures k < 5 ==> NextAnswerOf("EMPTY"[..k]) == Nothing && NextAnswerOf("ERROR"[..k]) == Nothing
    ensures k < 7 ==> NextAnswerOf("SENDING"[..k]) == Nothing
  {
    assert "NO_TR"[0] == 'N' && "WAIT"[0] == 'W' && "ERROR"[0] == 'E' && "SENDING"[0] == 'S' && "EMPTY"[0] == 'E';
    assert "ERROR"[1] == 'R' && "EMPTY"[1] == 'M' && "NO_T" <= "NO_TR";
  }

  // ---------- file names ----------

  const LOG := "/voxl-logger/log"
  const TOF := "/run/mpa/tof/data_"

  /** A point cloud's path below the data directory, as SendNext and RemoveFile build it. */
  function CloudPath(name: string, lidar: nat, n: int): string {
    name + LOG + Pad4(lidar) + TOF + PrintInt(n) + ".pcd"
  }

  lemma CancelTail(a: string, b: string, tail: string)
    requires a + tail == b + tail
    ensures a == b
  {
    assert |a| == |b|;
    assert (a + tail)[..|a|] == a && (b + tail)[..|a|] == b;
  }

  lemma CancelHead(head: string, a: string, b: string)
    requires head + a == head + b
    ensures a == b
  {
    assert (head + a)[|head|..] == a && (head + b)[|head|..] == b;
  }

  lemma SplitEqual(a: string, b: string, c: string, d: string)
    requires a + c == b + d && |a| == |b|
    ensures a == b && c == d
  {
    assert (a + c)[..|a|] == a && (b + d)[..|a|] == b;
    assert (a + c)[|a|..] == c && (b + d)[|a|..] == d;
  }

  lemma PrintIntInjective(m: int, n: int)
    requires PrintInt(m) == PrintInt(n)
    ensures m == n
  {
    ScanSignedPrinted(m, "");
    ScanSignedPrinted(n, "");
    assert PrintInt(m) + "" == PrintInt(m) && PrintInt(n) + "" == PrintInt(n);
  }

  lemma PadTwo(lidar: nat)
    requires lidar < 2
    ensures Pad4(lidar) == (if lidar == 0 then "0000" else "0001")
  {
    assert Digits(lidar) == (if lidar == 0 then "0" else "1");
  }

  lemma PadInjective(i: nat, j: nat)
    requires i < 2 && j < 2
    ensures |Pad4(i)| == 4
    ensures Pad4(i) == Pad4(j) ==> i == j
  {
    PadTwo(i);
    PadTwo(j);
    assert "0000"[3] != "0001"[3];
  }

  lemma CloudTailInjective(m: int, n: int)
    requires TOF + PrintInt(m) + ".pcd" == TOF + PrintInt(n) + ".pcd"
    ensures m == n
  {
    CancelTail(TOF + PrintInt(m), TOF + PrintInt(n), ".pcd");
    CancelHead(TOF, PrintInt(m), PrintInt(n));
    PrintIntInjective(m, n);
  }

  lemma Regroup(a: string, b: string, c: string, d: string, e: string, f: string)
    ensures a + b + c + d + e + f == a + (b + (c + (d + e + f)))
  {
  }

  lemma CloudPathParts(name: string, lidar: nat, n: int)
    ensures CloudPath(name, lidar, n) == name + (LOG + (Pad4(lidar) + (TOF + PrintInt(n) + ".pcd")))
  {
    Regroup(name, LOG, Pad4(lidar), TOF, PrintInt(n), ".pcd");
  }

  /** Different point clouds have different paths. */
  lemma CloudPathInjective(a: string, i: nat, m: int, b: string, j: nat, n: int)
    requires |a| == |b| && i < 2 && j < 2 && CloudPath(a, i, m) == CloudPath(b, j, n)
    ensures a == b && i == j && m == n
  {
    var s, t := TOF + PrintInt(m) + ".pcd", TOF + PrintInt(n) + ".pcd";
    CloudPathParts(a, i, m);
    CloudPathParts(b, j, n);
    PadInjective(i, j);
    PadInjective(j, i);
    SplitEqual(a, b, LOG + (Pad4(i) + s), LOG + (Pad4(j) + t));
    CancelHead(LOG, Pad4(i) + s, Pad4(j) + t);
    SplitEqual(Pad4(i), Pad4(j), s, t);
    CloudTailInjective(m, n);
  }

  /** The removal that follows the receipt of a point cloud: the client reads the announcement, prints the command,
      and the server reads it and builds a path. */
  function RemovedPath(announcement: string): Option<string> {
    match NextAnswerOf(announcement)
    case Incoming(r) =>
      (match Dispatch(CommandLine(RemoveFile(r.name, r.lidar, r.first)))
       case Handle(RemoveFile(name, lidar, n)) => if lidar >= 0 then Some(CloudPath(name, lidar, n)) else None
       case _ => None)
    case _ => None
  }

  lemma StampChars(s: string)
    requires IsStampShaped(s)
    ensures forall i | 0 <= i < |s| :: IsDigit(s[i]) || s[i] == '-'
  {
    forall i | 0 <= i < |s| ensures IsDigit(s[i]) || s[i] == '-' {
      assert i < 4 ==> s[0..4][i] == s[i];
      assert 4 <= i < 6 ==> s[4..6][i - 4] == s[i];
      assert 6 <= i < 8 ==> s[6..8][i - 6] == s[i];
      assert 9 <= i < 11 ==> s[9..11][i - 9] == s[i];
      assert 11 <= i < 13 ==> s[11..13][i - 11] == s[i];
      assert 13 <= i ==> s[13..15][i - 13] == s[i];
    }
  }

  lemma StampIsWord(s: string)
    requires IsStampShaped(s)
    ensures IsWord(s)
  {
    StampChars(s);
  }

  lemma RemovesWhatWasSent(r: Reply)
    requires r.Sending? && IsWord(r.name) && 0 <= r.lidar
    ensures RemovedPath(ReplyLine(r)) == Some(CloudPath(r.name, r.lidar, r.first))
  {
    SendingRoundTrip(r);
    CommandRoundTrip(RemoveFile(r.name, r.lidar, r.first));
  }

  /** The file removed after a transfer is the file that was sent, and no other. */
  lemma SameFileSentAndRemoved(r: Reply, name: string, lidar: nat, n: int)
    requires r.Sending? && IsStamp(r.name) && 0 <= r.lidar < 2
    requires IsStamp(name) && lidar < 2
    ensures RemovedPath(ReplyLine(r)) == Some(CloudPath(name, lidar, n)) <==>
              name == r.name && lidar == r.lidar && n == r.first
  {
    StampIsWord(r.name);
    RemovesWhatWasSent(r);
    if CloudPath(name, lidar, n) == CloudPath(r.name, r.lidar, r.first) {
      CloudPathInjective(name, lidar, n, r.name, r.lidar, r.first);
    }
  }

  /** The name of a point cloud in its directory. */
  function CloudName(n: nat): string {
    "data_" + PrintInt(n) + ".pcd"
  }

  /** scanf("%*[^_]_%d.%*s"); None when the number is not there and the code returns an uninitialised one. */
  function ExtractFileNumber(name: string): Option<int> {
    var i := Span(name, c => c != '_');
    if i == 0 || i == |name| then None
    else
      match ScanInt(name[i + 1..])
      case None => None
      case Some((n, _)) => Some(n)
  }

  lemma ExtractsNumber(n: nat)
    ensures ExtractFileNumber(CloudName(n)) == Some(n)
  {
    var name := CloudName(n);
    var rest := "_" + PrintInt(n) + ".pcd";
    assert name == "data" + rest;
    SpanStops("data", rest, c => c != '_');
    assert name[5..] == PrintInt(n) + ".pcd";
    ScanIntPrinted(n, ".pcd");
  }

  /** Of any name the number is what follows the first underscore, if something stands before it; and there is none
      otherwise. */
  lemma ExtractIff(name: string, n: int)
    ensures ExtractFileNumber(name) == Some(n) <==>
              exists head, tail, rest ::
                && name == head + ("_" + tail) && head != "" && '_' !in head && ScanInt(tail) == Some((n, rest))
  {
    hide ScanInt;
    var p := c => c != '_';
    var i := Span(name, p);
    SpanSplits(name, p);
    if ExtractFileNumber(name) == Some(n) {
      var head, tail := name[..i], name[i + 1..];
      assert name == head + ("_" + tail) && '_' !in head;
      assert ScanInt(tail) == Some((n, ScanInt(tail).value.1));
    }
    if head, tail, rest :|
        name == head + ("_" + tail) && head != "" && '_' !in head && ScanInt(tail) == Some((n, rest)) {
      NumberFollows(head, tail);
    }
  }

  lemma NumberFollows(head: string, tail: string)
    requires head != "" && '_' !in head && ScanInt(tail).Some?
    ensures ExtractFileNumber(head + ("_" + tail)) == Some(ScanInt(tail).value.0)
  {
    hide ScanInt;
    var name := head + ("_" + tail);
    SpanStops(head, "_" + tail, c => c != '_');
    assert name[|head| + 1..] == tail;
  }
}
