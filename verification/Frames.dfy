/**
 Receiving a file: a header line, the compressed bytes, and a line "END". Whatever the chunks and wherever the stream
 ends, the client stores the file that was sent or nothing.
 */
module Frames {
  import opened Basics
  import opened Text
  import opened Timestamps
  import opened Wire
  import opened Streams

  /** zlib, as the programs use it: compress a buffer, and uncompress it given the original length. */
  datatype Codec = Codec(compress: Bytes -> Bytes, uncompress: (Bytes, int) -> Option<Bytes>)

  ghost predicate Lawful(z: Codec) {
    forall x: Bytes :: z.uncompress(z.compress(x), |x|) == Some(x)
  }

  const END: Bytes := [69, 78, 68]

  /** How the receipt of a file ends: it is stored, an error code is returned, or the thread exits. */
  datatype Outcome = Stored(content: Bytes) | Returned(code: int) | Exited(code: int)

  /** What ReceiveAndDecompress does with the compressed bytes and the line that follows them. */
  function Judge(z: Codec, payload: Bytes, origLen: int, got: LineRead): Outcome {
    if got.ret == EOF || got.ret == 0 then Exited(-2)
    else if !(END <= got.line) then Returned(-4)
    else
      match z.uncompress(payload, origLen)
      case None => Returned(-2)
      case Some(x) => Stored(x)
  }

  /** A file is accepted if and only if a line follows its bytes that begins with END, and they decompress. */
  lemma AcceptedIff(z: Codec, payload: Bytes, origLen: int, got: LineRead, x: Bytes)
    ensures Judge(z, payload, origLen, got) == Stored(x) <==>
              && got.ret != EOF && got.ret != 0 && |got.line| >= 3
              && got.line[0] as char == 'E' && got.line[1] as char == 'N' && got.line[2] as char == 'D'
              && z.uncompress(payload, origLen) == Some(x)
  {
  }

  /** The line that comes next fits a buffer of BUFSIZ + 1 characters, however the stream is cut into chunks. */
  ghost predicate NextLineFits(s: Bytes, broken: bool) {
    forall r: Reader | IsChunked(r.chunks) && Unread(r) == s && r.broken == broken :: |ReadLine(r).line| <= BUFSIZ
  }

  function Max0(n: int): nat {
    if n < 0 then 0 else n
  }

  /** The outcome is the verdict on the first n bytes of s and the line that follows them; `rest` is left to read. */
  ghost predicate Judged(z: Codec, s: Bytes, n: nat, origLen: int, broken: bool, out: Outcome, rest: Reader)
    requires n <= |s|
  {
    exists r: Reader ::
      && IsChunked(r.chunks) && Unread(r) == s[n..] && r.broken == broken
      && out == Judge(z, s[..n], origLen, ReadLine(r)) && rest == ReadLine(r).rest
  }

  /** The loop that fills rec_buffer. When the stream ends early the rest of the buffer is filler. */
  method ReadPayload(sk: Connection, n: nat) returns (payload: array<byte>, failed: bool)
    requires sk.Valid()
    modifies sk`chunks, sk`dim, sk`i, sk.buffer
    ensures sk.Valid() && fresh(payload) && payload.Length == n
    ensures failed ==> |old(sk.Stream())| < n
    ensures !failed ==> sk.Stream() == if n <= |old(sk.Stream())| then old(sk.Stream())[n..] else []
    ensures !failed && n <= |old(sk.Stream())| ==> payload[..] == old(sk.Stream())[..n]
  {
    hide Unread;
    ghost var s := sk.Stream();
    payload, failed := new byte[n], false;
    for k := 0 to n
      invariant sk.Valid()
      invariant sk.Stream() == if k <= |s| then s[k..] else []
      invariant forall j | 0 <= j < k && j < |s| :: payload[j] == s[j]
    {
      var c;
      c, failed := sk.BinaryGetChar();
      if failed {
        return;
      }
      payload[k] := ByteOf(c);
      if k < |s| {
        CharRoundTrip(s[k]);
      }
    }
  }

  /** ReceiveAndDecompress: when the stream ends within the compressed bytes nothing is stored; otherwise the outcome
      depends on these bytes and on the next line alone. */
  method ReceiveAndDecompress(sk: Connection, z: Codec, recLen: int, origLen: int) returns (out: Outcome)
    requires sk.Valid()
    requires NextLineFits(if Max0(recLen) <= |sk.Stream()| then sk.Stream()[Max0(recLen)..] else [], sk.broken)
    modifies sk`chunks, sk`dim, sk`i, sk.buffer
    ensures sk.Valid()
    ensures |old(sk.Stream())| < recLen ==> out == Exited(-2)
    ensures |old(sk.Stream())| >= recLen ==>
              Judged(z, old(sk.Stream()), Max0(recLen), origLen, sk.broken, out, sk.View())
  {
    hide ReadLine, Unread;
    var recBuffer, failed := ReadPayload(sk, Max0(recLen));
    if failed {
      return Exited(-2);
    }
    var rec := new byte[BUFSIZ + 1];
    ghost var r := sk.View();
    if |old(sk.Stream())| < recLen {
      NothingUnread(r);
    }
    var ret := sk.ReadLineInto(rec);
    if ret == EOF || ret == 0 {
      out := Exited(-2);
    } else if rec[..|END|] != END {
      EndTest(rec[..], ReadLine(r).line);
      out := Returned(-4);
    } else {
      EndTest(rec[..], ReadLine(r).line);
      var content := z.uncompress(recBuffer[..], origLen);
      out := match content case None => Returned(-2) case Some(x) => Stored(x);
    }
  }

  /** Comparing the first characters of the buffer, up to its terminating 0, is comparing those of the line. */
  lemma EndTest(rec: Bytes, line: Bytes)
    requires |line| < |rec| && |rec| >= 3 && rec[..|line|] == line && rec[|line|] == 0
    ensures rec[..|END|] == END <==> END <= line
  {
    if |line| < 3 {
      assert rec[..3][|line|] == 0;
    } else {
      assert rec[..3] == line[..3];
    }
  }

  // ---------- complete and truncated files ----------

  /** The compressed file and its end mark. */
  function Body(z: Codec, x: Bytes): Bytes {
    z.compress(x) + END + [NL]
  }

  lemma EndIsRead(r: Reader, more: Bytes)
    requires IsChunked(r.chunks) && Unread(r) == END + [NL] + more
    ensures var got := ReadLine(r); got.ret == 3 && got.line == END && Unread(got.rest) == more
  {
    LineIsRead(r, END, more);
  }

  /** Of an end mark that is cut short, k characters are left. */
  lemma CutEndIsRead(r: Reader, k: nat)
    requires IsChunked(r.chunks) && k <= 3 && Unread(r) == END[..k]
    ensures var got := ReadLine(r); got.line == END[..k] && got.ret == (if r.broken then EOF else k)
  {
    CutLineIsRead(r, END[..k]);
  }

  lemma BodyFits(z: Codec, x: Bytes, s: Bytes, broken: bool)
    requires Body(z, x) <= s || s <= Body(z, x)
    ensures NextLineFits(if |z.compress(x)| <= |s| then s[|z.compress(x)|..] else [], broken)
  {
    var n := |z.compress(x)|;
    var t := if n <= |s| then s[n..] else [];
    forall r: Reader | IsChunked(r.chunks) && Unread(r) == t && r.broken == broken
      ensures |ReadLine(r).line| <= BUFSIZ
    {
      BodyRest(z, x, s, t, r);
    }
  }

  /** Behind the compressed bytes comes the end mark, or the part of it that is left. */
  lemma BodyRest(z: Codec, x: Bytes, s: Bytes, t: Bytes, r: Reader)
    requires Body(z, x) <= s || s <= Body(z, x)
    requires t == if |z.compress(x)| <= |s| then s[|z.compress(x)|..] else []
    requires IsChunked(r.chunks) && Unread(r) == t
    ensures Body(z, x) <= s ==>
              ReadLine(r).ret == 3 && ReadLine(r).line == END && Unread(ReadLine(r).rest) == s[|Body(z, x)|..]
    ensures |z.compress(x)| <= |s| < |Body(z, x)| ==>
              ReadLine(r).line == END[..|s| - |z.compress(x)|]
              && ReadLine(r).ret == (if r.broken then EOF else |s| - |z.compress(x)|)
    ensures |ReadLine(r).line| <= 3
  {
    hide ReadLine;
    var n := |z.compress(x)|;
    if Body(z, x) <= s {
      var more := s[|Body(z, x)|..];
      assert s == Body(z, x) + more;
      assert t == END + [NL] + more;
      EndIsRead(r, more);
    } else if n <= |s| {
      assert s == Body(z, x)[..|s|];
      assert t == END[..|s| - n];
      CutEndIsRead(r, |s| - n);
    } else {
      NothingUnread(r);
    }
  }

  /** The outcome of a body of which k characters of the end mark have arrived; k is negative when not even the
      compressed bytes have. */
  function CutBody(x: Bytes, k: int, broken: bool): Outcome {
    if k <= 0 || broken then Exited(-2)
    else if k < |END| then Returned(-4)
    else Stored(x)
  }

  /** The verdict on a body, whole or cut within its end mark. */
  lemma JudgeBody(z: Codec, x: Bytes, s: Bytes, r: Reader)
    requires Lawful(z) && |s| >= |z.compress(x)| && (Body(z, x) <= s || s <= Body(z, x))
    requires IsChunked(r.chunks) && Unread(r) == s[|z.compress(x)|..]
    ensures var out := Judge(z, s[..|z.compress(x)|], |x|, ReadLine(r));
            && (Body(z, x) <= s ==> out == Stored(x) && Unread(ReadLine(r).rest) == s[|Body(z, x)|..])
            && (!(Body(z, x) <= s) ==> out == CutBody(x, |s| - |z.compress(x)|, r.broken))
  {
    hide ReadLine, Unread;
    var n, body := |z.compress(x)|, Body(z, x);
    BodyRest(z, x, s, s[n..], r);
    assert s[..n] == z.compress(x) by {
      assert body[..n] == z.compress(x);
      assert if body <= s then s[..n] == body[..n] else s == body[..|s|];
    }
  }

  lemma NothingFits(broken: bool)
    ensures NextLineFits([], broken)
  {
    forall r: Reader | IsChunked(r.chunks) && Unread(r) == [] && r.broken == broken
      ensures |ReadLine(r).line| <= BUFSIZ
    {
      NothingUnread(r);
    }
  }

  /** What the stream holds behind a header: the body of a file x or a part of it or, if the header was cut short,
      nothing; in that case the sizes can be anything. */
  ghost predicate BodyComes(z: Codec, x: Bytes, cut: bool, s: Bytes, recLen: int, origLen: int) {
    if cut then s == []
    else recLen == |z.compress(x)| && origLen == |x| && (Body(z, x) <= s || s <= Body(z, x))
  }

  /** From a whole body x is stored and the cursor is left behind it. From less the outcome depends on how much has
      arrived and on how the stream ended: x is stored if and only if only the final newline is missing and it was
      closed in order. */
  method ReceiveBody(sk: Connection, z: Codec, ghost cut: bool, ghost x: Bytes, recLen: int, origLen: int)
    returns (out: Outcome)
    requires sk.Valid() && Lawful(z) && BodyComes(z, x, cut, sk.Stream(), recLen, origLen)
    modifies sk`chunks, sk`dim, sk`i, sk.buffer
    ensures sk.Valid()
    ensures cut ==> out == Exited(-2)
    ensures !cut && Body(z, x) <= old(sk.Stream()) ==>
              out == Stored(x) && sk.Stream() == old(sk.Stream())[|Body(z, x)|..]
    ensures !cut && !(Body(z, x) <= old(sk.Stream())) ==>
              out == CutBody(x, |old(sk.Stream())| - |z.compress(x)|, sk.broken)
  {
    hide ReadLine, Unread, Judge, Judged, Lawful, NextLineFits, Body;
    ghost var s := sk.Stream();
    BodyIsNotShort(z, x);
    if cut {
      NothingFits(sk.broken);
    } else {
      BodyFits(z, x, s, sk.broken);
    }
    out := ReceiveAndDecompress(sk, z, recLen, origLen);
    if |s| >= recLen {
      JudgedBody(z, cut, x, s, recLen, origLen, sk.broken, out, sk.View());
    }
  }

  lemma BodyIsNotShort(z: Codec, x: Bytes)
    ensures |Body(z, x)| == |z.compress(x)| + 4
  {
  }

  lemma JudgedBody(z: Codec, cut: bool, x: Bytes, s: Bytes, recLen: int, origLen: int, broken: bool, out: Outcome,
      rest: Reader)
    requires Lawful(z) && BodyComes(z, x, cut, s, recLen, origLen) && |s| >= recLen
    requires Judged(z, s, Max0(recLen), origLen, broken, out, rest)
    ensures cut ==> out == Exited(-2)
    ensures !cut && Body(z, x) <= s ==> out == Stored(x) && Unread(rest) == s[|Body(z, x)|..]
    ensures !cut && !(Body(z, x) <= s) ==> out == CutBody(x, |s| - |z.compress(x)|, broken)
  {
    hide ReadLine, Unread, Judge, Lawful, Body;
    var n := Max0(recLen);
    var r: Reader :| IsChunked(r.chunks) && Unread(r) == s[n..] && r.broken == broken
                     && out == Judge(z, s[..n], origLen, ReadLine(r)) && rest == ReadLine(r).rest;
    if cut {
      JudgeNothing(z, s[..n], origLen, r);
    } else {
      JudgeBody(z, x, s, r);
    }
  }

  lemma JudgeNothing(z: Codec, payload: Bytes, origLen: int, r: Reader)
    requires IsChunked(r.chunks) && Unread(r) == []
    ensures Judge(z, payload, origLen, ReadLine(r)) == Exited(-2)
  {
    NothingUnread(r);
  }

  // ---------- with the announcement in front ----------

  /** Printable ASCII. */
  predicate Plain(s: string) {
    forall i | 0 <= i < |s| :: ' ' <= s[i] <= '~'
  }

  function ToBytes(s: string): (b: Bytes)
    requires Plain(s)
    ensures |b| == |s|
  {
    seq(|s|, i requires 0 <= i < |s| => s[i] as int)
  }

  function ToText(b: Bytes): (s: string)
    ensures |s| == |b|
  {
    seq(|b|, i requires 0 <= i < |b| => b[i] as char)
  }

  lemma PlainIsClean(s: string)
    requires Plain(s)
    ensures Clean(ToBytes(s)) && ToText(ToBytes(s)) == s
  {
  }

  /** The sizes a header line announces, original and compressed; Unassigned when scanf leaves one without a value. */
  datatype Sizes = Announced(orig: int, comp: int) | Unassigned | NoFile

  function SizesOf(text: string, requested: bool): Sizes {
    if StartsWith(text, "ERROR") then NoFile
    else if requested then
      if !StartsWith(text, "SENDING REQUESTED") then NoFile
      else match FileAnswerOf(text) case None => Unassigned case Some((orig, comp)) => Announced(orig, comp)
    else if !StartsWith(text, "SENDING") then NoFile
    else
      match NextAnswerOf(text)
      case Incoming(r) => if r.Sending? then Announced(r.orig, r.comp) else Unassigned
      case _ => Unassigned
  }

  /** Of any line, whole or cut, the client awaits a file exactly if it begins with the words of an announcement. */
  lemma AwaitsFileIff(text: string)
    ensures SizesOf(text, false) != NoFile <==> StartsWith(text, "SENDING")
    ensures SizesOf(text, true) != NoFile <==> StartsWith(text, "SENDING REQUESTED")
  {
    hide NextAnswerOf, FileAnswerOf;
    assert "ERROR"[0] == 'E' && "SENDING"[0] == 'S' && "SENDING REQUESTED"[0] == 'S';
  }

  /** A reply on the wire: a line and, if it announces a file, its compressed bytes and end mark. */
  function ReplyFrame(z: Codec, header: string, file: Option<Bytes>): Bytes
    requires Plain(header)
  {
    ToBytes(header) + [NL] + Tail(z, file)
  }

  function Tail(z: Codec, file: Option<Bytes>): Bytes {
    match file case None => [] case Some(x) => Body(z, x)
  }

  /** The line fits the line buffers, and the client takes it for the announcement of this file or of none. */
  ghost predicate Announces(z: Codec, header: string, requested: bool, file: Option<Bytes>) {
    && Plain(header) && 0 < |header| <= BUFSIZ
    && SizesOf(header, requested) == match file case None => NoFile case Some(x) => Announced(|x|, |z.compress(x)|)
  }

  /** The outcome of a reply of which only the first n bytes arrive. */
  function CutReply(z: Codec, header: string, file: Option<Bytes>, requested: bool, n: nat, broken: bool): Outcome {
    if n <= |header| then
      if n == 0 || broken || SizesOf(header[..n], requested) != NoFile then Exited(-2) else Returned(-5)
    else
      match file case None => Returned(-5) case Some(x) => CutBody(x, n - |header| - 1 - |z.compress(x)|, broken)
  }

  lemma HeaderFits(header: string, tail: Bytes, r: Reader)
    requires Plain(header) && IsChunked(r.chunks)
    requires ToBytes(header) + [NL] + tail <= Unread(r) || Unread(r) <= ToBytes(header) + [NL] + tail
    ensures var s := Unread(r);
            && (|s| > |header| ==> ReadLine(r).ret == |header| && ReadLine(r).line == ToBytes(header)
                                   && Unread(ReadLine(r).rest) == s[|header| + 1..])
            && (|s| <= |header| ==> ReadLine(r).line == ToBytes(header)[..|s|] && Unread(ReadLine(r).rest) == []
                                    && ReadLine(r).ret == (if r.broken then EOF else |s|))
  {
    hide ReadLine, Unread;
    var s, line, whole := Unread(r), ToBytes(header), ToBytes(header) + [NL] + tail;
    PlainIsClean(header);
    if |s| > |header| {
      assert s[..|header| + 1] == whole[..|header| + 1] == line + [NL];
      assert s == line + [NL] + s[|header| + 1..];
      LineIsRead(r, line, s[|header| + 1..]);
    } else {
      assert s == whole[..|s|] == line[..|s|];
      CutLineIsRead(r, s);
    }
  }

  lemma BehindHeader(header: string, tail: Bytes, s: Bytes)
    requires Plain(header) && |s| > |header|
    requires var whole := ToBytes(header) + [NL] + tail; whole <= s || s <= whole
    ensures tail <= s[|header| + 1..] || s[|header| + 1..] <= tail
    ensures tail <= s[|header| + 1..] <==> ToBytes(header) + [NL] + tail <= s
  {
    var whole, n := ToBytes(header) + [NL] + tail, |header| + 1;
    assert whole[n..] == tail && s[..n] == whole[..n];
    assert s == s[..n] + s[n..] && whole == whole[..n] + whole[n..];
  }

  lemma CutText(header: string, n: nat)
    requires Plain(header) && n <= |header|
    ensures ToText(ToBytes(header)[..n]) == header[..n]
  {
  }

  /** Receiving a reply, from any stream that starts with its frame or ends within it, in any chunks. From a whole
      frame the line and exactly the file are received, and the cursor is left behind it. From a part of it nothing is
      received but by the rules of CutReply: the file if and only if nothing but the last newline is missing and the
      stream ended in order. `garbage` are the values of variables that scanf does not assign. */
  method ReceiveReply(sk: Connection, z: Codec, requested: bool, garbage: (int, int), ghost header: string,
      ghost file: Option<Bytes>)
    returns (text: string, out: Outcome)
    requires sk.Valid() && Lawful(z) && Announces(z, header, requested, file)
    requires ReplyFrame(z, header, file) <= sk.Stream() || sk.Stream() <= ReplyFrame(z, header, file)
    modifies sk`chunks, sk`dim, sk`i, sk.buffer
    ensures sk.Valid()
    ensures ReplyFrame(z, header, file) <= old(sk.Stream()) ==>
              && text == header && out == (match file case None => Returned(-5) case Some(x) => Stored(x))
              && sk.Stream() == old(sk.Stream())[|ReplyFrame(z, header, file)|..]
    ensures !(ReplyFrame(z, header, file) <= old(sk.Stream())) ==>
              out == CutReply(z, header, file, requested, |old(sk.Stream())|, sk.broken)
  {
    hide ReadLine, Unread, SizesOf, Lawful, Body, Plain, Clean;
    ghost var s, tail := sk.Stream(), Tail(z, file);
    HeaderFits(header, tail, sk.View());
    PlainIsClean(header);
    text := "";
    var rec := new byte[BUFSIZ + 1];
    var ret := sk.ReadLineInto(rec);
    if ret == EOF || ret == 0 {
      return text, Exited(-2);
    }
    text := ToText(rec[..ret]);
    if |s| > |header| {
      assert rec[..ret] == ToBytes(header);
      BehindHeader(header, tail, s);
    } else {
      CutText(header, |s|);
    }
    var sizes := SizesOf(text, requested);
    if sizes.NoFile? {
      return text, Returned(-5);
    }
    var recLen, origLen := garbage.0, garbage.1;
    if sizes.Announced? {
      recLen, origLen := sizes.comp, sizes.orig;
    }
    ghost var x := if file.Some? then file.value else [];
    BodyIsNotShort(z, x);
    out := ReceiveBody(sk, z, |s| <= |header|, x, recLen, origLen);
  }

  // ---------- the server's announcements ----------

  lemma {:induction false} PlainFields(fs: seq<Field>)
    requires forall i | 0 <= i < |fs| :: fs[i].W? ==> Plain(fs[i].word)
    ensures Plain(PrintFields(fs))
  {
    if fs != [] {
      PlainFields(fs[1..]);
      assert Plain(FieldText(fs[0]));
    }
  }

  /** Numbers of 64 bits. */
  predicate Fits64(n: int) {
    -0x8000_0000_0000_0000 <= n < 0x8000_0000_0000_0000
  }

  lemma NumberFits(n: int)
    requires Fits64(n)
    ensures |PrintInt(n)| <= 20
  {
    assert Power10(19) == 10000000000000000000 by {
      assert Power10(5) == 100000;
      assert Power10(10) == 100000 * Power10(5);
      assert Power10(15) == 100000 * Power10(10);
      assert Power10(19) == 10000 * Power10(15);
    }
    DigitsLength(if n < 0 then -n else n, 19);
  }

  lemma {:induction false} FieldsFit(fs: seq<Field>)
    requires forall i | 0 <= i < |fs| :: if fs[i].W? then |fs[i].word| <= 256 else Fits64(fs[i].number)
    ensures |PrintFields(fs)| <= 257 * |fs|
  {
    if fs != [] {
      FieldsFit(fs[1..]);
      FieldFits(fs[0]);
    }
  }

  lemma FieldFits(f: Field)
    requires if f.W? then |f.word| <= 256 else Fits64(f.number)
    ensures |FieldText(f)| <= 256
  {
    if f.N? {
      NumberFits(f.number);
    }
  }

  lemma StampIsPlain(s: string)
    requires IsStamp(s)
    ensures Plain(s) && IsWord(s)
  {
    hide IsDate, DateOf;
    StampIsWord(s);
    StampChars(s);
  }

  /** A header that starts with SENDING and goes on with plain fields that fit. */
  lemma HeaderShape(fs: seq<Field>)
    requires fs != [] && |fs| <= 10 && Printable(fs)
    requires forall i | 0 <= i < |fs| ::
               if fs[i].W? then |fs[i].word| <= 256 && Plain(fs[i].word) else Fits64(fs[i].number)
    ensures var header := "SENDING" + PrintFields(fs);
            Plain(header) && 0 < |header| <= BUFSIZ && StartsWith(header, "SENDING") && !StartsWith(header, "ERROR")
  {
    hide PrintFields, ScanAfter;
    PlainFields(fs);
    FieldsFit(fs);
    KeywordFirst("SENDING", fs);
    assert "ERROR"[0] == 'E';
  }

  lemma StampLength(s: string)
    requires IsStamp(s)
    ensures |s| == 15
  {
  }

  /** The header that SendNext prints in front of a point cloud announces its sizes and fits the line buffers. */
  lemma SendingAnnounces(r: Reply)
    requires r.Sending? && IsStamp(r.name)
    requires Fits64(r.lidar) && Fits64(r.first) && Fits64(r.last) && Fits64(r.count) && Fits64(r.orig) && Fits64(r.comp)
    ensures var header := ReplyLine(r);
            Plain(header) && 0 < |header| <= BUFSIZ && SizesOf(header, false) == Announced(r.orig, r.comp)
  {
    hide IsStamp, PrintFields, NextAnswerOf;
    StampIsPlain(r.name);
    StampLength(r.name);
    HeaderShape([W(r.name), N(r.lidar), N(r.first), N(r.last), N(r.count), N(r.orig), N(r.comp)]);
    SendingRoundTrip(r);
  }

  /** So does the header in front of a requested file. */
  lemma RequestedAnnounces(r: Reply)
    requires r.Requested? && IsWord(r.path) && Plain(r.path) && |r.path| <= 256 && Fits64(r.orig) && Fits64(r.comp)
    ensures var header := ReplyLine(r);
            Plain(header) && 0 < |header| <= BUFSIZ && SizesOf(header, true) == Announced(r.orig, r.comp)
  {
    hide PrintFields, ScanAfter;
    HeaderShape([W("REQUESTED"), W(r.path), N(r.orig), N(r.comp)]);
    RequestedRoundTrip(r);
    assert StartsWith(ReplyLine(r), "SENDING REQUESTED");
  }
}
