/**
 The byte stream as the two programs read it: one buffer and cursor, shared by a reader of text lines and a reader of
 binary data, over a stream that arrives in arbitrary chunks and may end anywhere.
 */
module Streams {
  import opened Basics

  const BUFSIZ := 8192
  const EOF := -1
  const NL: byte := 10

  /** What can still be read: the unread part of the buffer, then the chunks that later reads will deliver. After the
      last chunk a read returns 0 for ever or, on a broken connection, -1. */
  datatype Reader = Reader(buffered: Bytes, chunks: seq<Bytes>, broken: bool)

  function Flatten(chunks: seq<Bytes>): Bytes {
    if chunks == [] then [] else chunks[0] + Flatten(chunks[1..])
  }

  lemma {:induction false} FlattenAppend(a: seq<Bytes>, b: seq<Bytes>)
    ensures Flatten(a + b) == Flatten(a) + Flatten(b)
  {
    if a == [] {
      assert a + b == b;
    } else {
      var ab := a + b;
      assert ab[0] == a[0] && ab[1..] == a[1..] + b;
      FlattenAppend(a[1..], b);
      Regroup(a[0], Flatten(a[1..]), Flatten(b));
    }
  }

  lemma Regroup(a: Bytes, b: Bytes, c: Bytes)
    ensures a + (b + c) == (a + b) + c
  {
  }

  predicate IsChunked(chunks: seq<Bytes>) {
    forall k | 0 <= k < |chunks| :: 1 <= |chunks[k]| <= BUFSIZ
  }

  function Unread(r: Reader): Bytes {
    r.buffered + Flatten(r.chunks)
  }

  /** A byte as a (signed) char; 0xFF is taken for EOF. */
  function CharOf(b: byte): int {
    if b < 128 then b else b - 256
  }

  function ByteOf(c: int): byte {
    c % 256
  }

  lemma CharRoundTrip(b: byte)
    ensures ByteOf(CharOf(b)) == b
  {
  }

  /** tcp_getchar_bs: a 0 in the buffer means "read on from the socket". */
  function TextGet(r: Reader): (int, Reader)
    requires IsChunked(r.chunks)
  {
    if r.buffered != [] && r.buffered[0] != 0 then (CharOf(r.buffered[0]), r.(buffered := r.buffered[1..]))
    else if r.chunks == [] then (if r.broken then EOF else 0, r.(buffered := []))
    else (CharOf(r.chunks[0][0]), Reader(r.chunks[0][1..], r.chunks[1..], r.broken))
  }

  datatype LineRead = LineRead(ret: int, line: Bytes, rest: Reader)

  predicate EndsLine(c: int) {
    c == 0 || c == CharOf(NL) || c == EOF
  }

  lemma TextGetShrinks(r: Reader)
    requires IsChunked(r.chunks)
    ensures var (c, rest) := TextGet(r);
            && IsChunked(rest.chunks) && rest.broken == r.broken
            && |Unread(rest)| <= |Unread(r)| && (!EndsLine(c) ==> |Unread(rest)| < |Unread(r)|)
  {
  }

  /** tcp_readline: the return value, the characters stored, and what is left to read. */
  function ReadLine(r: Reader): LineRead
    requires IsChunked(r.chunks)
    decreases |Unread(r)|
  {
    var (c, rest) := TextGet(r);
    TextGetShrinks(r);
    if c == EOF then LineRead(EOF, [], rest)
    else if EndsLine(c) then LineRead(0, [], rest)
    else
      var more := ReadLine(rest);
      LineRead(if more.ret == EOF then EOF else more.ret + 1, [ByteOf(c)] + more.line, more.rest)
  }

  /** Text that the line reader understands: no newline, no 0, no 0xFF. */
  predicate Clean(line: Bytes) {
    forall k | 0 <= k < |line| :: line[k] != NL && line[k] != 0 && line[k] != 255
  }

  lemma CleanGet(r: Reader)
    requires IsChunked(r.chunks) && Unread(r) != [] && Unread(r)[0] != 0
    ensures var (c, rest) := TextGet(r); c == CharOf(Unread(r)[0]) && Unread(rest) == Unread(r)[1..]
  {
    if r.buffered != [] {
      assert Unread(r)[1..] == r.buffered[1..] + Flatten(r.chunks);
    } else {
      assert Unread(r) == r.chunks[0] + Flatten(r.chunks[1..]);
      assert Unread(r)[1..] == r.chunks[0][1..] + Flatten(r.chunks[1..]);
    }
  }

  lemma ChunksNotEmpty(chunks: seq<Bytes>)
    requires IsChunked(chunks)
    ensures chunks != [] ==> Flatten(chunks) != []
  {
  }

  lemma ReadLineKeeps(r: Reader)
    requires IsChunked(r.chunks)
    ensures var got := ReadLine(r);
            && IsChunked(got.rest.chunks) && got.rest.broken == r.broken
            && got.ret == if got.ret == -1 then EOF else |got.line|
    decreases |Unread(r)|
  {
    TextGetShrinks(r);
    if !EndsLine(TextGet(r).0) {
      ReadLineKeeps(TextGet(r).1);
    }
  }

  lemma ReadLineStep(r: Reader)
    requires IsChunked(r.chunks)
    ensures var (c, rest) := TextGet(r);
            && IsChunked(rest.chunks) && EndsLine(EOF) && EOF == -1
            && (EndsLine(c) ==> ReadLine(r) == LineRead(if c == EOF then EOF else 0, [], rest))
            && (!EndsLine(c) ==>
                  && c != EOF && |Unread(rest)| < |Unread(r)|
                  && var more := ReadLine(rest);
                     more.ret >= EOF
                     && ReadLine(r) ==
                          LineRead(if more.ret == EOF then EOF else more.ret + 1, [ByteOf(c)] + more.line, more.rest))
  {
    TextGetShrinks(r);
    ReadLineKeeps(TextGet(r).1);
  }

  /** A line is read whole, whatever the chunks, and nothing behind it is touched. */
  lemma {:induction false} LineIsRead(r: Reader, line: Bytes, more: Bytes)
    requires IsChunked(r.chunks) && Clean(line) && Unread(r) == line + [NL] + more
    ensures var got := ReadLine(r); got.ret == |line| && got.line == line && Unread(got.rest) == more
    decreases |line|
  {
    CleanGet(r);
    if line == [] {
      assert Unread(r)[0] == NL && Unread(r)[1..] == more;
    } else {
      assert Unread(r)[0] == line[0] && Unread(r)[1..] == line[1..] + [NL] + more;
      CharRoundTrip(line[0]);
      LineIsRead(TextGet(r).1, line[1..], more);
      assert line == [line[0]] + line[1..];
    }
  }

  lemma {:induction false} DirtyLineIsNotRead(r: Reader, line: Bytes, more: Bytes)
    requires r.chunks == [] && r.buffered == line + [NL] + more && !Clean(line) && NL !in line
    ensures ReadLine(r).ret != |line|
    decreases |line|
  {
    if line[0] != 0 && line[0] != 255 {
      assert r.buffered[1..] == line[1..] + [NL] + more;
      assert line == [line[0]] + line[1..];
      DirtyLineIsNotRead(TextGet(r).1, line[1..], more);
    } else {
      TextGetShrinks(r);
    }
  }

  /** Lines are read whole in every chunking exactly when they hold neither 0 nor 0xFF. */
  lemma LineIsReadIff(line: Bytes, more: Bytes)
    requires NL !in line
    ensures Clean(line) <==>
            forall r: Reader | IsChunked(r.chunks) && Unread(r) == line + [NL] + more ::
              ReadLine(r).ret == |line| && ReadLine(r).line == line && Unread(ReadLine(r).rest) == more
  {
    if Clean(line) {
      forall r: Reader | IsChunked(r.chunks) && Unread(r) == line + [NL] + more
        ensures ReadLine(r).ret == |line| && ReadLine(r).line == line && Unread(ReadLine(r).rest) == more
      {
        LineIsRead(r, line, more);
      }
    } else {
      var r := Reader(line + [NL] + more, [], false);
      assert Unread(r) == line + [NL] + more;
      DirtyLineIsNotRead(r, line, more);
    }
  }

  /** The same bytes in other chunks: behind a 0, what the reader skips depends on where the chunk ends. */
  lemma ZeroMakesChunksMatter()
    ensures var one := Reader([], [[97, 0, 98, 10]], false);
            var two := Reader([], [[97], [0, 98, 10]], false);
            Unread(one) == Unread(two) && Unread(ReadLine(one).rest) == [] && Unread(ReadLine(two).rest) == [98, 10]
  {
    var one := Reader([], [[97, 0, 98, 10]], false);
    var two := Reader([], [[97], [0, 98, 10]], false);
    assert one.chunks[1..] == [] && two.chunks[1..] == [[0, 98, 10]] && two.chunks[1..][1..] == [];
    var one', two' := TextGet(one).1, TextGet(two).1;
    assert one' == Reader([0, 98, 10], [], false) && two' == Reader([], [[0, 98, 10]], false);
    assert ReadLine(one') == LineRead(0, [], Reader([], [], false));
    assert ReadLine(two') == LineRead(0, [], Reader([98, 10], [], false));
  }

  /** A line cut short is returned as if it were whole if the stream ended, and as an error if it broke. */
  lemma {:induction false} CutLineIsRead(r: Reader, line: Bytes)
    requires IsChunked(r.chunks) && Clean(line) && Unread(r) == line
    ensures var got := ReadLine(r);
            got.ret == (if r.broken then EOF else |line|) && got.line == line && Unread(got.rest) == []
    decreases |line|
  {
    hide Unread, Flatten;
    if line == [] {
      NothingUnread(r);
    } else {
      CleanGet(r);
      CharRoundTrip(line[0]);
      CutLineIsRead(TextGet(r).1, line[1..]);
      assert line == [line[0]] + line[1..];
    }
  }

  /** At the end of the stream the reader sees an end of line, or the error. */
  lemma NothingUnread(r: Reader)
    requires IsChunked(r.chunks) && Unread(r) == []
    ensures var got := ReadLine(r); got.ret == (if r.broken then EOF else 0) && got.line == [] && Unread(got.rest) == []
  {
    ChunksNotEmpty(r.chunks);
  }

  /** The byte that comes next, and what is behind it. */
  lemma NextByte(r: Reader)
    requires IsChunked(r.chunks)
    ensures r.buffered != [] ==>
              Unread(r) != [] && Unread(r)[0] == r.buffered[0]
              && Unread(Reader(r.buffered[1..], r.chunks, r.broken)) == Unread(r)[1..]
    ensures r.buffered == [] && r.chunks != [] ==>
              Unread(r) != [] && Unread(r)[0] == r.chunks[0][0]
              && Unread(Reader(r.chunks[0][1..], r.chunks[1..], r.broken)) == Unread(r)[1..]
    ensures r.buffered == [] && r.chunks == [] ==> Unread(r) == []
    ensures Unread(Reader([], [], r.broken)) == []
  {
    if r.buffered != [] {
      assert Unread(r)[1..] == r.buffered[1..] + Flatten(r.chunks);
    } else if r.chunks != [] {
      assert Unread(r) == r.chunks[0] + Flatten(r.chunks[1..]);
      assert Unread(r)[1..] == r.chunks[0][1..] + Flatten(r.chunks[1..]);
    }
  }

  // ---------- the shared buffer ----------

  /** A socket and the buffer_tcp that goes with it. */
  class Connection {
    var chunks: seq<Bytes>
    const broken: bool
    const buffer: array<byte>
    var dim: int
    var i: int

    ghost predicate Valid()
      reads this, buffer
    {
      IsChunked(chunks) && buffer.Length == BUFSIZ + 1 && dim <= BUFSIZ && 0 <= i
    }

    ghost function View(): Reader
      reads this, buffer
      requires Valid()
    {
      Reader(if i < dim then buffer[i..dim] else [], chunks, broken)
    }

    ghost function Stream(): Bytes
      reads this, buffer
      requires Valid()
    {
      Unread(View())
    }

    /** init_buffer_tcp, on a fresh socket. */
    constructor (chunks: seq<Bytes>, broken: bool)
      requires IsChunked(chunks)
      ensures Valid() && fresh(buffer) && View() == Reader([], chunks, broken)
    {
      this.chunks, this.broken := chunks, broken;
      this.dim, this.i := 0, 0;
      this.buffer := new byte[BUFSIZ + 1];
    }

    /** The peer sends: its bytes will arrive cut in these chunks. */
    method Arrive(more: seq<Bytes>)
      requires Valid() && IsChunked(more)
      modifies this`chunks
      ensures Valid() && Stream() == old(Stream()) + Flatten(more)
    {
      hide Flatten;
      FlattenAppend(chunks, more);
      Regroup(View().buffered, Flatten(chunks), Flatten(more));
      chunks := chunks + more;
    }

    /** tcp_receive, which ends the text with a 0, and tcp_binary_receive, which does not. */
    method Receive(text: bool) returns (n: int)
      requires Valid()
      modifies this`chunks, buffer
      ensures Valid()
      ensures old(chunks) == [] ==> chunks == [] && n == (if broken then EOF else 0)
      ensures old(chunks) != [] ==> chunks == old(chunks)[1..] && n == |old(chunks)[0]| && buffer[..n] == old(chunks)[0]
      ensures text && n >= 0 ==> buffer[n] == 0
    {
      if chunks == [] {
        n := if broken then EOF else 0;
      } else {
        var chunk := chunks[0];
        n := |chunk|;
        forall k | 0 <= k < n {
          buffer[k] := chunk[k];
        }
        chunks := chunks[1..];
        assert buffer[..n] == chunk;
      }
      if text && n >= 0 {
        ghost var filled := buffer[..n];
        buffer[n] := 0;
        assert buffer[..n] == filled;
      }
    }

    /** tcp_getchar_bs */
    method GetChar() returns (c: int)
      requires Valid()
      modifies this`chunks, this`dim, this`i, buffer
      ensures Valid() && (c, View()) == TextGet(old(View()))
    {
      if i >= dim || buffer[i] == 0 {
        dim := Receive(true);
        if dim == -1 {
          return EOF;
        }
        i := 0;
      }
      ghost var unread := if i < dim then buffer[i..dim] else [];
      c := CharOf(buffer[i]);
      i := i + 1;
      assert unread != [] ==> View().buffered == unread[1..];
    }

    /** tcp_readline */
    method ReadLineInto(buf: array<byte>) returns (ret: int)
      requires Valid() && buf != buffer && IsChunked(View().chunks) && |ReadLine(View()).line| < buf.Length
      modifies this`chunks, this`dim, this`i, buffer, buf
      ensures Valid()
      ensures var got := ReadLine(old(View()));
              && ret == got.ret && View() == got.rest
              && buf[..|got.line|] == got.line && (ret != EOF ==> ret == |got.line| && buf[ret] == 0)
    {
      hide *;
      ghost var whole := ReadLine(View());
      ReadLineKeeps(View());
      var n := 0;
      while true
        invariant Valid() && IsChunked(View().chunks) && 0 <= n
        invariant var now := ReadLine(View());
                  && n + |now.line| == |whole.line| < buf.Length
                  && buf[..n] + now.line == whole.line
                  && whole.rest == now.rest && whole.ret == (if now.ret == EOF then EOF else n + now.ret)
        decreases |Unread(View())|
      {
        ReadLineStep(View());
        var c := GetChar();
        if c == EOF {
          return EOF;
        }
        if EndsLine(c) {
          ghost var line := buf[..n];
          buf[n] := 0;
          assert buf[..n] == line;
          return n;
        }
        ghost var prefix := buf[..n];
        buf[n] := ByteOf(c);
        assert buf[..n + 1] == prefix + [ByteOf(c)];
        n := n + 1;
      }
    }

    /** tcp_binary_getchar_bs; `failed` is where it ends the thread. At the end of the stream it returns whatever byte
        the buffer starts with. */
    method BinaryGetChar() returns (c: int, failed: bool)
      requires Valid()
      modifies this`chunks, this`dim, this`i, buffer
      ensures Valid()
      ensures old(Stream()) != [] ==> !failed && c == CharOf(old(Stream())[0]) && Stream() == old(Stream())[1..]
      ensures old(Stream()) == [] ==> Stream() == [] && failed == broken
    {
      hide Unread, Flatten;
      ghost var before := View();
      NextByte(before);
      if i >= dim {
        dim := Receive(false);
        if dim == -1 {
          return 0, true;
        }
        i := 0;
      }
      c, failed := CharOf(buffer[i]), false;
      i := i + 1;
      if before.buffered != [] {
        assert View().buffered == before.buffered[1..];
      } else if before.chunks != [] {
        assert View().buffered == before.chunks[0][1..];
      }
    }
  }
}
