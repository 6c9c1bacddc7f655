/**
 A connection that is lost while a file is received: the statuses with which the protocol lets the thread end are those
 that a frame cut somewhere can give, and no others.
 */
module Cuts {
  import opened Basics
  import opened Frames
  import P = Protocol

  /** The status with which the thread ends when the receipt of a file ends so; None when it does not end. */
  function LossOf(out: Outcome): Option<int> {
    match out
    case Stored(_) => None
    case Returned(_) => Some(-1)
    case Exited(code) => Some(code)
  }

  /** A point cloud's body, of which less than the end mark and its newline arrives. */
  lemma CloudLossIsACut(s: P.State, x: Bytes, status: int)
    requires s.cl.pc.AwaitBody?
    ensures P.ClientEnabled(s, P.Lose(status)) <==>
              exists k: int, broken: bool :: k <= 3 && LossOf(CutBody(x, k, broken)) == Some(status)
  {
    assert LossOf(CutBody(x, 0, true)) == Some(-2);
    assert LossOf(CutBody(x, 1, false)) == Some(-1);
  }

  /** The reply to a metadata request, of which less than its whole frame arrives. */
  lemma MetaLossIsACut(s: P.State, z: Codec, header: string, x: Bytes, status: int)
    requires s.cl.pc.AwaitMeta? && s.link.Replied? && s.link.r.Requested?
    requires Announces(z, header, true, Some(x))
    ensures P.ClientEnabled(s, P.Lose(status)) <==>
              exists n: nat, broken: bool ::
                && n < |ReplyFrame(z, header, Some(x))|
                && LossOf(CutReply(z, header, Some(x), true, n, broken)) == Some(status)
  {
    hide SizesOf, Plain;
    BodyIsNotShort(z, x);
    var n := |header| + 1 + |z.compress(x)| + 1;
    assert LossOf(CutReply(z, header, Some(x), true, 0, true)) == Some(-2);
    assert LossOf(CutReply(z, header, Some(x), true, n, false)) == Some(-1);
  }
}
