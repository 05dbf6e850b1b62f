/** The I2C connection to the watering microcontroller, as the device
    commands use it: `Write`, `WriteByte`, `Read` and `ReadByte`. The
    device is replaced by a script: a queue of replies for the reads and
    a queue of acknowledgements for the writes. Every frame handed to the
    bus is logged, whether or not the bus took it. */
module Bus {
  import opened GoInt
  import opened Wrappers

  type byte = x: int | 0 <= x < 256

  /** What one read gets: the bytes the device answered, or a bus error. */
  datatype Reply = Bytes(data: seq<byte>) | ReadFailure

  /** What one write gets: how many bytes went through, or a bus error. */
  datatype Ack = Accepted(count: nat) | WriteFailure

  /** A queue after one element is taken; an exhausted queue stays empty. */
  function Rest<T>(q: seq<T>): (r: seq<T>)
    ensures q != [] ==> r == q[1..]
    ensures q == [] ==> r == []
  {
    if q == [] then [] else q[1..]
  }

  /** A queue after `k` elements are taken. */
  function Drop<T>(q: seq<T>, k: int): seq<T>
  {
    if k <= 0 then q else if k >= |q| then [] else q[k..]
  }

  lemma DropRest<T>(q: seq<T>, k: nat)
    ensures Drop(Rest(q), k) == Drop(q, k + 1)
  {
  }

  /** The next write fails outright. */
  predicate WriteFails(acks: seq<Ack>)
  {
    acks != [] && acks[0].WriteFailure?
  }

  /** Bytes the next write of `len` bytes gets through; with no
      acknowledgement scripted the whole frame goes through. */
  function WriteCount(acks: seq<Ack>, len: nat): (n: nat)
    ensures n <= len
  {
    if acks == [] || acks[0].WriteFailure? then len else Min(acks[0].count, len)
  }

  /** What the next `Read` into a buffer of `size` bytes delivers: at most
      `size` bytes of the reply; an exhausted script reads as an error. */
  function Received(replies: seq<Reply>, size: nat): (r: Option<seq<byte>>)
    ensures r.Some? ==> |r.value| <= size
  {
    if replies == [] || replies[0].ReadFailure? then None
    else
      var d := replies[0].data;
      Some(d[..Min(|d|, size)])
  }

  /** What the next `ReadByte` delivers: the first byte of a non-empty reply. */
  function ReceivedByte(replies: seq<Reply>): Option<byte>
  {
    if replies == [] || replies[0].ReadFailure? || replies[0].data == [] then None
    else Some(replies[0].data[0])
  }

  /** The effect of a command on the connection: the frames it appends
      to the log, and the acknowledgements and replies left afterwards. */
  datatype Traffic = Traffic(sent: seq<seq<byte>>, acks: seq<Ack>, replies: seq<Reply>)

  /** The queues after a command byte and one read: the write uses up an
      acknowledgement, and the read, made only when the write went
      through, uses up a reply. */
  function AfterQuery(acks: seq<Ack>, replies: seq<Reply>): (seq<Ack>, seq<Reply>)
  {
    (Rest(acks), if WriteFails(acks) then replies else Rest(replies))
  }

  class Connection {
    /** Every frame handed to `Write` or `WriteByte`, oldest first. */
    var sent: seq<seq<byte>>
    /** Replies still to come, one per read. */
    var replies: seq<Reply>
    /** Acknowledgements still to come, one per write. */
    var acks: seq<Ack>

    constructor (replies: seq<Reply>, acks: seq<Ack>)
      ensures this.sent == [] && this.replies == replies && this.acks == acks
    {
      this.sent := [];
      this.replies := replies;
      this.acks := acks;
    }

    method Write(frame: seq<byte>) returns (n: nat, failed: bool)
      modifies this
      ensures sent == old(sent) + [frame]
      ensures acks == Rest(old(acks)) && replies == old(replies)
      ensures failed == WriteFails(old(acks))
      ensures !failed ==> n == WriteCount(old(acks), |frame|)
    {
      sent := sent + [frame];
      failed := WriteFails(acks);
      n := if failed then 0 else WriteCount(acks, |frame|);
      acks := Rest(acks);
    }

    method WriteByte(b: byte) returns (failed: bool)
      modifies this
      ensures sent == old(sent) + [[b]]
      ensures acks == Rest(old(acks)) && replies == old(replies)
      ensures failed == WriteFails(old(acks))
    {
      sent := sent + [[b]];
      failed := WriteFails(acks);
      acks := Rest(acks);
    }

    method Read(size: nat) returns (data: seq<byte>, failed: bool)
      modifies this
      ensures replies == Rest(old(replies))
      ensures sent == old(sent) && acks == old(acks)
      ensures failed == Received(old(replies), size).None?
      ensures !failed ==> data == Received(old(replies), size).value
    {
      var r := Received(replies, size);
      failed := r.None?;
      data := if failed then [] else r.value;
      replies := Rest(replies);
    }

    method ReadByte() returns (b: byte, failed: bool)
      modifies this
      ensures replies == Rest(old(replies))
      ensures sent == old(sent) && acks == old(acks)
      ensures failed == ReceivedByte(old(replies)).None?
      ensures !failed ==> b == ReceivedByte(old(replies)).value
      ensures failed ==> b == 0
    {
      var r := ReceivedByte(replies);
      failed := r.None?;
      b := if failed then 0 else r.value;
      replies := Rest(replies);
    }
  }
}
