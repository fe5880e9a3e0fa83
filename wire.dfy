/** An instrument connection as the drivers see it: every transaction is one
    atomic entry of a log, and replies come from a queue of canned answers.
    The VISA/serial session, its lock and its terminators are not modelled. */
module Wire {
  import opened Python

  /** One transaction on the connection: a write, or a write followed by a read. */
  datatype Transaction = Write(command: string) | Query(command: string)

  class Device {
    /** Every transaction issued so far, in order. */
    var log: seq<Transaction>
    /** The replies the instrument will send to the next queries, in order. */
    var replies: seq<string>

    constructor (replies: seq<string>)
      ensures log == [] && this.replies == replies
    {
      log := [];
      this.replies := replies;
    }

    /** Write one command; no reply is read. */
    method Write(command: string)
      modifies this
      ensures log == old(log) + [Transaction.Write(command)]
      ensures replies == old(replies)
    {
      log := log + [Transaction.Write(command)];
    }

    /** Write one command and read one reply; no reply left is a read timeout. */
    method Query(command: string) returns (r: Result<string>)
      modifies this
      ensures log == old(log) + [Transaction.Query(command)]
      ensures old(replies) == [] ==> r == Err(Timeout) && replies == []
      ensures old(replies) != [] ==> r == Ok(old(replies)[0]) && replies == old(replies)[1..]
    {
      log := log + [Transaction.Query(command)];
      if replies == [] {
        r := Err(Timeout);
      } else {
        r := Ok(replies[0]);
        replies := replies[1..];
      }
    }
  }

  /** Wall-clock time in seconds. Callers may rely only on it never running
      backwards and on a sleep lasting at least as long as asked. */
  class Clock {
    var now: real

    constructor (start: real)
      ensures now == start
    {
      now := start;
    }

    /** `datetime.now()` */
    method Now() returns (t: real)
      modifies this
      ensures old(now) <= now && t == now
    {
      t := now;
    }

    /** `time.sleep(seconds)` */
    method Sleep(seconds: real)
      requires seconds >= 0.0
      modifies this
      ensures now >= old(now) + seconds
    {
      now := now + seconds;
    }
  }
}
