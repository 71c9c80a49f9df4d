/**
 * The I2C bus as the driver sees it: an external collaborator that offers a
 * plain write and a combined write-then-read (repeated START, section 3.1.10
 * of the NXP I2C-bus specification UM10204). The bus is a recorder: every
 * call appends exactly one transaction to `trace`. Whether a transaction
 * fails, and which bytes the target clocks out in a read phase, are decided
 * by two oracles fixed when the bus is created; they stand for the electrical
 * behaviour of the bus and the target, which the driver does not control.
 */
module I2cBus {
  import opened Ints

  /** One bus transaction, as addressed to a 7-bit target. */
  datatype Transaction =
    | Write(target: u8, bytes: seq<u8>)
    | WriteRead(target: u8, bytes: seq<u8>, readLen: nat)

  /** Rust `Result<(), E>`. */
  datatype Outcome<E> = Pass | Fail(error: E)

  class Bus<E> {
    /** Every transaction issued so far, oldest first. */
    var trace: seq<Transaction>
    /** The verdict of the bus on transaction `t` issued as the `n`-th one. */
    const verdict: (Transaction, nat) -> Outcome<E>
    /** Byte `i` the target returns in the read phase of the `n`-th transaction `t`. */
    const incoming: (Transaction, nat, nat) -> u8

    constructor (verdict: (Transaction, nat) -> Outcome<E>, incoming: (Transaction, nat, nat) -> u8)
      ensures trace == []
      ensures this.verdict == verdict && this.incoming == incoming
    {
      trace := [];
      this.verdict := verdict;
      this.incoming := incoming;
    }

    /** The bytes a successful read phase of the `n`-th transaction `t` delivers. */
    function Received(t: Transaction, n: nat): (r: seq<u8>)
      requires t.WriteRead?
      ensures |r| == t.readLen
      ensures forall i :: 0 <= i < |r| ==> r[i] == incoming(t, n, i)
    {
      seq(t.readLen, i requires 0 <= i < t.readLen => incoming(t, n, i))
    }

    /** `I2c::write`: one write transaction carrying exactly `bytes`. */
    method Write(target: u8, bytes: seq<u8>) returns (r: Outcome<E>)
      modifies this
      ensures trace == old(trace) + [Transaction.Write(target, bytes)]
      ensures r == verdict(Transaction.Write(target, bytes), |old(trace)|)
    {
      var t := Transaction.Write(target, bytes);
      r := verdict(t, |trace|);
      trace := trace + [t];
    }

    /**
     * `I2c::write_read`: one combined transaction that writes `bytes` and then,
     * without releasing the bus, reads `buf.Length` bytes into `buf`. On
     * failure the contents of `buf` are unspecified.
     */
    method WriteRead(target: u8, bytes: seq<u8>, buf: array<u8>) returns (r: Outcome<E>)
      modifies this, buf
      ensures trace == old(trace) + [Transaction.WriteRead(target, bytes, buf.Length)]
      ensures r == verdict(Transaction.WriteRead(target, bytes, buf.Length), |old(trace)|)
      ensures r.Pass? ==> buf[..] == Received(Transaction.WriteRead(target, bytes, buf.Length), |old(trace)|)
    {
      var t := Transaction.WriteRead(target, bytes, buf.Length);
      var n := |trace|;
      r := verdict(t, n);
      if r.Pass? {
        forall i | 0 <= i < buf.Length {
          buf[i] := incoming(t, n, i);
        }
      }
      trace := trace + [t];
    }
  }
}
