/**
 * The register-access bridge of the PCAL6416A IO-expander driver: it turns a
 * logical register operation (one-byte register address, data buffer) into
 * I2C transactions addressed by the state of the device's ADDR pin.
 */
module Pcal6416a {
  import opened Ints
  import opened I2cBus

  /** The driver's only error: a bus error, carried unchanged. */
  datatype Pcal6416aError<E> = I2c(busError: E)

  datatype Option<T> = None | Some(value: T)

  const IoExpAddrLow: u8 := 0x20
  const IoExpAddrHigh: u8 := 0x21
  /** The widest register of the device, in bytes. */
  const LargestRegSizeBytes: nat := 2

  /** The level of the ADDR pin, which selects one of two bus addresses. */
  datatype AddrPinState = High | Low {
    /** The 7-bit bus address the pin level selects. */
    function Address(): (a: u8)
      ensures a < 0x80
      ensures a == IoExpAddrLow <==> this == Low
      ensures a == IoExpAddrHigh <==> this == High
    {
      match this
      case High => IoExpAddrHigh
      case Low => IoExpAddrLow
    }
  }

  /** Resolution never produces any address but the two constants. */
  lemma AddressIsOneOfTwo(pin: AddrPinState)
    ensures pin.Address() in {IoExpAddrLow, IoExpAddrHigh}
  {
  }

  /** Distinct pin levels never share a bus address. */
  lemma AddressInjective(p: AddrPinState, q: AddrPinState)
    ensures p.Address() == q.Address() <==> p == q
  {
  }

  /*** Framing ***/

  /** The bytes a register write puts on the bus: the register address, then the data. */
  function WriteFrame(address: u8, data: seq<u8>): (frame: seq<u8>)
    ensures |frame| == 1 + |data|
    ensures SplitFrame(frame) == Some((address, data))
  {
    [address] + data
  }

  /**
   * How the target reads a write frame: the first byte is the register
   * address, the rest is the data; an empty frame carries no register access.
   */
  function SplitFrame(frame: seq<u8>): (r: Option<(u8, seq<u8>)>)
    ensures r.Some? <==> |frame| >= 1
    ensures r.Some? ==> frame == [r.value.0] + r.value.1
  {
    if frame == [] then None else Some((frame[0], frame[1..]))
  }

  /** The target recovers exactly the register address and the data from a write frame. */
  lemma SplitWriteFrame(address: u8, data: seq<u8>)
    ensures SplitFrame(WriteFrame(address, data)) == Some((address, data))
    ensures |WriteFrame(address, data)| == 1 + |data|
  {
    assert WriteFrame(address, data)[1..] == data;
  }

  /** Every non-empty frame is the write frame of the pair it splits into. */
  lemma WriteFrameOfSplit(frame: seq<u8>)
    requires |frame| >= 1
    ensures SplitFrame(frame).Some?
    ensures WriteFrame(SplitFrame(frame).value.0, SplitFrame(frame).value.1) == frame
  {
  }

  /**
   * Whether a write frame stores into register `reg`, under the assumption the
   * driver's comment at src/lib.rs:68-70 makes about the target: payload byte
   * `k` lands in register `frame[0] + k`. The rule describes the target, not
   * the driver; only the frame length `1 + |data|` comes from the driver.
   */
  predicate StoresInto(frame: seq<u8>, reg: int)
  {
    |frame| >= 1 && frame[0] as int <= reg < frame[0] as int + |frame| - 1
  }

  /**
   * Under the target assumption of `StoresInto`, a register write stores into
   * the registers `address .. address + |data| - 1` and no others: a write to
   * a one-byte register leaves the register at `address + 1` alone.
   */
  lemma WriteFrameStaysInRegister(address: u8, data: seq<u8>)
    requires |data| <= LargestRegSizeBytes
    ensures forall reg :: StoresInto(WriteFrame(address, data), reg) <==> address as int <= reg < address as int + |data|
    ensures |data| <= 1 ==> !StoresInto(WriteFrame(address, data), address as int + 1)
  {
  }

  /**
   * Under the same assumption, sending the whole scratch buffer instead of its
   * prefix would spill into the next register: a one-byte write would also
   * store into `address + 1`.
   */
  lemma WholeScratchSpills(address: u8, data: seq<u8>)
    requires |data| == 1
    ensures StoresInto(WriteFrame(address, data + [0]), address as int + 1)
  {
  }

  /**
   * Builds the frame of a register write the way the driver does: a zeroed
   * scratch array of `1 + LargestRegSizeBytes` bytes, the register address in
   * byte 0, the data copied behind it; only the prefix `scratch[..1 + |data|]`
   * is returned for sending, and the bytes behind it stay zero and unsent.
   */
  method AssembleFrame(address: u8, data: seq<u8>) returns (frame: seq<u8>, scratch: seq<u8>)
    requires |data| <= LargestRegSizeBytes
    ensures frame == WriteFrame(address, data)
    ensures |scratch| == 1 + LargestRegSizeBytes && frame == scratch[..1 + |data|]
    ensures forall i :: 1 + |data| <= i < |scratch| ==> scratch[i] == 0
  {
    var buf := new u8[1 + LargestRegSizeBytes](_ => 0);
    buf[0] := address;
    var i := 0;
    while i < |data|
      invariant 0 <= i <= |data|
      invariant buf[0] == address
      invariant forall j :: 0 <= j < i ==> buf[1 + j] == data[j]
      invariant forall j :: 1 + i <= j < buf.Length ==> buf[j] == 0
    {
      buf[1 + i] := data[i];
      i := i + 1;
    }
    frame := buf[..1 + |data|];
    scratch := buf[..];
  }

  /** The one transaction a register write issues. */
  function WriteTransaction(pin: AddrPinState, address: u8, data: seq<u8>): (t: Transaction)
    ensures t.Write? && t.target in {IoExpAddrLow, IoExpAddrHigh}
    ensures SplitFrame(t.bytes) == Some((address, data))
  {
    Transaction.Write(pin.Address(), WriteFrame(address, data))
  }

  /** The one transaction a register read into `readLen` bytes issues. */
  function ReadTransaction(pin: AddrPinState, address: u8, readLen: nat): (t: Transaction)
    ensures t.WriteRead? && t.target in {IoExpAddrLow, IoExpAddrHigh}
    ensures SplitFrame(t.bytes) == Some((address, [])) && t.readLen == readLen
  {
    Transaction.WriteRead(pin.Address(), [address], readLen)
  }

  /** A register write addresses the pin's bus address and carries `1 + |data|` bytes. */
  lemma WriteTransactionShape(pin: AddrPinState, address: u8, data: seq<u8>)
    requires |data| <= LargestRegSizeBytes
    ensures var t := WriteTransaction(pin, address, data);
      t.Write? && t.target == pin.Address() &&
      |t.bytes| == 1 + |data| <= 1 + LargestRegSizeBytes &&
      SplitFrame(t.bytes) == Some((address, data))
  {
    SplitWriteFrame(address, data);
  }

  /** `map_err(Pcal6416aError::I2c)`: success stays success, a bus error is wrapped unchanged. */
  function WrapBusError<E>(r: Outcome<E>): (w: Outcome<Pcal6416aError<E>>)
    ensures w.Pass? <==> r.Pass?
    ensures r.Fail? ==> w.error == I2c(r.error)
  {
    match r
    case Pass => Pass
    case Fail(e) => Fail(I2c(e))
  }

  /** Recovers the bus outcome from the driver's outcome. */
  function UnwrapBusError<E>(w: Outcome<Pcal6416aError<E>>): Outcome<E>
  {
    match w
    case Pass => Pass
    case Fail(I2c(e)) => Fail(e)
  }

  /** Wrapping loses nothing: the bus error is recovered exactly. */
  lemma WrapBusErrorLossless<E>(r: Outcome<E>)
    ensures UnwrapBusError(WrapBusError(r)) == r
  {
  }

  /** The driver's interface object: the ADDR pin level and the exclusively owned bus. */
  class Pcal6416aDevice<E> {
    var addrPin: AddrPinState
    var i2cbus: Bus<E>

    constructor (addrPin: AddrPinState, i2cbus: Bus<E>)
      ensures this.addrPin == addrPin && this.i2cbus == i2cbus
    {
      this.addrPin := addrPin;
      this.i2cbus := i2cbus;
    }

    /**
     * `RegisterInterface::write_register` (blocking). A buffer wider than the
     * widest register is a fatal assertion in the driver, hence a
     * precondition; `sizeBits` is not used.
     */
    method WriteRegister(address: u8, sizeBits: u32, data: seq<u8>) returns (r: Outcome<Pcal6416aError<E>>)
      requires |data| <= LargestRegSizeBytes
      modifies i2cbus
      ensures i2cbus.trace == old(i2cbus.trace) + [WriteTransaction(addrPin, address, data)]
      ensures r == WrapBusError(i2cbus.verdict(WriteTransaction(addrPin, address, data), |old(i2cbus.trace)|))
    {
      var frame, _ := AssembleFrame(address, data);
      var busResult := i2cbus.Write(addrPin.Address(), frame);
      r := WrapBusError(busResult);
    }

    /**
     * `AsyncRegisterInterface::write_register`: the same framing and the same
     * single bus write as the blocking form; the suspension at `.await` is not
     * modelled.
     */
    method WriteRegisterAsync(address: u8, sizeBits: u32, data: seq<u8>) returns (r: Outcome<Pcal6416aError<E>>)
      requires |data| <= LargestRegSizeBytes
      modifies i2cbus
      ensures i2cbus.trace == old(i2cbus.trace) + [WriteTransaction(addrPin, address, data)]
      ensures r == WrapBusError(i2cbus.verdict(WriteTransaction(addrPin, address, data), |old(i2cbus.trace)|))
    {
      var frame, _ := AssembleFrame(address, data);
      var busResult := i2cbus.Write(addrPin.Address(), frame);
      r := WrapBusError(busResult);
    }

    /**
     * `RegisterInterface::read_register` (blocking): one combined transaction
     * writing `[address]` and reading `data.Length` bytes into `data`;
     * `sizeBits` is not used.
     */
    method ReadRegister(address: u8, sizeBits: u32, data: array<u8>) returns (r: Outcome<Pcal6416aError<E>>)
      modifies i2cbus, data
      ensures i2cbus.trace == old(i2cbus.trace) + [ReadTransaction(addrPin, address, data.Length)]
      ensures r == WrapBusError(i2cbus.verdict(ReadTransaction(addrPin, address, data.Length), |old(i2cbus.trace)|))
      ensures r.Pass? ==> data[..] == i2cbus.Received(ReadTransaction(addrPin, address, data.Length), |old(i2cbus.trace)|)
    {
      var busResult := i2cbus.WriteRead(addrPin.Address(), [address], data);
      r := WrapBusError(busResult);
    }

    /** `AsyncRegisterInterface::read_register`: the same transaction as the blocking form. */
    method ReadRegisterAsync(address: u8, sizeBits: u32, data: array<u8>) returns (r: Outcome<Pcal6416aError<E>>)
      modifies i2cbus, data
      ensures i2cbus.trace == old(i2cbus.trace) + [ReadTransaction(addrPin, address, data.Length)]
      ensures r == WrapBusError(i2cbus.verdict(ReadTransaction(addrPin, address, data.Length), |old(i2cbus.trace)|))
      ensures r.Pass? ==> data[..] == i2cbus.Received(ReadTransaction(addrPin, address, data.Length), |old(i2cbus.trace)|)
    {
      var busResult := i2cbus.WriteRead(addrPin.Address(), [address], data);
      r := WrapBusError(busResult);
    }
  }

  /** Two devices in the same state: same pin, same trace, same bus behaviour, separate buses. */
  ghost predicate SameState<E>(d1: Pcal6416aDevice<E>, d2: Pcal6416aDevice<E>)
    reads d1, d2, d1.i2cbus, d2.i2cbus
  {
    && d1.addrPin == d2.addrPin
    && d1.i2cbus.trace == d2.i2cbus.trace
    && d1.i2cbus.verdict == d2.i2cbus.verdict
    && d1.i2cbus.incoming == d2.i2cbus.incoming
  }

  /**
   * Mode equivalence for writes: the blocking write on one device and the
   * async write on a device in the same state, with any two `sizeBits`
   * values, return the same result and leave the same trace.
   */
  method WriteModesAgree<E>(blocking: Pcal6416aDevice<E>, async: Pcal6416aDevice<E>,
                            address: u8, sizeBlocking: u32, sizeAsync: u32, data: seq<u8>)
    returns (rBlocking: Outcome<Pcal6416aError<E>>, rAsync: Outcome<Pcal6416aError<E>>)
    requires |data| <= LargestRegSizeBytes
    requires blocking.i2cbus != async.i2cbus
    requires SameState(blocking, async)
    modifies blocking.i2cbus, async.i2cbus
    ensures rBlocking == rAsync
    ensures SameState(blocking, async)
  {
    rBlocking := blocking.WriteRegister(address, sizeBlocking, data);
    rAsync := async.WriteRegisterAsync(address, sizeAsync, data);
  }

  /**
   * Mode equivalence for reads: as for writes, and on success both buffers
   * hold the same bytes.
   */
  method ReadModesAgree<E>(blocking: Pcal6416aDevice<E>, async: Pcal6416aDevice<E>,
                           address: u8, sizeBlocking: u32, sizeAsync: u32,
                           bufBlocking: array<u8>, bufAsync: array<u8>)
    returns (rBlocking: Outcome<Pcal6416aError<E>>, rAsync: Outcome<Pcal6416aError<E>>)
    requires blocking.i2cbus != async.i2cbus && bufBlocking != bufAsync
    requires bufBlocking.Length == bufAsync.Length
    requires SameState(blocking, async)
    modifies blocking.i2cbus, async.i2cbus, bufBlocking, bufAsync
    ensures rBlocking == rAsync
    ensures SameState(blocking, async)
    ensures rBlocking.Pass? ==> bufBlocking[..] == bufAsync[..]
  {
    rBlocking := blocking.ReadRegister(address, sizeBlocking, bufBlocking);
    rAsync := async.ReadRegisterAsync(address, sizeAsync, bufAsync);
  }
}
