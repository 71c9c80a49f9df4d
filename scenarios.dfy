/**
 * The driver's unit tests, each as a client of the model: a fresh device on a
 * bus that acknowledges every transaction, one register access, and the exact
 * transaction the test's mock bus expects.
 */
module Scenarios {
  import opened Ints
  import opened I2cBus
  import opened Pcal6416a
  import opened RegisterFields

  /** A bus that acknowledges everything and whose target always returns `reply`. */
  method AckingBus<E>(reply: u8) returns (bus: Bus<E>)
    ensures fresh(bus) && bus.trace == []
    ensures forall t, n :: bus.verdict(t, n) == Pass
    ensures forall t, n, i :: bus.incoming(t, n, i) == reply
  {
    bus := new Bus((t: Transaction, n: nat) => Pass, (t: Transaction, n: nat, i: nat) => reply);
  }

  /**
   * `read_output_port_0` in both modes: a `Low` device reads register 0x02,
   * the target returns 0b01000011, and fields 6, 1 and 0 read as set.
   */
  method ReadOutputPort0<E>() returns (rBlocking: Outcome<Pcal6416aError<E>>, rAsync: Outcome<Pcal6416aError<E>>,
                                      traceBlocking: seq<Transaction>, traceAsync: seq<Transaction>,
                                      fieldsBlocking: seq<bool>, fieldsAsync: seq<bool>)
    ensures rBlocking == Pass && rAsync == Pass
    ensures traceBlocking == traceAsync == [Transaction.WriteRead(0x20, [0x02], 1)]
    ensures fieldsBlocking == fieldsAsync == [true, true, false, false, false, false, true, false]
  {
    var bus1 := AckingBus<E>(0x43);
    var dev1 := new Pcal6416aDevice(Low, bus1);
    var buf1 := new u8[1];
    rBlocking := dev1.ReadRegister(0x02, 8, buf1);
    traceBlocking := bus1.trace;
    fieldsBlocking := Decode(buf1[0]);

    var bus2 := AckingBus<E>(0x43);
    var dev2 := new Pcal6416aDevice(Low, bus2);
    var buf2 := new u8[1];
    rAsync := dev2.ReadRegisterAsync(0x02, 8, buf2);
    traceAsync := bus2.trace;
    fieldsAsync := Decode(buf2[0]);
  }

  /** The field values the output-port-0 write test sets, indexed by bit. */
  const OutputPort0Fields: seq<bool> := [true, false, true, false, true, true, true, true]

  /**
   * The write closure of the output-port-0 test: the setters of fields 7 down
   * to 0, run on the byte `init` the write starts from. Whatever that byte is,
   * the result is 0b11110101.
   */
  method OutputPort0Closure(init: u8) returns (value: u8)
    ensures value == 0xF5
  {
    value := SetLowFields(init, OutputPort0Fields, 8);
    assert Encode(OutputPort0Fields) == 0xF5;
    SetEveryField(init, OutputPort0Fields);
  }

  const AllClear: seq<bool> := [false, false, false, false, false, false, false, false]

  /**
   * The write closure of the address tests: every field cleared, starting from
   * any byte `init`. The result is 0x00.
   */
  method AllClearClosure(init: u8) returns (value: u8)
    ensures value == 0x00
  {
    value := SetLowFields(init, AllClear, 8);
    assert Encode(AllClear) == 0x00;
    SetEveryField(init, AllClear);
  }

  /**
   * `write_output_port_0` in both modes: a `Low` device sets fields 7, 6, 5,
   * 4, 2, 0 and clears 3, 1 of register 0x02, starting from any byte `init`;
   * the bus sees exactly `[0x02, 0b11110101]`.
   */
  method WriteOutputPort0<E>(init: u8) returns (rBlocking: Outcome<Pcal6416aError<E>>, rAsync: Outcome<Pcal6416aError<E>>,
                                               traceBlocking: seq<Transaction>, traceAsync: seq<Transaction>)
    ensures rBlocking == Pass && rAsync == Pass
    ensures traceBlocking == traceAsync == [Transaction.Write(0x20, [0x02, 0xF5])]
  {
    var value := OutputPort0Closure(init);
    assert WriteFrame(0x02, [0xF5]) == [0x02, 0xF5];

    var bus1 := AckingBus<E>(0);
    var dev1 := new Pcal6416aDevice(Low, bus1);
    rBlocking := dev1.WriteRegister(0x02, 8, [value]);
    traceBlocking := bus1.trace;

    var bus2 := AckingBus<E>(0);
    var dev2 := new Pcal6416aDevice(Low, bus2);
    rAsync := dev2.WriteRegisterAsync(0x02, 8, [value]);
    traceAsync := bus2.trace;
  }

  /**
   * `write_low_address` and `write_high_address`: clearing every field of
   * register 0x07 sends `[0x07, 0x00]` to 0x20 for a `Low` device and to
   * 0x21 for a `High` device.
   */
  method WriteAllClear<E>(pin: AddrPinState, init: u8) returns (r: Outcome<Pcal6416aError<E>>, trace: seq<Transaction>)
    ensures r == Pass
    ensures trace == [Transaction.Write(if pin == Low then 0x20 else 0x21, [0x07, 0x00])]
  {
    var value := AllClearClosure(init);
    assert WriteFrame(0x07, [0x00]) == [0x07, 0x00];

    var bus := AckingBus<E>(0);
    var dev := new Pcal6416aDevice(pin, bus);
    r := dev.WriteRegisterAsync(0x07, 8, [value]);
    trace := bus.trace;
  }

  /**
   * `read_low_address` and `read_high_address`: reading register 0x07 writes
   * `[0x07]` to 0x20 for a `Low` device and to 0x21 for a `High` device, then
   * reads one byte.
   */
  method ReadAddressed<E>(pin: AddrPinState) returns (r: Outcome<Pcal6416aError<E>>, trace: seq<Transaction>, value: u8)
    ensures r == Pass && value == 0x00
    ensures trace == [Transaction.WriteRead(if pin == Low then 0x20 else 0x21, [0x07], 1)]
  {
    var bus := AckingBus<E>(0);
    var dev := new Pcal6416aDevice(pin, bus);
    var buf := new u8[1];
    r := dev.ReadRegisterAsync(0x07, 8, buf);
    trace := bus.trace;
    value := buf[0];
  }
}
