# PCAL6416A register-access bridge in Dafny

This project models the register-access bridge of the Rust driver for the NXP
PCAL6416A 16-bit I2C IO expander, and proves properties about it. The bridge
turns a logical register operation into I2C transactions. A logical operation
is a one-byte register address plus a data buffer. The bridge sends it to one
of two bus addresses, chosen by the level of the device's ADDR pin.

- `ints.dfy`: the Rust `u8` and `u32` types as bounded newtypes.
- `i2c_bus.dfy`: the bus the driver owns (module `I2cBus`). It is a class
  that records every transaction in a `trace`. Two oracles, fixed when the
  bus is created, decide each transaction's outcome. The first gives the
  verdict (`Pass` or `Fail(e)`). The second gives the bytes the target
  returns in a read phase. The bus offers `Write` and `WriteRead`. `WriteRead`
  is the combined write-then-read transfer with a repeated START, described in
  section 3.1.10 of the NXP I2C-bus specification UM10204.
- `pcal6416a.dfy`: the driver itself (module `Pcal6416a`). It holds the error
  type, the address constants, the mapping from pin level to address, the
  write frame as a pure function and the scratch-array frame assembly as a
  method. It also holds the device class with the blocking and async
  `WriteRegister`/`ReadRegister` methods, and the mode-equivalence clients.
- `register_fields.dfy`: the bit convention that the tests fix for one-byte
  registers. Field `x_p_k` is bit `k` of the register byte. The file proves
  that encoding and decoding are inverses, and what a field setter changes.
- `scenarios.dfy`: the driver's unit tests as verified clients. Each one runs
  a fresh device on a bus that acknowledges everything, and its contract
  states the exact transaction that the test's mock expects.

Both register-write entry points call the same `AssembleFrame`. Both
register-read entry points issue the same `WriteRead`. Each method's
postcondition gives the single transaction appended to the trace, as a pure
function of the pin, the register address and the data (`WriteTransaction`,
`ReadTransaction`). Neither function takes the declared size in bits. So the
two modes produce the same transaction, and `sizeBits` has no effect.

`src/lib.rs` has only the pin-selected `AddrPinState`, and the model follows it.

## Model

| member | source | states |
|---|---|---|
| `Pcal6416a.AddrPinState.Address` | src/lib.rs:31-39 | Resolution is total and yields a 7-bit address. It is 0x20 exactly when the pin is `Low` and 0x21 exactly when it is `High`. |
| `Pcal6416a.AddressIsOneOfTwo` | src/lib.rs:21-22 | No address other than the two constants is ever produced. |
| `Pcal6416a.AddressInjective` | src/lib.rs:33-38 | The two pin levels resolve to different addresses. |
| `Pcal6416a.WriteFrame` | src/lib.rs:63-72 | The frame a register write sends (`&buf[..=data.len()]`). It is `1 + \|data\|` bytes long, and `SplitFrame` inverts it back to the register address and the data. |
| `Pcal6416a.SplitWriteFrame` | src/lib.rs:63-66 | The target recovers exactly the register address and the data from a write frame. The frame is `1 + \|data\|` bytes long. |
| `Pcal6416a.WriteFrameOfSplit` | src/lib.rs:63-66 | Every non-empty frame is the write frame of the address and data it splits into. |
| `Pcal6416a.WriteFrameStaysInRegister` | src/lib.rs:68-72 | Assume, as the driver's comment does, that the target stores payload byte `k` into register `address + k`. Then a write stores into registers `address .. address + \|data\| - 1` and no others, so a one-byte write never touches `address + 1`. |
| `Pcal6416a.WholeScratchSpills` | src/lib.rs:68-70 | Under the same assumption about the target, sending the whole 3-byte scratch for a one-byte register would store into `address + 1`. This is why only the prefix is sent. |
| `Pcal6416a.AssembleFrame` | src/lib.rs:63-72 | The zeroed 3-byte scratch gets the register address, then the data. The sent prefix is `scratch[..1 + \|data\|]`, which equals `[address] + data`. Every byte after it stays zero and is not sent. |
| `Pcal6416a.WriteTransaction` | src/lib.rs:71-72 | The transaction of a register write is a `Write` to one of the two device addresses. Its bytes split into the register address and the data. |
| `Pcal6416a.ReadTransaction` | src/lib.rs:83-84 | The transaction of a register read is a `WriteRead` to one of the two device addresses. Its write phase carries the register address and no data. Its read length is the caller's buffer length. |
| `Pcal6416a.WriteTransactionShape` | src/lib.rs:71-72 | A register write is one bus write to the pin's address. It carries `1 + \|data\|` bytes (at most 3), and they split into `(address, data)`. |
| `Pcal6416a.WrapBusError` | src/lib.rs:71-74 | Bus success stays success. A bus error `e` becomes `I2c(e)`. |
| `Pcal6416a.WrapBusErrorLossless` | src/lib.rs:17-20 | The wrapped bus error is recovered unchanged. |
| `Pcal6416a.Pcal6416aDevice.constructor` | src/lib.rs:41-44 | The device holds the given pin level and owns the given bus. |
| `Pcal6416a.Pcal6416aDevice.WriteRegister` | src/lib.rs:94-108 | Requires `\|data\| <= 2` (the driver asserts this and panics otherwise). Exactly one transaction is appended: `Write(pin address, [address] + data)`. The result is the wrapped verdict of that transaction, with no retry. `sizeBits` plays no part. |
| `Pcal6416a.Pcal6416aDevice.WriteRegisterAsync` | src/lib.rs:55-75 | The same contract as the blocking write. |
| `Pcal6416a.Pcal6416aDevice.ReadRegister` | src/lib.rs:110-119 | Exactly one transaction is appended: `WriteRead(pin address, [address], data.Length)`. The result is its wrapped verdict, with no retry. On success, `data` holds the bytes the target returned. |
| `Pcal6416a.Pcal6416aDevice.ReadRegisterAsync` | src/lib.rs:77-87 | The same contract as the blocking read. |
| `Pcal6416a.WriteModesAgree` | src/lib.rs:55-108 | Take two devices in the same state and any two `sizeBits` values. The blocking write on one and the async write on the other return the same result and leave the same trace. |
| `Pcal6416a.ReadModesAgree` | src/lib.rs:77-119 | The same holds for reads. On success, both buffers also hold the same bytes. |
| `I2cBus.Bus.Write` | src/lib.rs:105-106 | The bus collaborator's write appends exactly one `Write` transaction and returns the bus's verdict on it. |
| `I2cBus.Bus.WriteRead` | src/lib.rs:116-117 | The combined transfer appends exactly one `WriteRead` transaction, with the caller's buffer length as its read length. On success it fills the buffer with the target's bytes. |
| `RegisterFields.Decode` | src/lib.rs:136-144 | The getter view of a one-byte register gives eight fields. The fields, read as bits, give back the byte, so the view loses nothing. |
| `RegisterFields.FieldIsBit` | src/lib.rs:136-144 | Field `k` of a register byte is its bit of weight `2^k`. |
| `RegisterFields.Encode` | src/lib.rs:200-211 | This is the byte the write closure hands to the register write at line 194 once all fields are set. It decodes back to the field values. |
| `RegisterFields.EncodeDecode` | src/lib.rs:136-144 | Encoding an unmodified field view reproduces the register byte. No code at these lines states this law. It follows from the getter convention there, with field `k` as bit `k`. |
| `RegisterFields.SetField` | src/lib.rs:177-185 | A setter gives field `k` the new value and leaves the other seven fields unchanged. |
| `RegisterFields.SetLowFields` | src/lib.rs:177-185 | The setters of fields `n - 1` down to `0` run in that order. Those fields end up with the given values, and the fields above `n - 1` keep theirs. |
| `RegisterFields.SetEveryField` | src/lib.rs:200-210 | Setting all eight fields in turn gives the encoding of their values, whatever byte the setters started from. |
| `Scenarios.ReadOutputPort0` | src/lib.rs:128-166 | A `Low` device reads register 0x02 in both modes. The bus sees `WriteRead(0x20, [0x02], 1)`. The reply 0b01000011 decodes to fields 6, 1 and 0 set and all others clear. |
| `Scenarios.OutputPort0Closure` | src/lib.rs:177-186 | The test's closure sets fields 7, 6, 5, 4, 2, 0 and clears 3, 1. From any starting byte it yields 0b11110101. |
| `Scenarios.WriteOutputPort0` | src/lib.rs:168-213 | That write to register 0x02 on a `Low` device is exactly `Write(0x20, [0x02, 0b11110101])` in both modes. |
| `Scenarios.AllClearClosure` | src/lib.rs:485-494 | The test's closure clears all eight fields. From any starting byte it yields 0x00. |
| `Scenarios.WriteAllClear` | src/lib.rs:476-522 | The all-clear write to register 0x07 is `Write(0x20, [0x07, 0x00])` on a `Low` device and `Write(0x21, [0x07, 0x00])` on a `High` device. |
| `Scenarios.ReadAddressed` | src/lib.rs:524-546 | A read of register 0x07 is `WriteRead(0x20, [0x07], 1)` on a `Low` device and `WriteRead(0x21, [0x07], 1)` on a `High` device. |

## Left out

- The code generated by `device_driver::create_device!` from `device.yaml` (src/lib.rs:46-49) is not part of this model. That covers the register table, the per-field accessors, `Device::new`, and `read`/`write`/`read_async`/`write_async`. Only the bit convention that the tests fix for one-byte registers is modelled.
- Field layout of two-byte registers: no test fixes it, so `RegisterFields` covers one-byte registers only.
- Register reset values: the generated `write` starts its buffer from a value that is not visible here. So the scenarios quantify over every starting byte `init`, and `SetEveryField` shows that it does not matter once all eight fields are set.
- `Pcal6416aDevice.WriteRegister` and `WriteRegisterAsync`: an oversized buffer is a panic (`assert!`) in the driver. It is modelled as the precondition `|data| <= 2`, not as an error result.
- `Pcal6416aDevice.ReadRegister` and `ReadRegisterAsync`: after a failed read, the buffer's contents are unspecified, and the contracts say nothing about them.
- The real `embedded_hal` and `embedded_hal_async` bus implementations: electrical behaviour (ACK/NACK, arbitration, clock stretching) and bus timeouts are replaced by the two oracles of `I2cBus.Bus`.
- async/await suspension and the tokio runtime: the async methods share the blocking methods' body, and the point where they suspend is not modelled.
- The `embedded_hal_mock` harness (`Mock`, `.done()`), the `defmt` and `Debug`/`Ord` derives, `no_std`, and the README inclusion.
- The output-port-1 and configuration-port tests (src/lib.rs:215-474) have the same shape as the output-port-0 tests. They are covered by the general contracts, not written out as separate scenarios.
