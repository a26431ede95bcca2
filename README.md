# Mach time shim of touchHLE, in Dafny

touchHLE runs iPhone OS binaries and answers their calls into `mach_time.h`
with two handlers:

- `mach_timebase_info(info)` stores the record `{numerator: 1, denominator: 1}`
  (two packed `u32`s, 8 bytes) at the guest pointer `info` and returns
  `KERN_SUCCESS` (0). One tick is therefore one nanosecond.
- `mach_absolute_time()` returns the nanoseconds elapsed since the process's
  reference point, as a `u64`. The reference lives in the process's time
  `State` and starts unset. The first call sets it from the host's monotonic
  clock, and nothing changes it afterwards.

The model has two modules:

- `GuestMem` (`guest_mem.dfy`) is the part of guest memory the shim uses. It is
  a byte map over the 32-bit address space. `Memory.Write` stores a sequence
  of bytes at an address. It also defines the byte codec of a `u32` and its
  round trip. Turning the record into bytes, which the memory layer's typed
  write does, is `EncodeTimebaseInfo`, called by `MachTimebaseInfo`.
- `MachTime` (`mach_time.dfy`) models the shim itself:
  - `State` is a class whose field `absoluteTimeReference: Option<nat>` is
    updated in place.
  - `Environment` holds the guest memory and the time state.
  - `MachTimebaseInfo` and `MachAbsoluteTime` are the two handlers.

The host clock cannot be observed. Each `Instant::now()` reading becomes a
parameter: `tInit` is the reading that may set the reference, and `tNow` is the
one that is measured. A series of calls is modelled by the function `Run` over a
sequence of such readings. The series stops at the first panic, because a panic
ends the emulated process. `AbsoluteTimeSeries` shows that calling the handler
once per reading gives exactly that series. The lemmas about `Run` show that
every call in the series measures from one shared reference. They also show
that, when the host clock never runs backwards, later results are never earlier than earlier ones.
`Instant::duration_since` is modelled as Rust's standard library defines it,
which is saturating subtraction. Because of that, `MachAbsoluteTime` needs no
precondition.

## Model

| member | source | states |
|---|---|---|
| `GuestMem.DecodeEncodeU32` | src/libc/mach_time.rs:15-16 | A stored `u32` field reads back as the same value. |
| `GuestMem.WriteBytes` | src/libc/mach_time.rs:28-34 | A write stores the record's bytes at the destination. Mapped addresses and every byte outside the written range are unchanged. |
| `GuestMem.ReadAfterWrite` | src/libc/mach_time.rs:28-34 | Reading the written range back returns exactly the bytes written. |
| `GuestMem.Memory.Write` | src/libc/mach_time.rs:28 | The memory's new contents are the old contents with the record's bytes stored at the pointer. |
| `MachTime.EncodeTimebaseInfo` | src/libc/mach_time.rs:13-17 | The packed record occupies exactly 8 bytes and has no padding. |
| `MachTime.TimebaseInfoRoundTrip` | src/libc/mach_time.rs:13-17 | A stored record reads back with the same numerator and denominator. |
| `MachTime.NativeTimebaseIsIdentity` | src/libc/mach_time.rs:38-39 | Applying the reported 1/1 ratio to any tick count gives back the same count, so ticks are already nanoseconds. |
| `MachTime.State.constructor` | src/libc/mach_time.rs:8-11 | A new time state has no reference point. |
| `MachTime.MachTimebaseInfo` | src/libc/mach_time.rs:24-36 | Always returns `KERN_SUCCESS`. The record at `info` then reads 1/1. Every other guest byte and the set of mapped addresses are unchanged. |
| `MachTime.LazyReference` | src/libc/mach_time.rs:42-45 | After any call the reference is set. It is set to the first reading only when it was unset, and it is never changed once set. |
| `MachTime.Environment.constructor` | src/libc/mach_time.rs:41-42 | A new process context holds fresh guest memory and a fresh time state with no reference. The handlers reach the time state as `env.libc_state.mach_time` and memory as `env.mem`. |
| `MachTime.DurationSince` | src/libc/mach_time.rs:47 | `Instant::duration_since`: the exact difference when the reference is not later than now, and zero otherwise, so it is never negative. |
| `MachTime.AbsoluteTimeAt` | src/libc/mach_time.rs:46-50 | The handler's computation: elapsed nanoseconds from the reference to now, converted to `u64` or panicking. Its properties are proved in `AbsoluteTimeIsElapsed` and `AbsoluteTimeMonotone`. |
| `MachTime.AbsoluteTimeIsElapsed` | src/libc/mach_time.rs:46-50 | When the reference is not later than now, the result is a count exactly when the elapsed nanoseconds fit in `u64`. That count equals the clock reading minus the reference. Otherwise the `unwrap` panics, with no wrapping or saturation. |
| `MachTime.AbsoluteTimeSaturates` | src/libc/mach_time.rs:47 | When the reference is later than now, `duration_since` saturates and the result is a count of zero, not a panic. |
| `MachTime.AbsoluteTimeMonotone` | src/libc/mach_time.rs:40 | With the reference fixed, a later host time gives a count at least as large, or the panic. |
| `MachTime.MachAbsoluteTime` | src/libc/mach_time.rs:41-51 | The reference is set if it was unset and kept if it was set, even when the conversion then panics. The result is measured from that reference to the second reading. |
| `MachTime.Run` | src/libc/mach_time.rs:41-51 | A series of calls yields at most one result per call and ends at the first panic. Every result before the last is a count, and a series that is cut short ends in a panic. |
| `MachTime.RunSharesReference` | src/libc/mach_time.rs:42-47 | All calls in a series measure from the same reference: the one already set, or else the first call's first reading. |
| `MachTime.RunNeverDecreases` | src/libc/mach_time.rs:40 | When the host clock never runs backwards, no call in a series returns an earlier result than any call before it. |
| `MachTime.AbsoluteTimeSeries` | src/libc/mach_time.rs:41-51 | Calling the handler once per pair of readings, until a panic or the end of the readings, returns exactly the series `Run` gives for the state's old reference. Afterwards the reference is unchanged when there were no readings, and otherwise it is the old reference or, if there was none, the first call's first reading. |
| `MachTime.FreshProcessScenario` | src/libc/mach_time.rs:24-51 | In a new process, `mach_timebase_info` succeeds and leaves a 1/1 record. The first `mach_absolute_time` is the time between that call's own two readings. A second call happens exactly when the first did not panic. It measures from the first call's first reading, so it is no earlier. |
| `MachTime.IsolatedProcesses` | src/libc/mach_time.rs:8-11 | Two processes have separate time states. However many calls process A makes, process B's first count is measured from B's own first reading. |

## Left out

- The host clock: `Instant::now()` is a foreign call, so its readings are parameters. "The host clock never runs backwards" is the precondition `ClockMonotone` of the series lemmas. The `u128` from `Duration::as_nanos` is modelled as an unbounded natural number, and only its `u64` bound check is kept.
- The memory layer's internals. `env.mem.write` faults on an unmapped or unwritable address. Here that is the precondition `Mapped` of `Memory.Write` and `MachTimebaseInfo`, because the fault is raised by the memory layer and not by the shim.
- Byte order of the stored record. It is fixed by the memory layer, which is not part of this model. The codec stores the least significant byte first, but every property is stated through decoding, so none of them depends on that choice.
- `unsafe impl SafeRead` (line 18) is a marker for the memory layer and has no behaviour of its own.
- The `FUNCTIONS` export table (lines 53-56) registers the handlers with the dynamic linker. It has no behaviour to verify.
- A panic in `mach_absolute_time` unwinds out of the handler. Here it is the result `UnwrapPanic`, and a series of calls stops there. How the emulator reports the panic is not modelled.
- `ToNanoseconds` is the guest's own conversion. It is computed on unbounded integers, not in the guest's machine arithmetic.
