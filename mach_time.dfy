/** The `mach_time.h` shim: `mach_timebase_info` reports a 1/1 tick ratio
    and `mach_absolute_time` reports nanoseconds elapsed since a per-process
    reference point that the first call fixes. The host's monotonic clock
    cannot be seen, so every reading the handler takes is a parameter here. */
module MachTime {
  import opened GuestMem

  newtype i32 = x: int | -0x8000_0000 <= x < 0x8000_0000
  newtype u64 = x: int | 0 <= x < 0x1_0000_0000_0000_0000

  /** One more than the largest `u64`. */
  const U64_LIMIT: nat := 0x1_0000_0000_0000_0000

  type KernReturn = i32

  const KERN_SUCCESS: KernReturn := 0

  /** `struct mach_timebase_info`: ticks * numerator / denominator is the
      duration in nanoseconds. */
  datatype TimebaseInfo = TimebaseInfo(numerator: u32, denominator: u32)

  /** The record is two packed `u32` fields, so it has no padding. */
  const TIMEBASE_INFO_SIZE: nat := 8

  /** The ratio this emulation reports: one tick is one nanosecond. */
  const NATIVE_TIMEBASE: TimebaseInfo := TimebaseInfo(1, 1)

  /** The bytes of a record: the numerator at offset 0, the denominator at
      offset 4, nothing else. */
  function EncodeTimebaseInfo(info: TimebaseInfo): (b: seq<u8>)
    ensures |b| == TIMEBASE_INFO_SIZE
  {
    EncodeU32(info.numerator) + EncodeU32(info.denominator)
  }

  /** The record that 8 stored bytes represent. */
  function DecodeTimebaseInfo(b: seq<u8>): (info: TimebaseInfo)
    requires |b| == TIMEBASE_INFO_SIZE
  {
    TimebaseInfo(DecodeU32(b[..4]), DecodeU32(b[4..]))
  }

  /** The record a guest finds at `addr`. */
  function ReadTimebaseInfo(m: map<nat, u8>, addr: nat): (info: TimebaseInfo)
    requires Mapped(m, addr, TIMEBASE_INFO_SIZE)
  {
    DecodeTimebaseInfo(ReadBytes(m, addr, TIMEBASE_INFO_SIZE))
  }

  /** A stored record reads back as the same record. */
  lemma TimebaseInfoRoundTrip(info: TimebaseInfo)
    ensures DecodeTimebaseInfo(EncodeTimebaseInfo(info)) == info
  {
    var b := EncodeTimebaseInfo(info);
    assert b[..4] == EncodeU32(info.numerator) && b[4..] == EncodeU32(info.denominator);
    DecodeEncodeU32(info.numerator);
    DecodeEncodeU32(info.denominator);
  }

  /** Nanoseconds a guest computes from `ticks` with the ratio `info`. */
  function ToNanoseconds(ticks: u64, info: TimebaseInfo): (nanos: int)
    requires info.denominator != 0
  {
    ticks as int * info.numerator as int / info.denominator as int
  }

  /** With the ratio this emulation reports, a tick count already is a
      nanosecond count. */
  lemma NativeTimebaseIsIdentity(ticks: u64)
    ensures ToNanoseconds(ticks, NATIVE_TIMEBASE) == ticks as int
  {
  }

  datatype Option<T> = None | Some(value: T)

  /** The per-process time state of the shim. */
  class State {
    /** The host clock reading that is time zero for this process, once
        the first `mach_absolute_time` call has fixed it. */
    var absoluteTimeReference: Option<nat>

    constructor ()
      ensures absoluteTimeReference == None
    {
      absoluteTimeReference := None;
    }
  }

  /** The parts of the emulated process the shim touches: guest memory and
      its own time state. */
  class Environment {
    const mem: Memory
    const machTime: State

    constructor (initial: map<nat, u8>)
      ensures fresh(mem) && fresh(machTime)
      ensures mem.bytes == initial && machTime.absoluteTimeReference == None
    {
      mem := new Memory(initial);
      machTime := new State();
    }
  }

  /** `mach_timebase_info`: stores the 1/1 ratio at `info` and succeeds. */
  method MachTimebaseInfo(env: Environment, info: VAddr) returns (r: KernReturn)
    requires Mapped(env.mem.bytes, info as nat, TIMEBASE_INFO_SIZE)
    modifies env.mem
    ensures r == KERN_SUCCESS
    ensures env.mem.bytes.Keys == old(env.mem.bytes).Keys
    ensures Mapped(env.mem.bytes, info as nat, TIMEBASE_INFO_SIZE)
    ensures ReadTimebaseInfo(env.mem.bytes, info as nat) == NATIVE_TIMEBASE
    ensures forall a :: a in old(env.mem.bytes) && !(info as nat <= a < info as nat + TIMEBASE_INFO_SIZE) ==>
              env.mem.bytes[a] == old(env.mem.bytes)[a]
  {
    var record := EncodeTimebaseInfo(NATIVE_TIMEBASE);
    env.mem.Write(info as nat, record);
    ReadAfterWrite(old(env.mem.bytes), info as nat, record);
    TimebaseInfoRoundTrip(NATIVE_TIMEBASE);
    r := KERN_SUCCESS;
  }

  /** The reference after a call that read the host clock as `tInit`: it
      is set if it was not, and never changed once set. */
  function LazyReference(reference: Option<nat>, tInit: nat): (r: Option<nat>)
    ensures r.Some?
    ensures reference.Some? ==> r == reference
    ensures reference.None? ==> r == Some(tInit)
  {
    if reference.None? then Some(tInit) else reference
  }

  /** Result of `mach_absolute_time`: a nanosecond count, or the panic of
      the `unwrap` that converts a count too large for `u64`. */
  datatype AbsoluteTime = Nanos(value: u64) | UnwrapPanic

  /** `Instant::duration_since` in whole nanoseconds: zero when `earlier`
      is in fact later. */
  function DurationSince(now: nat, earlier: nat): (d: nat)
    ensures earlier <= now ==> earlier + d == now
    ensures now < earlier ==> d == 0
  {
    if now >= earlier then now - earlier else 0
  }

  /** What `mach_absolute_time` returns at host time `now` for the
      reference point `reference`; `AbsoluteTimeIsElapsed` and
      `AbsoluteTimeMonotone` state what it promises. */
  function AbsoluteTimeAt(reference: nat, now: nat): (r: AbsoluteTime)
  {
    var elapsed := DurationSince(now, reference);
    if elapsed < U64_LIMIT then Nanos(elapsed as u64) else UnwrapPanic
  }

  /** The conversion to `u64` neither wraps nor saturates: a count is
      returned exactly when it fits, and it is then the elapsed time. */
  lemma AbsoluteTimeIsElapsed(reference: nat, now: nat)
    requires reference <= now
    ensures AbsoluteTimeAt(reference, now).Nanos? <==> now - reference < U64_LIMIT
    ensures AbsoluteTimeAt(reference, now).Nanos? ==> AbsoluteTimeAt(reference, now).value as int == now - reference
  {
  }

  /** When the reference is later than `now`, the elapsed time saturates
      to a count of zero instead of failing. */
  lemma AbsoluteTimeSaturates(reference: nat, now: nat)
    requires now < reference
    ensures AbsoluteTimeAt(reference, now) == Nanos(0)
  {
  }

  /** `b` is a result no earlier than `a`: counts never go down, and a
      count may only be followed by a count no smaller or by the panic
      that ends the series. */
  predicate NotEarlier(a: AbsoluteTime, b: AbsoluteTime)
  {
    b.UnwrapPanic? || (a.Nanos? && a.value <= b.value)
  }

  /** For a fixed reference, a later host time gives a result no earlier. */
  lemma AbsoluteTimeMonotone(reference: nat, t1: nat, t2: nat)
    requires t1 <= t2
    ensures NotEarlier(AbsoluteTimeAt(reference, t1), AbsoluteTimeAt(reference, t2))
  {
  }

  /** `mach_absolute_time`: fixes the reference at the first reading
      `tInit` if none is set, then measures from it to the second reading
      `tNow`. The reference is set even when the conversion panics. */
  method MachAbsoluteTime(env: Environment, tInit: nat, tNow: nat) returns (r: AbsoluteTime)
    modifies env.machTime
    ensures env.machTime.absoluteTimeReference == LazyReference(old(env.machTime.absoluteTimeReference), tInit)
    ensures r == AbsoluteTimeAt(env.machTime.absoluteTimeReference.value, tNow)
  {
    if env.machTime.absoluteTimeReference.None? {
      env.machTime.absoluteTimeReference := Some(tInit);
    }
    var elapsed := DurationSince(tNow, env.machTime.absoluteTimeReference.value);
    if elapsed < U64_LIMIT {
      r := Nanos(elapsed as u64);
    } else {
      r := UnwrapPanic;
    }
  }

  /** The two host clock readings one `mach_absolute_time` call takes: the
      one used only to set the reference, and the one measured. */
  datatype Reading = Reading(init: nat, now: nat)

  /** The host clock never runs backwards across a series of calls. */
  predicate ClockMonotone(rs: seq<Reading>)
  {
    (forall i :: 0 <= i < |rs| ==> rs[i].init <= rs[i].now) &&
    (forall i, j :: 0 <= i < j < |rs| ==> rs[i].now <= rs[j].init)
  }

  /** The results of successive `mach_absolute_time` calls of one process
      whose time state starts with `reference`. A panic unwinds out of the
      handler and ends the emulated process, so the series stops at the
      first `UnwrapPanic`: every result before the last is a count, and a
      series cut short ends in a panic. */
  function Run(reference: Option<nat>, rs: seq<Reading>): (r: seq<AbsoluteTime>)
    ensures |r| <= |rs|
    ensures rs != [] ==> r != []
    ensures forall i :: 0 <= i < |r| - 1 ==> r[i].Nanos?
    ensures |r| < |rs| ==> r[|r| - 1].UnwrapPanic?
    decreases rs
  {
    if rs == [] then []
    else
      var fixed := LazyReference(reference, rs[0].init);
      var result := AbsoluteTimeAt(fixed.value, rs[0].now);
      if result.UnwrapPanic? then [result] else [result] + Run(fixed, rs[1..])
  }

  /** All calls of a series measure from the same reference: the one set
      before the series, or else the first call's first reading. */
  lemma {:induction false} RunSharesReference(reference: Option<nat>, rs: seq<Reading>)
    requires rs != []
    decreases rs
    ensures forall i :: 0 <= i < |Run(reference, rs)| ==>
              Run(reference, rs)[i] == AbsoluteTimeAt(LazyReference(reference, rs[0].init).value, rs[i].now)
  {
    var fixed := LazyReference(reference, rs[0].init);
    if |rs| > 1 && AbsoluteTimeAt(fixed.value, rs[0].now).Nanos? {
      RunSharesReference(fixed, rs[1..]);
      assert LazyReference(fixed, rs[1..][0].init) == fixed;
    }
  }

  /** Under a host clock that never runs backwards, no call of a series
      returns an earlier result than a call before it. */
  lemma {:induction false} RunNeverDecreases(reference: Option<nat>, rs: seq<Reading>)
    requires ClockMonotone(rs)
    ensures forall i, j :: 0 <= i <= j < |Run(reference, rs)| ==>
              NotEarlier(Run(reference, rs)[i], Run(reference, rs)[j])
  {
    if rs != [] {
      RunSharesReference(reference, rs);
      var fixed := LazyReference(reference, rs[0].init).value;
      forall i, j | 0 <= i <= j < |Run(reference, rs)|
        ensures NotEarlier(Run(reference, rs)[i], Run(reference, rs)[j])
      {
        AbsoluteTimeMonotone(fixed, rs[i].now, rs[j].now);
      }
    }
  }

  /** One more call of a series: given the results so far and the
      reference they left, the next result either ends the series with a
      panic or is followed by the series from the reference it leaves. */
  lemma RunStep(start: Option<nat>, rs: seq<Reading>, i: nat, results: seq<AbsoluteTime>, before: Option<nat>)
    requires i < |rs|
    requires results + Run(before, rs[i..]) == Run(start, rs)
    ensures var after := LazyReference(before, rs[i].init);
            var result := AbsoluteTimeAt(after.value, rs[i].now);
            if result.UnwrapPanic? then results + [result] == Run(start, rs)
            else (results + [result]) + Run(after, rs[i + 1..]) == Run(start, rs)
  {
    assert rs[i..][0] == rs[i] && rs[i..][1..] == rs[i + 1..];
  }

  /** A guest calling `mach_absolute_time` once per pair of clock readings
      in `rs`, until the process ends with a panic or the readings run out:
      the handler's results are exactly the series `Run` describes. */
  method AbsoluteTimeSeries(env: Environment, rs: seq<Reading>) returns (results: seq<AbsoluteTime>)
    modifies env.machTime
    ensures results == Run(old(env.machTime.absoluteTimeReference), rs)
    ensures rs == [] ==> env.machTime.absoluteTimeReference == old(env.machTime.absoluteTimeReference)
    ensures rs != [] ==> env.machTime.absoluteTimeReference == LazyReference(old(env.machTime.absoluteTimeReference), rs[0].init)
  {
    ghost var start := env.machTime.absoluteTimeReference;
    ghost var fixed := if rs == [] then start else LazyReference(start, rs[0].init);
    results := [];
    var i := 0;
    while i < |rs|
      invariant 0 <= i <= |rs|
      invariant results + Run(env.machTime.absoluteTimeReference, rs[i..]) == Run(start, rs)
      invariant env.machTime.absoluteTimeReference == if i == 0 then start else fixed
    {
      RunStep(start, rs, i, results, env.machTime.absoluteTimeReference);
      var result := MachAbsoluteTime(env, rs[i].init, rs[i].now);
      results := results + [result];
      if result.UnwrapPanic? {
        return;
      }
      i := i + 1;
    }
  }

  /** A process calls `mach_timebase_info` and then `mach_absolute_time`,
      and calls it a second time unless the first call panicked: the
      record reads 1/1, the status is success, the first count is the time
      between the first call's two clock readings, and the second call
      measures from that same first reading, so it is no earlier. */
  method FreshProcessScenario(initial: map<nat, u8>, info: VAddr, t1: nat, t2: nat, t3: nat, t4: nat)
    returns (status: KernReturn, ratio: TimebaseInfo, first: AbsoluteTime, second: Option<AbsoluteTime>)
    requires Mapped(initial, info as nat, TIMEBASE_INFO_SIZE)
    requires t1 <= t2 <= t3 <= t4
    ensures status == KERN_SUCCESS && ratio == NATIVE_TIMEBASE
    ensures first == AbsoluteTimeAt(t1, t2)
    ensures second.Some? <==> first.Nanos?
    ensures second.Some? ==> second.value == AbsoluteTimeAt(t1, t4) && NotEarlier(first, second.value)
  {
    var env := new Environment(initial);
    status := MachTimebaseInfo(env, info);
    ratio := ReadTimebaseInfo(env.mem.bytes, info as nat);
    first := MachAbsoluteTime(env, t1, t2);
    if first.Nanos? {
      var later := MachAbsoluteTime(env, t3, t4);
      AbsoluteTimeMonotone(t1, t2, t4);
      second := Some(later);
    } else {
      second := None;
    }
  }

  /** Two emulated processes keep separate time states: however many calls
      process A has made, the first count process B sees is measured from
      B's own first reading. */
  method IsolatedProcesses(runA: seq<Reading>, b1: nat, b2: nat)
    returns (fromA: seq<AbsoluteTime>, fromB: AbsoluteTime)
    ensures fromA == Run(None, runA)
    ensures fromB == AbsoluteTimeAt(b1, b2)
  {
    var envA := new Environment(map[]);
    var envB := new Environment(map[]);
    fromA := AbsoluteTimeSeries(envA, runA);
    fromB := MachAbsoluteTime(envB, b1, b2);
  }
}
