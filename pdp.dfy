/** The power-distribution-panel telemetry decoder: it unpacks 8-byte CAN
    status frames into channel currents, bus voltage, battery resistance and
    total current and caches them under one shared timestamp. The voltage,
    resistance and total-current getters refuse a cache older than `MAX_AGE`
    milliseconds; the channel-current getter returns cached values without
    that check. */
module PowerDistribution {
  import opened Wrappers

  /** One CAN data payload: the panel always sends eight bytes. */
  type Frame = s: seq<bv8> | |s| == 8 witness [0, 0, 0, 0, 0, 0, 0, 0]

  const PDP_ID_STATUS_1: bv32 := 0x8041400
  const PDP_ID_STATUS_2: bv32 := 0x8041440
  const PDP_ID_STATUS_3: bv32 := 0x8041480
  const PDP_ID_STATUS_ENERGY: bv32 := 0x8041740

  /** Milliseconds a decoded frame stays valid. */
  const MAX_AGE: int := 100
  /** Number of cached channel currents. */
  const CHANNELS: nat := 16
  /** Amperes per count of a current field. */
  const AMPS_PER_COUNT: real := 0.125

  // ---------------------------------------------------------------------------
  // Bit-level field decoders, written with the masks and shifts of the panel
  // class. A Java byte is sign-extended before `&`, but every mask here is at
  // most 0xFF, so masking the unsigned byte gives the same bits.

  /** Layout of channels 0, 4, 6, 10 and 12: `((hi & 0xFF) << 2) | lo & 0xC0`.
      The two bits taken from `lo` are not shifted down: they stay at bits 6
      and 7, on top of bits 4 and 5 of `hi`, so the field never reaches 1023. */
  function FieldA(hi: bv8, lo: bv8): (raw: bv16)
    ensures (hi as int) * 4 <= raw as int <= (hi as int) * 4 + 0xC0
    ensures raw as int <= 1020 && raw & 3 == 0
  {
    ((hi as bv16) << 2) | ((lo & 0xC0) as bv16)
  }

  /** Layout of channels 1, 5, 7, 11 and 13: `((hi & 0x3F) << 4) | lo & 0xF0`.
      The high nibble of `lo` overlaps bits 4 to 7 of the shifted `hi`. */
  function FieldB(hi: bv8, lo: bv8): (raw: bv16)
    ensures (hi & 0x3F) as int * 16 <= raw as int <= (hi & 0x3F) as int * 16 + 0xF0
    ensures raw as int <= 1008 && raw & 0xF == 0
  {
    (((hi & 0x3F) as bv16) << 4) | ((lo & 0xF0) as bv16)
  }

  /** Layout of channels 2, 8 and 14: `((hi & 0x0F) << 6) | lo & 0x3F`, a
      proper 10-bit field: four bits of `hi` above six bits of `lo`. */
  function FieldC(hi: bv8, lo: bv8): (raw: bv16)
    ensures raw as int == (hi & 0x0F) as int * 64 + (lo & 0x3F) as int
    ensures raw as int <= 1023
  {
    (((hi & 0x0F) as bv16) << 6) | ((lo & 0x3F) as bv16)
  }

  /** Layout of channels 3, 9 and 15: `((hi & 0xC0) << 8) | lo & 0xFF`. The
      two top bits of `hi` land on bits 14 and 15, so the field can reach
      0xC0FF rather than 1023. */
  function FieldD(hi: bv8, lo: bv8): (raw: bv16)
    ensures raw as int == (hi >> 6) as int * 0x4000 + lo as int
    ensures raw as int <= 0xC0FF
  {
    (((hi & 0xC0) as bv16) << 8) | (lo as bv16)
  }

  /** A current field scaled to amperes. */
  function Amps(raw: bv16): real
  {
    (raw as int) as real * AMPS_PER_COUNT
  }

  /** The six raw current fields of a status frame, in channel order
      (Status3 uses only the first four). */
  function GroupCounts(f: Frame): (n: seq<int>)
    ensures |n| == 6
    ensures forall i :: 0 <= i < 6 ==> 0 <= n[i]
    ensures n[0] <= 1020 && n[4] <= 1020
    ensures n[1] <= 1008 && n[5] <= 1008
    ensures n[2] <= 1023 && n[3] <= 0xC0FF
  {
    var a0, b1, c2 := FieldA(f[0], f[1]) as int, FieldB(f[1], f[2]) as int, FieldC(f[2], f[3]) as int;
    var d3, a4, b5 := FieldD(f[3], f[4]) as int, FieldA(f[5], f[6]) as int, FieldB(f[6], f[7]) as int;
    [a0, b1, c2, d3, a4, b5]
  }

  /** The six channel currents of a status frame, in amperes: each is a
      non-negative whole number of 0.125 A steps. */
  function GroupCurrents(f: Frame): (c: seq<real>)
    ensures |c| == 6
    ensures forall i :: 0 <= i < 6 ==> 0.0 <= c[i] && c[i] == GroupCounts(f)[i] as real * AMPS_PER_COUNT
    ensures c[0] <= 127.5 && c[4] <= 127.5
    ensures c[1] <= 126.0 && c[5] <= 126.0
    ensures c[2] <= 127.875
    ensures c[3] <= 6175.875
  {
    var n := GroupCounts(f);
    [n[0] as real * AMPS_PER_COUNT, n[1] as real * AMPS_PER_COUNT, n[2] as real * AMPS_PER_COUNT,
     n[3] as real * AMPS_PER_COUNT, n[4] as real * AMPS_PER_COUNT, n[5] as real * AMPS_PER_COUNT]
  }

  /** Bus voltage from byte 6 of Status3: `(b & 0xFF) * 0.05 + 4.0`. */
  function Status3Voltage(b: bv8): (v: real)
    ensures 4.0 <= v <= 16.75
    ensures b == 0 <==> v == 4.0
  {
    (b as int) as real * 0.05 + 4.0
  }

  /** Battery resistance from byte 5 of Status3: `(b & 0xFF) / 1000.0`. */
  function Status3Resistance(b: bv8): (res: real)
    ensures 0.0 <= res <= 0.255
    ensures res * 1000.0 == (b as int) as real
  {
    (b as int) as real / 1000.0
  }

  /** The 12-bit total-current field of the energy frame: all of `b1` above
      the high nibble of `b2`. */
  function EnergyRaw(b1: bv8, b2: bv8): (raw: bv16)
    ensures raw <= 0xFFF
    ensures raw >> 4 == b1 as bv16 && raw & 0xF == (b2 >> 4) as bv16
    ensures raw as int == (b1 as int) * 16 + (b2 >> 4) as int
  {
    ((b1 as bv16) << 4) + (((b2 & 0xF0) >> 4) as bv16)
  }

  /** Total current in amperes from an energy frame. */
  function TotalCurrent(f: Frame): (a: real)
    ensures 0.0 <= a <= 511.875
  {
    Amps(EnergyRaw(f[1], f[2]))
  }

  // ---------------------------------------------------------------------------
  // The cache as a value, and what each reader does to it.

  /** The cached fields of a panel: channel currents, voltage, total current,
      resistance and the shared timestamp of the last decoded frame. */
  datatype Snapshot = Snapshot(channels: seq<real>, voltage: real, current: real,
                               resistance: real, lastRead: int)

  /** `s` with `vals` written over the slots starting at `start`. */
  function Overwrite(s: seq<real>, start: nat, vals: seq<real>): (r: seq<real>)
    requires start + |vals| <= |s|
    ensures |r| == |s|
    ensures forall i :: 0 <= i < |s| && !(start <= i < start + |vals|) ==> r[i] == s[i]
    ensures forall i :: 0 <= i < |vals| ==> r[start + i] == vals[i]
  {
    s[..start] + vals + s[start + |vals|..]
  }

  /** What `readStatus1` does: channels 0 to 5 and the timestamp, or nothing
      when no frame arrived. */
  function AfterStatus1(s: Snapshot, frame: Option<Frame>, now: int): (r: Snapshot)
    requires |s.channels| == CHANNELS
    ensures frame.None? ==> r == s
    ensures frame.Some? ==> r.lastRead == now
    ensures |r.channels| == CHANNELS
    ensures r.voltage == s.voltage && r.current == s.current && r.resistance == s.resistance
    ensures forall i :: 6 <= i < CHANNELS ==> r.channels[i] == s.channels[i]
    ensures frame.Some? ==> r.channels[..6] == GroupCurrents(frame.value)
  {
    match frame
    case None => s
    case Some(f) => s.(channels := Overwrite(s.channels, 0, GroupCurrents(f)), lastRead := now)
  }

  /** What `readStatus2` does: channels 6 to 11 and the timestamp. */
  function AfterStatus2(s: Snapshot, frame: Option<Frame>, now: int): (r: Snapshot)
    requires |s.channels| == CHANNELS
    ensures frame.None? ==> r == s
    ensures frame.Some? ==> r.lastRead == now
    ensures |r.channels| == CHANNELS
    ensures r.voltage == s.voltage && r.current == s.current && r.resistance == s.resistance
    ensures forall i :: 0 <= i < CHANNELS && !(6 <= i < 12) ==> r.channels[i] == s.channels[i]
    ensures frame.Some? ==> r.channels[6..12] == GroupCurrents(frame.value)
  {
    match frame
    case None => s
    case Some(f) => s.(channels := Overwrite(s.channels, 6, GroupCurrents(f)), lastRead := now)
  }

  /** What `readStatus3` does: channels 12 to 15, voltage, resistance and the
      timestamp. */
  function AfterStatus3(s: Snapshot, frame: Option<Frame>, now: int): (r: Snapshot)
    requires |s.channels| == CHANNELS
    ensures frame.None? ==> r == s
    ensures |r.channels| == CHANNELS
    ensures frame.Some? ==>
      && r.lastRead == now
      && r.voltage == Status3Voltage(frame.value[6])
      && r.resistance == Status3Resistance(frame.value[5])
      && r.channels[12..] == GroupCurrents(frame.value)[..4]
    ensures r.current == s.current
    ensures r.channels[..12] == s.channels[..12]
  {
    match frame
    case None => s
    case Some(f) =>
      s.(channels := Overwrite(s.channels, 12, GroupCurrents(f)[..4]),
         voltage := Status3Voltage(f[6]), resistance := Status3Resistance(f[5]),
         lastRead := now)
  }

  /** What the decoding half of `getTotalCurrent` does: the total current and
      the timestamp. */
  function AfterEnergy(s: Snapshot, frame: Option<Frame>, now: int): (r: Snapshot)
    ensures frame.None? ==> r == s
    ensures frame.Some? ==> r == s.(current := TotalCurrent(frame.value), lastRead := now)
  {
    match frame
    case None => s
    case Some(f) => s.(current := TotalCurrent(f), lastRead := now)
  }

  /** The staleness rule: cached values older than `MAX_AGE` are refused. */
  predicate Stale(lastRead: int, now: int)
  {
    now - lastRead > MAX_AGE
  }

  /** What the cache can hold: sixteen non-negative channel currents and
      non-negative voltage, total current and resistance. */
  predicate Plausible(s: Snapshot)
  {
    && |s.channels| == CHANNELS
    && (forall i :: 0 <= i < CHANNELS ==> 0.0 <= s.channels[i])
    && 0.0 <= s.voltage && 0.0 <= s.current && 0.0 <= s.resistance
  }

  /** The zeroed cache of a new panel is plausible, and every reader keeps
      it so, whether or not its frame arrived. */
  lemma {:induction false} ReadersKeepPlausible(s: Snapshot, frame: Option<Frame>, now: int)
    requires Plausible(s)
    ensures Plausible(Snapshot(seq(CHANNELS, _ => 0.0), 0.0, 0.0, 0.0, 0))
    ensures Plausible(AfterStatus1(s, frame, now)) && Plausible(AfterStatus2(s, frame, now))
    ensures Plausible(AfterStatus3(s, frame, now)) && Plausible(AfterEnergy(s, frame, now))
  {
    if frame.Some? {
      var c := GroupCurrents(frame.value);
      var r1, r2, r3 := AfterStatus1(s, frame, now), AfterStatus2(s, frame, now), AfterStatus3(s, frame, now);
      forall i | 0 <= i < CHANNELS
        ensures 0.0 <= r1.channels[i] && 0.0 <= r2.channels[i] && 0.0 <= r3.channels[i]
      {
        if i < 6 { assert r1.channels[i] == r1.channels[..6][i] == c[i]; }
        if 6 <= i < 12 { assert r2.channels[i] == r2.channels[6..12][i - 6] == c[i - 6]; }
        if i < 12 { assert r3.channels[i] == r3.channels[..12][i] == s.channels[i]; }
        else { assert r3.channels[i] == r3.channels[12..][i - 12] == c[i - 12]; }
      }
    }
  }

  /** Because every reader stamps the one shared `lastRead`, a fresh energy
      frame makes a later voltage read succeed even when no Status3 frame has
      arrived since, returning the old cached voltage. */
  lemma AnyFrameRefreshesVoltage(s: Snapshot, f: Frame, t: int, now: int)
    requires |s.channels| == CHANNELS
    requires t <= now <= t + MAX_AGE
    ensures var s' := AfterStatus3(AfterEnergy(s, Some(f), t), None, now);
      !Stale(s'.lastRead, now) && s'.voltage == s.voltage
  {
  }

  /** The bytes that decode to the largest field value of layout A give
      1020 counts, that is 127.5 A, not 1023 counts (127.875 A). */
  lemma AllOnesChannelZero(f: Frame)
    requires f[0] == 0xFF && f[1] == 0xFF
    ensures GroupCurrents(f)[0] == 127.5
  {
    assert FieldA(0xFF, 0xFF) == 0x3FC;
  }

  /** The largest layout-D field: 0xC0FF counts, 6175.875 A. */
  lemma AllOnesChannelThree(f: Frame)
    requires f[3] == 0xFF && f[4] == 0xFF
    ensures GroupCurrents(f)[3] == 6175.875
  {
    assert FieldD(0xFF, 0xFF) == 0xC0FF;
  }

  // ---------------------------------------------------------------------------

  /** The panel: four CAN channels and the cache they fill. */
  class PDP {
    const status1Id: bv32
    const status2Id: bv32
    const status3Id: bv32
    const statusEnergyId: bv32
    var cachedVoltage: real
    var cachedCurrent: real
    const cachedChannelCurrents: array<real>
    var cachedResistance: real
    var lastRead: int

    ghost predicate Valid()
      reads this
    {
      cachedChannelCurrents.Length == CHANNELS
    }

    /** The cache as a value. */
    ghost function State(): Snapshot
      reads this, cachedChannelCurrents
    {
      Snapshot(cachedChannelCurrents[..], cachedVoltage, cachedCurrent, cachedResistance, lastRead)
    }

    /** `PDP(int ID)`: the arbitration id of each status frame is its base id
        with the panel id or-ed in; the cache starts at zero. */
    constructor (id: bv32)
      ensures Valid() && fresh(cachedChannelCurrents)
      ensures status1Id == PDP_ID_STATUS_1 | id && status2Id == PDP_ID_STATUS_2 | id
      ensures status3Id == PDP_ID_STATUS_3 | id && statusEnergyId == PDP_ID_STATUS_ENERGY | id
      ensures State() == Snapshot(seq(CHANNELS, _ => 0.0), 0.0, 0.0, 0.0, 0)
    {
      status1Id := PDP_ID_STATUS_1 | id;
      status2Id := PDP_ID_STATUS_2 | id;
      status3Id := PDP_ID_STATUS_3 | id;
      statusEnergyId := PDP_ID_STATUS_ENERGY | id;
      cachedChannelCurrents := new real[CHANNELS](_ => 0.0);
      cachedVoltage, cachedCurrent, cachedResistance, lastRead := 0.0, 0.0, 0.0, 0;
    }

    /** `PDP()`: the panel at id 0. */
    constructor Default()
      ensures Valid() && fresh(cachedChannelCurrents)
      ensures status1Id == PDP_ID_STATUS_1 && status2Id == PDP_ID_STATUS_2
      ensures status3Id == PDP_ID_STATUS_3 && statusEnergyId == PDP_ID_STATUS_ENERGY
      ensures State() == Snapshot(seq(CHANNELS, _ => 0.0), 0.0, 0.0, 0.0, 0)
    {
      status1Id := PDP_ID_STATUS_1;
      status2Id := PDP_ID_STATUS_2;
      status3Id := PDP_ID_STATUS_3;
      statusEnergyId := PDP_ID_STATUS_ENERGY;
      cachedChannelCurrents := new real[CHANNELS](_ => 0.0);
      cachedVoltage, cachedCurrent, cachedResistance, lastRead := 0.0, 0.0, 0.0, 0;
    }

    /** Decodes a Status1 frame (if one arrived at `now`) into channels 0-5. */
    method ReadStatus1(frame: Option<Frame>, now: int)
      requires Valid()
      modifies this`lastRead, cachedChannelCurrents
      ensures Valid()
      ensures State() == AfterStatus1(old(State()), frame, now)
    {
      if frame.Some? {
        ghost var before := cachedChannelCurrents[..];
        var c := GroupCurrents(frame.value);
        cachedChannelCurrents[0] := c[0];
        cachedChannelCurrents[1] := c[1];
        cachedChannelCurrents[2] := c[2];
        cachedChannelCurrents[3] := c[3];
        cachedChannelCurrents[4] := c[4];
        cachedChannelCurrents[5] := c[5];
        assert cachedChannelCurrents[..] == Overwrite(before, 0, c);
        lastRead := now;
      }
    }

    /** Decodes a Status2 frame into channels 6-11. */
    method ReadStatus2(frame: Option<Frame>, now: int)
      requires Valid()
      modifies this`lastRead, cachedChannelCurrents
      ensures Valid()
      ensures State() == AfterStatus2(old(State()), frame, now)
    {
      if frame.Some? {
        ghost var before := cachedChannelCurrents[..];
        var c := GroupCurrents(frame.value);
        cachedChannelCurrents[6] := c[0];
        cachedChannelCurrents[7] := c[1];
        cachedChannelCurrents[8] := c[2];
        cachedChannelCurrents[9] := c[3];
        cachedChannelCurrents[10] := c[4];
        cachedChannelCurrents[11] := c[5];
        assert cachedChannelCurrents[..] == Overwrite(before, 6, c);
        lastRead := now;
      }
    }

    /** Decodes a Status3 frame into channels 12-15, voltage and resistance. */
    method ReadStatus3(frame: Option<Frame>, now: int)
      requires Valid()
      modifies this`lastRead, this`cachedVoltage, this`cachedResistance, cachedChannelCurrents
      ensures Valid()
      ensures State() == AfterStatus3(old(State()), frame, now)
    {
      if frame.Some? {
        ghost var before := cachedChannelCurrents[..];
        var raw := frame.value;
        var c := GroupCurrents(raw);
        cachedChannelCurrents[12] := c[0];
        cachedChannelCurrents[13] := c[1];
        cachedChannelCurrents[14] := c[2];
        cachedChannelCurrents[15] := c[3];
        assert cachedChannelCurrents[..] == Overwrite(before, 12, c[..4]);
        cachedVoltage := Status3Voltage(raw[6]);
        cachedResistance := Status3Resistance(raw[5]);
        lastRead := now;
      }
    }

    /** `getVoltageSafely`: polls Status3, then refuses a stale cache. */
    method GetVoltageSafely(frame: Option<Frame>, now: int) returns (r: Result<real>)
      requires Valid()
      modifies this`lastRead, this`cachedVoltage, this`cachedResistance, cachedChannelCurrents
      ensures Valid()
      ensures State() == AfterStatus3(old(State()), frame, now)
      ensures r.Failure? <==> Stale(lastRead, now)
      ensures r.Success? ==> r.value == cachedVoltage
    {
      ReadStatus3(frame, now);
      if now - lastRead > MAX_AGE {
        return Failure("Can not read voltage from PDP");
      }
      return Success(cachedVoltage);
    }

    /** `getVoltage`: as `GetVoltageSafely`, falling back to the driver
        station's battery voltage `dsVoltage` on a stale cache. */
    method GetVoltage(frame: Option<Frame>, now: int, dsVoltage: real) returns (v: real)
      requires Valid()
      modifies this`lastRead, this`cachedVoltage, this`cachedResistance, cachedChannelCurrents
      ensures Valid()
      ensures State() == AfterStatus3(old(State()), frame, now)
      ensures v == if Stale(lastRead, now) then dsVoltage else cachedVoltage
    {
      var r := GetVoltageSafely(frame, now);
      match r
      case Success(x) => v := x;
      case Failure(_) => v := dsVoltage;
    }

    /** `getBatteryResistanceSafely`: polls Status3, then refuses a stale cache. */
    method GetBatteryResistanceSafely(frame: Option<Frame>, now: int) returns (r: Result<real>)
      requires Valid()
      modifies this`lastRead, this`cachedVoltage, this`cachedResistance, cachedChannelCurrents
      ensures Valid()
      ensures State() == AfterStatus3(old(State()), frame, now)
      ensures r.Failure? <==> Stale(lastRead, now)
      ensures r.Success? ==> r.value == cachedResistance
    {
      ReadStatus3(frame, now);
      if now - lastRead > MAX_AGE {
        return Failure("Can not read voltage from PDP");
      }
      return Success(cachedResistance);
    }

    /** `getBatteryResistance`: falls back to the high estimate 80.0. */
    method GetBatteryResistance(frame: Option<Frame>, now: int) returns (res: real)
      requires Valid()
      modifies this`lastRead, this`cachedVoltage, this`cachedResistance, cachedChannelCurrents
      ensures Valid()
      ensures State() == AfterStatus3(old(State()), frame, now)
      ensures res == if Stale(lastRead, now) then 80.0 else cachedResistance
    {
      var r := GetBatteryResistanceSafely(frame, now);
      match r
      case Success(x) => res := x;
      case Failure(_) => res := 80.0;
    }

    /** `getTotalCurrent`: decodes an energy frame step by step, then refuses
        a stale cache. */
    method GetTotalCurrent(frame: Option<Frame>, now: int) returns (r: Result<real>)
      requires Valid()
      modifies this`lastRead, this`cachedCurrent
      ensures Valid()
      ensures State() == AfterEnergy(old(State()), frame, now)
      ensures r.Failure? <==> Stale(lastRead, now)
      ensures r.Success? ==> r.value == cachedCurrent
    {
      if frame.Some? {
        var raw := frame.value;
        var rawAmperage: bv16 := raw[1] as bv16;
        rawAmperage := rawAmperage << 4;
        rawAmperage := rawAmperage + ((raw[2] & 0xF0) >> 4) as bv16;
        cachedCurrent := Amps(rawAmperage);
        lastRead := now;
      }
      if now - lastRead > MAX_AGE {
        return Failure("Can not read amperage from PDP");
      }
      return Success(cachedCurrent);
    }

    /** `getCurrent`: polls only the frame group that holds `channel` (the
        poll's result is `frame`) and returns the cached value without a
        staleness check; a channel outside 0-15 gives 0 and polls nothing. */
    method GetCurrent(channel: int, frame: Option<Frame>, now: int) returns (r: real)
      requires Valid()
      modifies this`lastRead, this`cachedVoltage, this`cachedResistance, cachedChannelCurrents
      ensures Valid()
      ensures !(0 <= channel < CHANNELS) ==> r == 0.0 && State() == old(State())
      ensures 0 <= channel <= 5 ==> State() == AfterStatus1(old(State()), frame, now)
      ensures 6 <= channel <= 11 ==> State() == AfterStatus2(old(State()), frame, now)
      ensures 12 <= channel <= 15 ==> State() == AfterStatus3(old(State()), frame, now)
      ensures 0 <= channel < CHANNELS ==> r == State().channels[channel]
    {
      if channel < 0 {
        return 0.0;
      }
      if channel <= 5 {
        ReadStatus1(frame, now);
        return cachedChannelCurrents[channel];
      }
      if channel <= 11 {
        ReadStatus2(frame, now);
        return cachedChannelCurrents[channel];
      }
      if channel <= 15 {
        ReadStatus3(frame, now);
        return cachedChannelCurrents[channel];
      }
      return 0.0;
    }
  }
}
