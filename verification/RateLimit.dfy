/** Token-bucket rate limiting of a bufferevent: refilling without overflow, and
    suspending and resuming it so that it is never forgotten. */
module RateLimit {
  import opened Options

  // Widths of an LP64 system.
  const SIZE_MOD := 0x1_0000_0000_0000_0000   // size_t
  const SSIZE_MAX := 0x7fff_ffff_ffff_ffff
  const SSIZE_MIN := -0x8000_0000_0000_0000
  const TICK_MOD := 0x1_0000_0000             // ev_uint32_t
  const INT_MAX := 0x7fff_ffff
  const MAX_TO_READ_EVER := 16384

  /** The part of a configuration that concerns one direction. */
  datatype Rate = Rate(rate: int, maximum: int)

  /** What ev_token_bucket_cfg_new lets through. */
  predicate RateOk(r: Rate) {
    1 <= r.rate <= r.maximum <= SSIZE_MAX
  }

  datatype Cfg = Cfg(read: Rate, write: Rate)

  predicate CfgOk(c: Cfg) {
    RateOk(c.read) && RateOk(c.write)
  }

  function Min(x: int, y: int): int {
    if x <= y then x else y
  }

  function Max(x: int, y: int): int {
    if x >= y then x else y
  }

  function Signed(x: int): (r: int)
    ensures SSIZE_MIN <= r <= SSIZE_MAX
  {
    var u := x % SIZE_MOD;
    if u > SSIZE_MAX then u - SIZE_MOD else u
  }

  /** The tokens of so many ticks; so many bytes per tick. */
  function Tokens(nTicks: nat, rate: int): int {
    nTicks * rate
  }

  function Per(bytes: int, nTicks: nat): int
    requires nTicks > 0
  {
    bytes / nTicks
  }

  /** The assignments of ev_token_bucket_update to one limit, in size_t. */
  function Bumped(limit: int, r: Rate, nTicks: nat): int
    requires nTicks > 0
  {
    if Per((r.maximum - limit) % SIZE_MOD, nTicks) < r.rate then r.maximum
    else Signed(limit + Tokens(nTicks, r.rate) % SIZE_MOD)
  }

  /** The naive refill it stands for. */
  function Refilled(limit: int, r: Rate, nTicks: nat): int {
    Min(r.maximum, limit + Tokens(nTicks, r.rate))
  }

  /** How many ticks have passed; none if time went back, or too far ahead. */
  function Passed(last: nat, tick: nat): (n: nat)
    ensures n <= INT_MAX
  {
    var n := (tick as int - last) % TICK_MOD;
    if n > INT_MAX then 0 else n
  }

  lemma PerLess(bytes: int, nTicks: nat, rate: int)
    requires nTicks > 0
    ensures Per(bytes, nTicks) < rate <==> bytes < Tokens(nTicks, rate)
  {
    var q := bytes / nTicks;
    assert bytes == q * nTicks + bytes % nTicks;
    if q < rate {
      assert (q + 1) * nTicks <= rate * nTicks;
    } else {
      assert rate * nTicks <= q * nTicks;
    }
  }

  lemma TokensSplit(m: nat, n: nat, rate: int)
    ensures Tokens(m + n, rate) == Tokens(m, rate) + Tokens(n, rate)
    ensures Tokens(1, rate) == rate && Tokens(0, rate) == 0
    ensures rate >= 0 ==> Tokens(m, rate) >= 0 && Tokens(n, rate) >= 0
  {
  }

  /** A limit that is not above the maximum is refilled as intended, with no
      overflow on the way. */
  lemma BumpedIsRefilled(limit: int, r: Rate, nTicks: nat)
    requires RateOk(r) && nTicks > 0 && SSIZE_MIN <= limit <= r.maximum
    ensures Bumped(limit, r, nTicks) == Refilled(limit, r, nTicks)
  {
    hide Tokens, Per;
    PerLess(r.maximum - limit, nTicks, r.rate);
    TokensSplit(nTicks, 0, r.rate);
  }

  /** A limit above the maximum is not cut down, unless so many ticks have passed
      that the difference, which wraps round, is too small: the limit grows, and
      wraps round itself. */
  lemma BumpedAbove(limit: int, r: Rate, nTicks: nat)
    requires RateOk(r) && 0 < nTicks && r.maximum < limit <= SSIZE_MAX
    ensures var sum := limit + Tokens(nTicks, r.rate);
      Bumped(limit, r, nTicks) ==
      if sum <= SSIZE_MAX then sum
      else if sum <= SIZE_MOD + r.maximum then sum - SIZE_MOD
      else r.maximum
  {
    hide Tokens, Per;
    TokensSplit(nTicks - 1, 1, r.rate);
    assert (r.maximum - limit) % SIZE_MOD == r.maximum - limit + SIZE_MOD;
    PerLess(r.maximum - limit + SIZE_MOD, nTicks, r.rate);
  }

  /** So the refill is the intended one exactly in these cases. */
  lemma BumpedExactly(limit: int, r: Rate, nTicks: nat)
    requires RateOk(r) && 0 < nTicks && SSIZE_MIN <= limit <= SSIZE_MAX
    ensures Bumped(limit, r, nTicks) == Refilled(limit, r, nTicks) <==>
      limit <= r.maximum || limit + Tokens(nTicks, r.rate) >= SIZE_MOD + r.maximum
  {
    hide Tokens, Bumped;
    TokensSplit(nTicks - 1, 1, r.rate);
    if limit <= r.maximum {
      BumpedIsRefilled(limit, r, nTicks);
    } else {
      BumpedAbove(limit, r, nTicks);
    }
  }

  /** The limit after an update; both times are as stored. */
  function Updated(limit: int, last: nat, r: Rate, tick: nat): int {
    var n := Passed(last, tick);
    if n == 0 then limit else Bumped(limit, r, n)
  }

  /** An update makes this limit, which allowed something, allow nothing. */
  ghost predicate Slips(limit: int, last: nat, r: Rate, tick: nat) {
    var n := Passed(last, tick);
    n > 0 && limit > r.maximum && SSIZE_MAX < limit + Tokens(n, r.rate) <= SIZE_MOD
  }

  lemma SlipsExactly(limit: int, last: nat, r: Rate, tick: nat)
    requires RateOk(r) && SSIZE_MIN <= limit <= SSIZE_MAX
    ensures SSIZE_MIN <= Updated(limit, last, r, tick) <= SSIZE_MAX
    ensures limit > 0 ==> (Updated(limit, last, r, tick) <= 0 <==> Slips(limit, last, r, tick))
  {
    hide Tokens, Bumped, Passed;
    var n := Passed(last, tick);
    if n > 0 {
      TokensSplit(n - 1, 1, r.rate);
      if limit <= r.maximum {
        BumpedIsRefilled(limit, r, n);
      } else {
        BumpedAbove(limit, r, n);
      }
    }
  }

  lemma UpdatedIsRefilled(limit: int, last: nat, r: Rate, tick: nat)
    requires RateOk(r) && SSIZE_MIN <= limit <= r.maximum && last < TICK_MOD && tick < TICK_MOD
    ensures Updated(limit, last, r, tick) == LimitAt(limit, last, r, tick)
    ensures limit <= Updated(limit, last, r, tick) <= r.maximum
    ensures !Slips(limit, last, r, tick)
  {
    hide Tokens, Bumped, Passed;
    var n := Passed(last, tick);
    if n > 0 {
      TokensSplit(n, 0, r.rate);
      BumpedIsRefilled(limit, r, n);
    }
  }

  /** One request: the true tick in which it comes, and the bytes it moves. */
  datatype Request = Request(tick: nat, bytes: nat)

  /** Requests in order of time, each within what the bucket allows then. */
  ghost predicate WithinLimits(limit: int, last: nat, r: Rate, reqs: seq<Request>)
    decreases |reqs|
  {
    reqs == [] ||
    (last <= reqs[0].tick
     && var now := LimitAt(limit, last, r, reqs[0].tick);
        reqs[0].bytes <= Max(0, now)
        && WithinLimits(now - reqs[0].bytes, LastAt(last, reqs[0].tick), r, reqs[1..]))
  }

  /** The limit and the time of the last update after the update at a true tick. */
  ghost function LimitAt(limit: int, last: nat, r: Rate, tick: nat): int {
    var n := Passed(last % TICK_MOD, tick % TICK_MOD);
    if n == 0 then limit else Refilled(limit, r, n)
  }

  ghost function LastAt(last: nat, tick: nat): nat {
    if Passed(last % TICK_MOD, tick % TICK_MOD) == 0 then last else tick
  }

  ghost function Moved(reqs: seq<Request>): nat {
    if reqs == [] then 0 else reqs[0].bytes + Moved(reqs[1..])
  }

  lemma PassedAtMost(last: nat, tick: nat)
    requires last <= tick
    ensures Passed(last % TICK_MOD, tick % TICK_MOD) <= tick - last
  {
    var n := (tick % TICK_MOD - last % TICK_MOD) % TICK_MOD;
    assert n == (tick - last) % TICK_MOD by {
      var a, b := tick / TICK_MOD, last / TICK_MOD;
      assert tick - last == (tick % TICK_MOD - last % TICK_MOD) + (a - b) * TICK_MOD;
      ModPlus(tick % TICK_MOD - last % TICK_MOD, a - b);
    }
  }

  lemma ModPlus(x: int, k: int)
    ensures (x + k * TICK_MOD) % TICK_MOD == x % TICK_MOD
  {
  }

  /** However the requests fall, the bytes moved in a span of ticks are at most
      what the bucket held plus the rate times the length of the span. */
  lemma {:induction false} MovedAtMost(limit: int, last: nat, r: Rate, reqs: seq<Request>, end: nat)
    requires RateOk(r) && limit <= r.maximum && last <= end
    requires WithinLimits(limit, last, r, reqs) && forall q :: q in reqs ==> q.tick <= end
    ensures Moved(reqs) <= Max(0, limit) + Tokens(end - last, r.rate)
    ensures Moved(reqs) <= r.maximum + Tokens(end - last, r.rate)
    decreases |reqs|
  {
    hide Tokens, Passed;
    TokensSplit(end - last, 0, r.rate);
    if reqs != [] {
      var tick := reqs[0].tick;
      assert reqs[0] in reqs;
      var now, last1 := LimitAt(limit, last, r, tick), LastAt(last, tick);
      var n := Passed(last % TICK_MOD, tick % TICK_MOD);
      PassedAtMost(last, tick);
      MovedAtMost(now - reqs[0].bytes, last1, r, reqs[1..], end);
      TokensSplit(end - tick, tick - last, r.rate);
      TokensSplit(tick - last - n, n, r.rate);
    }
  }

  // The bufferevent.

  /** A refill gains an exhausted bucket at least one byte, and never more than
      its maximum, exactly if it finds that ticks have passed. */
  lemma RefillGains(limit: int, last: nat, r: Rate, tick: nat)
    requires RateOk(r) && limit <= 0
    ensures limit < LimitAt(limit, last, r, tick) <= r.maximum <==> Passed(last % TICK_MOD, tick % TICK_MOD) > 0
    ensures last < tick <= last + INT_MAX ==> Passed(last % TICK_MOD, tick % TICK_MOD) == tick - last
    ensures last + INT_MAX < tick < last + TICK_MOD ==> Passed(last % TICK_MOD, tick % TICK_MOD) == 0
  {
    hide Tokens;
    var n := Passed(last % TICK_MOD, tick % TICK_MOD);
    if n > 0 {
      TokensSplit(n - 1, 1, r.rate);
    }
    if last < tick < last + TICK_MOD {
      var a, b := tick / TICK_MOD, last / TICK_MOD;
      assert tick - last == (tick % TICK_MOD - last % TICK_MOD) + (a - b) * TICK_MOD;
      ModPlus(tick % TICK_MOD - last % TICK_MOD, a - b);
    }
  }

  /** BEV_SUSPEND_WM, _BW, _BW_GROUP, _LOOKUP and _FILT_READ. */
  datatype Why = Wm | Bw | BwGroup | Lookup | FiltRead

  class Bufferevent {
    var enabledRead: bool          // EV_READ and EV_WRITE in `enabled`
    var enabledWrite: bool
    var readSuspended: set<Why>
    var writeSuspended: set<Why>
    var readOn: bool               // what the backend was last told to do
    var writeOn: bool
    var limited: bool              // rate_limiting is allocated
    var cfg: Option<Cfg>                  // its configuration, if any
    var readLimit: int
    var writeLimit: int
    var lastUpdated: nat
    var refill: bool               // refill_bucket_event is pending

    /** The backend works in a direction exactly if that is enabled and not
        suspended, and with a configuration a refill is due exactly while one is
        suspended for bandwidth. */
    ghost predicate Fit()
      reads this
    {
      && (readOn <==> enabledRead && readSuspended == {})
      && (writeOn <==> enabledWrite && writeSuspended == {})
      && lastUpdated < TICK_MOD
      && (!limited ==> cfg.None?)
      && (cfg.None? ==> Bw !in readSuspended && Bw !in writeSuspended && !refill)
      && (cfg.Some? ==>
            && CfgOk(cfg.value)
            && SSIZE_MIN <= readLimit <= SSIZE_MAX
            && SSIZE_MIN <= writeLimit <= SSIZE_MAX
            && (refill <==> Bw in readSuspended || Bw in writeSuspended))
    }

    /** And an exhausted bucket suspends its direction. */
    ghost predicate Valid()
      reads this
    {
      Fit() && (cfg.Some? ==> (readLimit <= 0 ==> Bw in readSuspended) && (writeLimit <= 0 ==> Bw in writeSuspended))
    }

    /** Neither bucket holds more than its maximum. */
    ghost predicate WithinMaximum()
      reads this
    {
      cfg.Some? && readLimit <= cfg.value.read.maximum && writeLimit <= cfg.value.write.maximum
    }

    /** The update at this tick makes a bucket allow nothing that allowed
        something, and whose direction is not suspended for bandwidth. */
    ghost predicate SlipsAt(tick: nat)
      reads this
    {
      && cfg.Some?
      && ((Bw !in readSuspended && Slips(readLimit, lastUpdated, cfg.value.read, tick))
          || (Bw !in writeSuspended && Slips(writeLimit, lastUpdated, cfg.value.write, tick)))
    }

    constructor ()
      ensures Valid() && !readOn && !writeOn && cfg.None? && !limited && !refill
      ensures !enabledRead && !enabledWrite && readSuspended == {} && writeSuspended == {}
    {
      enabledRead, enabledWrite := false, false;
      readSuspended, writeSuspended := {}, {};
      readOn, writeOn := false, false;
      limited, cfg := false, None;
      readLimit, writeLimit, lastUpdated, refill := 0, 0, 0, false;
    }

    /** bufferevent_suspend_read and its three companions. */
    method SuspendRead(why: Why)
      modifies this`readSuspended, this`readOn
      ensures readSuspended == old(readSuspended) + {why}
      ensures readOn == (old(readOn) && old(readSuspended) != {})
    {
      if readSuspended == {} {
        readOn := false;
      }
      readSuspended := readSuspended + {why};
    }

    method UnsuspendRead(why: Why)
      modifies this`readSuspended, this`readOn
      ensures readSuspended == old(readSuspended) - {why}
      ensures readOn == (old(readOn) || (enabledRead && readSuspended == {}))
    {
      readSuspended := readSuspended - {why};
      if readSuspended == {} && enabledRead {
        readOn := true;
      }
    }

    method SuspendWrite(why: Why)
      modifies this`writeSuspended, this`writeOn
      ensures writeSuspended == old(writeSuspended) + {why}
      ensures writeOn == (old(writeOn) && old(writeSuspended) != {})
    {
      if writeSuspended == {} {
        writeOn := false;
      }
      writeSuspended := writeSuspended + {why};
    }

    method UnsuspendWrite(why: Why)
      modifies this`writeSuspended, this`writeOn
      ensures writeSuspended == old(writeSuspended) - {why}
      ensures writeOn == (old(writeOn) || (enabledWrite && writeSuspended == {}))
    {
      writeSuspended := writeSuspended - {why};
      if writeSuspended == {} && enabledWrite {
        writeOn := true;
      }
    }

    /** Suspension for other reasons, by other parts of the library. */
    method Suspend(read: bool, why: Why)
      requires Valid() && why != Bw
      modifies this`readSuspended, this`readOn, this`writeSuspended, this`writeOn
      ensures Valid()
      ensures readSuspended == if read then old(readSuspended) + {why} else old(readSuspended)
      ensures writeSuspended == if read then old(writeSuspended) else old(writeSuspended) + {why}
    {
      if read {
        SuspendRead(why);
      } else {
        SuspendWrite(why);
      }
    }

    method Unsuspend(read: bool, why: Why)
      requires Valid() && why != Bw
      modifies this`readSuspended, this`readOn, this`writeSuspended, this`writeOn
      ensures Valid()
      ensures readSuspended == if read then old(readSuspended) - {why} else old(readSuspended)
      ensures writeSuspended == if read then old(writeSuspended) else old(writeSuspended) - {why}
    {
      if read {
        UnsuspendRead(why);
      } else {
        UnsuspendWrite(why);
      }
    }

    /** bufferevent_enable and bufferevent_disable */
    method Enable(read: bool, write: bool)
      requires Valid()
      modifies this`enabledRead, this`enabledWrite, this`readOn, this`writeOn
      ensures Valid() && enabledRead == (old(enabledRead) || read) && enabledWrite == (old(enabledWrite) || write)
    {
      var implRead, implWrite := read && readSuspended == {}, write && writeSuspended == {};
      enabledRead, enabledWrite := enabledRead || read, enabledWrite || write;
      if implRead {
        readOn := true;
      }
      if implWrite {
        writeOn := true;
      }
    }

    method Disable(read: bool, write: bool)
      requires Valid()
      modifies this`enabledRead, this`enabledWrite, this`readOn, this`writeOn
      ensures Valid() && enabledRead == (old(enabledRead) && !read) && enabledWrite == (old(enabledWrite) && !write)
    {
      if read {
        enabledRead, readOn := false, false;
      }
      if write {
        enabledWrite, writeOn := false, false;
      }
    }

    /** ev_token_bucket_update */
    method UpdateBuckets(tick: nat) returns (updated: bool)
      requires cfg.Some? && CfgOk(cfg.value) && tick < TICK_MOD && lastUpdated < TICK_MOD
      requires SSIZE_MIN <= readLimit <= SSIZE_MAX && SSIZE_MIN <= writeLimit <= SSIZE_MAX
      modifies this`readLimit, this`writeLimit, this`lastUpdated
      ensures updated <==> Passed(old(lastUpdated), tick) > 0
      ensures lastUpdated == if updated then tick else old(lastUpdated)
      ensures readLimit == Updated(old(readLimit), old(lastUpdated), cfg.value.read, tick)
      ensures writeLimit == Updated(old(writeLimit), old(lastUpdated), cfg.value.write, tick)
      ensures old(readLimit) <= cfg.value.read.maximum ==>
        readLimit == LimitAt(old(readLimit), old(lastUpdated), cfg.value.read, tick) <= cfg.value.read.maximum
      ensures old(writeLimit) <= cfg.value.write.maximum ==>
        writeLimit == LimitAt(old(writeLimit), old(lastUpdated), cfg.value.write, tick) <= cfg.value.write.maximum
      ensures old(readLimit) > 0 ==> (readLimit <= 0 <==> Slips(old(readLimit), old(lastUpdated), cfg.value.read, tick))
      ensures old(writeLimit) > 0 ==>
        (writeLimit <= 0 <==> Slips(old(writeLimit), old(lastUpdated), cfg.value.write, tick))
      ensures SSIZE_MIN <= readLimit <= SSIZE_MAX && SSIZE_MIN <= writeLimit <= SSIZE_MAX
    {
      hide Tokens, Bumped, LimitAt, Slips;
      UpdateOne(readLimit, lastUpdated, cfg.value.read, tick);
      UpdateOne(writeLimit, lastUpdated, cfg.value.write, tick);
      var nTicks := (tick as int - lastUpdated) % TICK_MOD;
      if nTicks == 0 || nTicks > INT_MAX {
        return false;
      }
      readLimit := Bumped(readLimit, cfg.value.read, nTicks);
      writeLimit := Bumped(writeLimit, cfg.value.write, nTicks);
      lastUpdated := tick;
      return true;
    }

    /** _bufferevent_get_rlim_max, without a group. With a configuration the
        bucket alone decides: MAX_TO_READ_EVER is then no bound. */
    method GetRlimMax(tick: nat, isWrite: bool) returns (max: int)
      requires Valid() && tick < TICK_MOD
      modifies this`readLimit, this`writeLimit, this`lastUpdated
      ensures Fit() && (Valid() <==> !old(SlipsAt(tick)))
      ensures max == if cfg.None? then MAX_TO_READ_EVER else Max(0, if isWrite then writeLimit else readLimit)
      ensures cfg.Some? ==>
        && readLimit == Updated(old(readLimit), old(lastUpdated), cfg.value.read, tick)
        && writeLimit == Updated(old(writeLimit), old(lastUpdated), cfg.value.write, tick)
        && lastUpdated == LastAt(old(lastUpdated), tick)
      ensures cfg.None? ==> readLimit == old(readLimit) && writeLimit == old(writeLimit)
      ensures old(WithinMaximum()) ==> WithinMaximum() && Valid()
    {
      hide Tokens, Bumped, Refilled, Slips, Updated, LimitAt;
      max := MAX_TO_READ_EVER;
      if cfg.Some? {
        UpdateNone(readLimit, lastUpdated, cfg.value.read);
        UpdateNone(writeLimit, lastUpdated, cfg.value.write);
        UpdateOne(readLimit, lastUpdated, cfg.value.read, tick);
        UpdateOne(writeLimit, lastUpdated, cfg.value.write, tick);
        if tick != lastUpdated {
          var _ := UpdateBuckets(tick);
        }
        max := if isWrite then writeLimit else readLimit;
      }
      if max < 0 {
        max := 0;
      }
    }

    /** _bufferevent_get_read_max */
    method GetReadMax(tick: nat) returns (max: int)
      requires Valid() && tick < TICK_MOD
      modifies this`readLimit, this`writeLimit, this`lastUpdated
      ensures Fit() && (Valid() <==> !old(SlipsAt(tick)))
      ensures max == if cfg.Some? then Max(0, readLimit) else MAX_TO_READ_EVER
      ensures cfg.Some? ==> readLimit == Updated(old(readLimit), old(lastUpdated), cfg.value.read, tick)
      ensures cfg.Some? ==> writeLimit == Updated(old(writeLimit), old(lastUpdated), cfg.value.write, tick)
      ensures cfg.Some? ==> lastUpdated == LastAt(old(lastUpdated), tick)
      ensures cfg.None? ==> readLimit == old(readLimit)
      ensures old(WithinMaximum()) ==> WithinMaximum() && Valid() && max <= cfg.value.read.maximum
      ensures old(WithinMaximum()) ==>
        (max <= MAX_TO_READ_EVER <==>
         Min(cfg.value.read.maximum, old(readLimit) + Tokens(Passed(old(lastUpdated), tick), cfg.value.read.rate)) <= MAX_TO_READ_EVER)
    {
      hide Tokens, Bumped, Slips, Updated, LimitAt, Passed;
      if cfg.Some? {
        MaximumAt(readLimit, lastUpdated, cfg.value.read, tick);
      }
      max := GetRlimMax(tick, false);
    }

    /** _bufferevent_get_write_max */
    method GetWriteMax(tick: nat) returns (max: int)
      requires Valid() && tick < TICK_MOD
      modifies this`readLimit, this`writeLimit, this`lastUpdated
      ensures Fit() && (Valid() <==> !old(SlipsAt(tick)))
      ensures max == if cfg.Some? then Max(0, writeLimit) else MAX_TO_READ_EVER
      ensures cfg.Some? ==> readLimit == Updated(old(readLimit), old(lastUpdated), cfg.value.read, tick)
      ensures cfg.Some? ==> writeLimit == Updated(old(writeLimit), old(lastUpdated), cfg.value.write, tick)
      ensures cfg.Some? ==> lastUpdated == LastAt(old(lastUpdated), tick)
      ensures cfg.None? ==> writeLimit == old(writeLimit)
      ensures old(WithinMaximum()) ==> WithinMaximum() && Valid() && max <= cfg.value.write.maximum
    {
      hide Tokens, Bumped, Slips, Updated, LimitAt, Passed;
      max := GetRlimMax(tick, true);
    }

    /** _bufferevent_decrement_read_buckets, without a group; bytes may also be
        given back. The subtraction is one of signed numbers, which must not
        overflow. */
    method DecrementReadBuckets(bytes: int)
      requires Valid()
      requires cfg.Some? ==> SSIZE_MIN <= readLimit - bytes <= SSIZE_MAX
      modifies this`readLimit, this`readSuspended, this`readOn, this`refill
      ensures Valid()
      ensures readLimit == if cfg.Some? then old(readLimit) - bytes else old(readLimit)
      ensures cfg.Some? ==> readSuspended == if readLimit <= 0 then old(readSuspended) + {Bw}
        else old(readSuspended) - {Bw}
      ensures cfg.None? ==> readSuspended == old(readSuspended) && refill == old(refill)
    {
      if !limited {
        return;
      }
      if cfg.Some? {
        readLimit := readLimit - bytes;
        if readLimit <= 0 {
          SuspendRead(Bw);
          refill := true;
        } else if Bw in readSuspended {
          if Bw !in writeSuspended {
            refill := false;
          }
          UnsuspendRead(Bw);
        }
      }
    }

    method DecrementWriteBuckets(bytes: int)
      requires Valid()
      requires cfg.Some? ==> SSIZE_MIN <= writeLimit - bytes <= SSIZE_MAX
      modifies this`writeLimit, this`writeSuspended, this`writeOn, this`refill
      ensures Valid()
      ensures writeLimit == if cfg.Some? then old(writeLimit) - bytes else old(writeLimit)
      ensures cfg.Some? ==> writeSuspended == if writeLimit <= 0 then old(writeSuspended) + {Bw}
        else old(writeSuspended) - {Bw}
      ensures cfg.None? ==> writeSuspended == old(writeSuspended) && refill == old(refill)
    {
      if !limited {
        return;
      }
      if cfg.Some? {
        writeLimit := writeLimit - bytes;
        if writeLimit <= 0 {
          SuspendWrite(Bw);
          refill := true;
        } else if Bw in writeSuspended {
          if Bw !in readSuspended {
            refill := false;
          }
          UnsuspendWrite(Bw);
        }
      }
    }

    /** bufferevent_decrement_read_limit, which acts only when the limit crosses
        zero. */
    method DecrementReadLimit(decr: int)
      requires Valid() && cfg.Some? && SSIZE_MIN <= readLimit - decr <= SSIZE_MAX
      modifies this`readLimit, this`readSuspended, this`readOn, this`refill
      ensures Valid() && readLimit == old(readLimit) - decr
      ensures old(readLimit) > 0 && readLimit > 0 ==> readSuspended == old(readSuspended) && refill == old(refill)
      ensures readSuspended ==
        if old(readLimit) > 0 && readLimit <= 0 then old(readSuspended) + {Bw}
        else if old(readLimit) <= 0 && readLimit > 0 then old(readSuspended) - {Bw}
        else old(readSuspended)
    {
      var oldLimit := readLimit;
      readLimit := readLimit - decr;
      if oldLimit > 0 && readLimit <= 0 {
        SuspendRead(Bw);
        refill := true;
      } else if oldLimit <= 0 && readLimit > 0 {
        if Bw !in writeSuspended {
          refill := false;
        }
        UnsuspendRead(Bw);
      }
    }

    method DecrementWriteLimit(decr: int)
      requires Valid() && cfg.Some? && SSIZE_MIN <= writeLimit - decr <= SSIZE_MAX
      modifies this`writeLimit, this`writeSuspended, this`writeOn, this`refill
      ensures Valid() && writeLimit == old(writeLimit) - decr
      ensures old(writeLimit) > 0 && writeLimit > 0 ==> writeSuspended == old(writeSuspended) && refill == old(refill)
      ensures writeSuspended ==
        if old(writeLimit) > 0 && writeLimit <= 0 then old(writeSuspended) + {Bw}
        else if old(writeLimit) <= 0 && writeLimit > 0 then old(writeSuspended) - {Bw}
        else old(writeSuspended)
    {
      var oldLimit := writeLimit;
      writeLimit := writeLimit - decr;
      if oldLimit > 0 && writeLimit <= 0 {
        SuspendWrite(Bw);
        refill := true;
      } else if oldLimit <= 0 && writeLimit > 0 {
        if Bw !in readSuspended {
          refill := false;
        }
        UnsuspendWrite(Bw);
      }
    }

    /** _bev_refill_callback: the refill event has just fired, and is not pending
        any more. */
    method RefillCallback(tick: nat)
      requires Valid() && refill && tick < TICK_MOD
      modifies this
      ensures Fit() && (Valid() <==> !old(SlipsAt(tick)))
      ensures cfg == old(cfg) && enabledRead == old(enabledRead) && enabledWrite == old(enabledWrite)
      ensures readLimit == Updated(old(readLimit), old(lastUpdated), cfg.value.read, tick)
      ensures writeLimit == Updated(old(writeLimit), old(lastUpdated), cfg.value.write, tick)
      ensures old(WithinMaximum()) ==> WithinMaximum() && Valid()
      ensures readSuspended == if readLimit > 0 then old(readSuspended) - {Bw} else old(readSuspended)
      ensures writeSuspended == if writeLimit > 0 then old(writeSuspended) - {Bw} else old(writeSuspended)
      ensures lastUpdated == LastAt(old(lastUpdated), tick)
    {
      hide Tokens, Bumped, Refilled, LimitAt, Slips, Updated;
      UpdateOne(readLimit, lastUpdated, cfg.value.read, tick);
      UpdateOne(writeLimit, lastUpdated, cfg.value.write, tick);
      refill := false;
      var _ := UpdateBuckets(tick);
      var againRead := ResumeRead();
      var againWrite := ResumeWrite();
      if againRead || againWrite {
        refill := true;
      }
    }

    /** The part of _bev_refill_callback for one direction. */
    method ResumeRead() returns (again: bool)
      requires readOn <==> enabledRead && readSuspended == {}
      modifies this`readSuspended, this`readOn
      ensures readOn <==> enabledRead && readSuspended == {}
      ensures readSuspended == if readLimit > 0 then old(readSuspended) - {Bw} else old(readSuspended)
      ensures again <==> Bw in readSuspended
    {
      again := false;
      if Bw in readSuspended {
        if readLimit > 0 {
          UnsuspendRead(Bw);
        } else {
          again := true;
        }
      }
    }

    method ResumeWrite() returns (again: bool)
      requires writeOn <==> enabledWrite && writeSuspended == {}
      modifies this`writeSuspended, this`writeOn
      ensures writeOn <==> enabledWrite && writeSuspended == {}
      ensures writeSuspended == if writeLimit > 0 then old(writeSuspended) - {Bw} else old(writeSuspended)
      ensures again <==> Bw in writeSuspended
    {
      again := false;
      if Bw in writeSuspended {
        if writeLimit > 0 {
          UnsuspendWrite(Bw);
        } else {
          again := true;
        }
      }
    }

    /** bufferevent_set_rate_limit; `same` says that the configuration is the
        one already in use. */
    method SetRateLimit(newCfg: Option<Cfg>, tick: nat, same: bool)
      requires Valid() && tick < TICK_MOD && (newCfg.Some? ==> CfgOk(newCfg.value)) &&
        (same ==> cfg == newCfg && newCfg.Some?)
      modifies this
      ensures Valid() && cfg == newCfg && enabledRead == old(enabledRead) && enabledWrite == old(enabledWrite)
      ensures newCfg.None? ==>
        readSuspended == old(readSuspended) - {Bw} &&
        writeSuspended == old(writeSuspended) - {Bw}
      ensures readSuspended - {Bw} == old(readSuspended) - {Bw} && writeSuspended - {Bw} == old(writeSuspended) - {Bw}
      ensures same ==>
        && readLimit == old(readLimit) && writeLimit == old(writeLimit) && lastUpdated == old(lastUpdated)
        && readSuspended == old(readSuspended) && writeSuspended == old(writeSuspended)
      ensures newCfg.Some? && !same ==>
        && readLimit == (if old(cfg).Some? then Min(old(readLimit), newCfg.value.read.maximum) else newCfg.value.read.rate)
        && writeLimit == (if old(cfg).Some? then Min(old(writeLimit), newCfg.value.write.maximum) else newCfg.value.write.rate)
        && lastUpdated == (if old(cfg).Some? then old(lastUpdated) else tick)
        && WithinMaximum()
        && (Bw in readSuspended <==> readLimit <= 0) && (Bw in writeSuspended <==> writeLimit <= 0)
    {
      if newCfg.None? {
        if limited {
          cfg := None;
          UnsuspendRead(Bw);
          UnsuspendWrite(Bw);
          refill := false;
        }
        return;
      }
      if same {
        return;
      }
      limited := true;
      var reinit := cfg.Some?;
      cfg := newCfg;
      InitBucket(cfg.value, tick, reinit);
      if reinit {
        refill := false;
      }
      var suspended := false;
      if readLimit > 0 {
        UnsuspendRead(Bw);
      } else {
        SuspendRead(Bw);
        suspended := true;
      }
      if writeLimit > 0 {
        UnsuspendWrite(Bw);
      } else {
        SuspendWrite(Bw);
        suspended := true;
      }
      if suspended {
        refill := true;
      }
    }

    /** ev_token_bucket_init */
    method InitBucket(c: Cfg, tick: nat, reinitialize: bool)
      modifies this`readLimit, this`writeLimit, this`lastUpdated
      ensures readLimit == (if reinitialize then Min(old(readLimit), c.read.maximum) else c.read.rate)
      ensures writeLimit == (if reinitialize then Min(old(writeLimit), c.write.maximum) else c.write.rate)
      ensures lastUpdated == if reinitialize then old(lastUpdated) else tick
    {
      if reinitialize {
        if readLimit > c.read.maximum {
          readLimit := c.read.maximum;
        }
        if writeLimit > c.write.maximum {
          writeLimit := c.write.maximum;
        }
      } else {
        readLimit := c.read.rate;
        writeLimit := c.write.rate;
        lastUpdated := tick;
      }
    }
  }

  lemma UpdateOne(limit: int, last: nat, r: Rate, tick: nat)
    requires RateOk(r) && SSIZE_MIN <= limit <= SSIZE_MAX && last < TICK_MOD && tick < TICK_MOD
    ensures var u := Updated(limit, last, r, tick);
      && SSIZE_MIN <= u <= SSIZE_MAX
      && (limit <= r.maximum ==> u == LimitAt(limit, last, r, tick) && limit <= u <= r.maximum && !Slips(limit, last, r, tick))
      && (limit > 0 ==> (u <= 0 <==> Slips(limit, last, r, tick)))
  {
    hide Updated, LimitAt, Slips;
    SlipsExactly(limit, last, r, tick);
    if limit <= r.maximum {
      UpdatedIsRefilled(limit, last, r, tick);
    }
  }

  lemma MaximumAt(limit: int, last: nat, r: Rate, tick: nat)
    requires RateOk(r) && SSIZE_MIN <= limit <= SSIZE_MAX && last < TICK_MOD && tick < TICK_MOD
    ensures limit <= r.maximum ==> Updated(limit, last, r, tick) == Min(r.maximum, limit + Tokens(Passed(last, tick), r.rate))
  {
    hide Tokens, Bumped, Passed;
    TokensSplit(0, 0, r.rate);
    if limit <= r.maximum {
      UpdatedIsRefilled(limit, last, r, tick);
    }
  }

  lemma UpdateNone(limit: int, last: nat, r: Rate)
    ensures Updated(limit, last, r, last) == limit
  {
  }

  /** What happens to a limited bufferevent, in a true tick: it may read or write,
      and wants so many bytes, or its refill event fires if it is pending. */
  datatype Happening = Read(tick: nat, want: nat) | Write(tick: nat, want: nat) | Refill(tick: nat)

  predicate InOrder(hs: seq<Happening>, from: nat, end: nat) {
    && (forall i :: 0 <= i < |hs| ==> from <= hs[i].tick <= end)
    && (forall i, j :: 0 <= i < j < |hs| ==> hs[i].tick <= hs[j].tick)
  }

  /** An update adds no more than the tokens of the ticks it accounts for. */
  lemma LimitGains(limit: int, last: nat, r: Rate, tick: nat)
    requires RateOk(r) && limit <= r.maximum && last <= tick
    ensures limit <= LimitAt(limit, last % TICK_MOD, r, tick % TICK_MOD) <= r.maximum
    ensures LimitAt(limit, last % TICK_MOD, r, tick % TICK_MOD) <= limit + Tokens(LastAt(last, tick) - last, r.rate)
    ensures last <= LastAt(last, tick) <= tick
    ensures LastAt(last % TICK_MOD, tick % TICK_MOD) == LastAt(last, tick) % TICK_MOD
  {
    hide Tokens, Passed;
    var n := Passed(last % TICK_MOD, tick % TICK_MOD);
    PassedAtMost(last, tick);
    TokensSplit(n, 0, r.rate);
    TokensSplit(tick - last, 0, r.rate);
    if n > 0 {
      TokensSplit(n, tick - last - n, r.rate);
    }
  }

  /** Reads and writes whatever may be, and refills in between: the bytes moved in
      a direction from tick `last` to tick `end` are at most what its bucket holds
      at most plus its rate times the ticks between. */
  method TransferAll(bev: Bufferevent, hs: seq<Happening>, ghost last: nat, ghost end: nat)
      returns (read: nat, written: nat)
    requires bev.Valid() && bev.WithinMaximum() && bev.lastUpdated == last % TICK_MOD && last <= end &&
      InOrder(hs, last, end)
    modifies bev
    ensures bev.Valid() && bev.cfg == old(bev.cfg)
    ensures old(bev.readLimit) <= read + bev.readLimit && old(bev.writeLimit) <= written + bev.writeLimit
    ensures read <= Max(0, old(bev.readLimit)) + Tokens(end - last, bev.cfg.value.read.rate)
    ensures read <= bev.cfg.value.read.maximum + Tokens(end - last, bev.cfg.value.read.rate)
    ensures written <= Max(0, old(bev.writeLimit)) + Tokens(end - last, bev.cfg.value.write.rate)
    ensures written <= bev.cfg.value.write.maximum + Tokens(end - last, bev.cfg.value.write.rate)
  {
    hide Tokens, LimitAt, LastAt, Updated;
    read, written := 0, 0;
    ghost var c, read0, write0, now := bev.cfg.value, bev.readLimit, bev.writeLimit, last;
    TokensSplit(0, 0, c.read.rate);
    TokensSplit(0, 0, c.write.rate);
    for i := 0 to |hs|
      invariant bev.Valid() && bev.WithinMaximum() && bev.cfg == old(bev.cfg) && bev.lastUpdated == now % TICK_MOD
      invariant last <= now <= end && forall j :: i <= j < |hs| ==> now <= hs[j].tick
      invariant Bounded(read, read0, bev.readLimit, Tokens(now - last, c.read.rate))
      invariant Bounded(written, write0, bev.writeLimit, Tokens(now - last, c.write.rate))
    {
      ghost var tick := hs[i].tick;
      BoundedMore(read, read0, bev.readLimit, last, now, c.read, tick);
      BoundedMore(written, write0, bev.writeLimit, last, now, c.write, tick);
      match hs[i]
      case Read(tick, want) =>
        var max := bev.GetReadMax(tick % TICK_MOD);
        var n := Min(want, max);
        bev.DecrementReadBuckets(n);
        read := read + n;
        now := LastAt(now, tick);
      case Write(tick, want) =>
        var max := bev.GetWriteMax(tick % TICK_MOD);
        var n := Min(want, max);
        bev.DecrementWriteBuckets(n);
        written := written + n;
        now := LastAt(now, tick);
      case Refill(tick) =>
        if bev.refill {
          bev.RefillCallback(tick % TICK_MOD);
          now := LastAt(now, tick);
        }
    }
    TokensSplit(now - last, end - now, c.read.rate);
    TokensSplit(now - last, end - now, c.write.rate);
  }

  /** Bytes moved so far, the limit then and now, and the tokens of the ticks in
      between. */
  ghost predicate Bounded(moved: nat, limit0: int, limit: int, tokens: int) {
    limit0 <= moved + limit <= limit0 + tokens && (moved == 0 || limit >= 0)
  }

  /** An update keeps to the bound. */
  lemma BoundedMore(moved: nat, limit0: int, limit: int, last: nat, now: nat, r: Rate, tick: nat)
    requires RateOk(r) && SSIZE_MIN <= limit <= r.maximum && last <= now <= tick
    requires Bounded(moved, limit0, limit, Tokens(now - last, r.rate))
    ensures var u := Updated(limit, now % TICK_MOD, r, tick % TICK_MOD);
      now <= LastAt(now, tick) <= tick && SSIZE_MIN <= u <= r.maximum
      && Bounded(moved, limit0, u, Tokens(LastAt(now, tick) - last, r.rate))
    ensures LastAt(now % TICK_MOD, tick % TICK_MOD) == LastAt(now, tick) % TICK_MOD
  {
    hide Tokens, LimitAt, LastAt, Updated;
    LimitGains(limit, now, r, tick);
    UpdateOne(limit, now % TICK_MOD, r, tick % TICK_MOD);
    LimitMod(limit, now, r, tick);
    TokensSplit(now - last, LastAt(now, tick) - now, r.rate);
  }

  lemma LimitMod(limit: int, last: nat, r: Rate, tick: nat)
    ensures LimitAt(limit, last % TICK_MOD, r, tick % TICK_MOD) == LimitAt(limit, last, r, tick)
  {
  }

  /** Refill events that come at least a tick apart, and not too far. */
  predicate Ticking(ticks: seq<nat>, last: nat) {
    forall i :: 0 <= i < |ticks| ==>
      var before := if i == 0 then last else ticks[i - 1]; before < ticks[i] <= before + INT_MAX
  }

  lemma TickGains(limit: int, now: nat, r: Rate, ticks: seq<nat>, last: nat, i: nat)
    requires RateOk(r) && SSIZE_MIN <= limit <= r.maximum && Ticking(ticks, last) && i < |ticks|
    requires now == if i == 0 then last else ticks[i - 1]
    ensures Updated(limit, now % TICK_MOD, r, ticks[i] % TICK_MOD) >= Min(r.maximum, limit + r.rate)
    ensures Updated(limit, now % TICK_MOD, r, ticks[i] % TICK_MOD) <= r.maximum
    ensures LastAt(now % TICK_MOD, ticks[i] % TICK_MOD) == ticks[i] % TICK_MOD
  {
    hide Tokens, Updated, Passed;
    var tick := ticks[i];
    RefillGains(0, now, r, tick);
    UpdatedIsRefilled(limit, now % TICK_MOD, r, tick % TICK_MOD);
    TokensSplit(tick - now - 1, 1, r.rate);
  }

  /** Directions suspended for bandwidth resume after so many refills, if the
      tokens of so many ticks exceed what the buckets owe. */
  method RefillAll(bev: Bufferevent, ticks: seq<nat>, ghost last: nat)
    requires bev.Valid() && bev.WithinMaximum() && bev.lastUpdated == last % TICK_MOD && Ticking(ticks, last)
    requires Tokens(|ticks|, bev.cfg.value.read.rate) > -bev.readLimit &&
      Tokens(|ticks|, bev.cfg.value.write.rate) > -bev.writeLimit
    requires ticks != []
    modifies bev
    ensures bev.Valid() && bev.cfg == old(bev.cfg) && !bev.refill && bev.readLimit > 0 && bev.writeLimit > 0
    ensures bev.readSuspended == old(bev.readSuspended) - {Bw} && bev.writeSuspended == old(bev.writeSuspended) - {Bw}
  {
    hide Tokens, LimitAt, LastAt, Updated, Ticking;
    ghost var c, read0, write0, now := bev.cfg.value, bev.readLimit, bev.writeLimit, last;
    TokensSplit(0, 0, c.read.rate);
    TokensSplit(0, 0, c.write.rate);
    for i := 0 to |ticks|
      invariant bev.Valid() && bev.WithinMaximum() && bev.cfg == old(bev.cfg)
      invariant bev.readSuspended + {Bw} == old(bev.readSuspended) + {Bw}
      invariant bev.writeSuspended + {Bw} == old(bev.writeSuspended) + {Bw}
      invariant bev.refill ==> bev.lastUpdated == now % TICK_MOD && now == if i == 0 then last else ticks[i - 1]
      invariant bev.readLimit >= Min(1, Min(c.read.maximum, read0 + Tokens(i, c.read.rate)))
      invariant bev.writeLimit >= Min(1, Min(c.write.maximum, write0 + Tokens(i, c.write.rate)))
      invariant bev.refill && i > 0 ==> bev.readLimit <= 0 || bev.writeLimit <= 0
    {
      if bev.refill {
        TickGains(bev.readLimit, now, c.read, ticks, last, i);
        TickGains(bev.writeLimit, now, c.write, ticks, last, i);
        TokensSplit(i, 1, c.read.rate);
        TokensSplit(i, 1, c.write.rate);
        bev.RefillCallback(ticks[i] % TICK_MOD);
        now := ticks[i];
      }
    }
  }

  /** A single operation may move more than MAX_TO_READ_EVER bytes: with a rate
      of 65536 bytes a tick, that many. */
  method AboveBound() returns (max: int)
    ensures max == 65536 > MAX_TO_READ_EVER
  {
    hide Updated;
    var bev := new Bufferevent();
    var rate := Rate(65536, 65536);
    bev.SetRateLimit(Some(Cfg(rate, rate)), 0, false);
    UpdateNone(65536, 0, rate);
    max := bev.GetReadMax(0);
  }

  /** Giving 50 bytes back to a full bucket of 100 makes the next tick allow 250
      of them, although its maximum is 100. */
  method Overfilled() returns (max: int)
    ensures max == 250
  {
    hide Bumped, Tokens;
    var bev := new Bufferevent();
    var rate := Rate(100, 100);
    bev.SetRateLimit(Some(Cfg(rate, rate)), 0, false);
    bev.DecrementReadLimit(-50);
    assert Tokens(1, 100) == 100 by {
      TokensSplit(0, 1, 100);
    }
    BumpedAbove(150, rate, 1);
    assert Updated(150, 0, rate, 1) == 250;
    max := bev.GetReadMax(1);
  }
  /** Giving bytes back to a bucket until it holds the greatest number there is
      makes the next tick allow nothing, without suspending the direction and
      without a refill to come. */
  method Slipped() returns (bev: Bufferevent, max: int)
    ensures max == 0 && bev.readLimit <= 0 && Bw !in bev.readSuspended && !bev.refill && !bev.Valid()
  {
    hide Updated, Tokens, Slips;
    bev := new Bufferevent();
    var half := 0x4000_0000_0000_0000;
    var rate := Rate(half, half);
    bev.SetRateLimit(Some(Cfg(rate, rate)), 0, false);
    bev.DecrementReadLimit(-(half - 1));
    SlipsThere(half);
    max := bev.GetReadMax(1);
  }

  lemma SlipsThere(half: nat)
    requires half == 0x4000_0000_0000_0000
    ensures Slips(SSIZE_MAX, 0, Rate(half, half), 1) && Updated(SSIZE_MAX, 0, Rate(half, half), 1) <= 0
  {
    hide Tokens, Updated;
    TokensSplit(0, 1, half);
    SlipsExactly(SSIZE_MAX, 0, Rate(half, half), 1);
  }

  /** A configuration with longer ticks, in which fewer have passed than when the
      bucket was updated last: a refill one tick later gains nothing, although
      20 bytes a tick are allowed. */
  method Stalled() returns (bev: Bufferevent)
    ensures bev.readLimit == 0 && Bw in bev.readSuspended && bev.refill && bev.cfg.Some? &&
      bev.cfg.value.read == Rate(20, 20)
    ensures bev.lastUpdated == 1000000
  {
    hide Tokens;
    bev := new Bufferevent();
    bev.SetRateLimit(Some(Cfg(Rate(10, 10), Rate(10, 10))), 1000000, false);
    bev.DecrementReadBuckets(10);
    bev.SetRateLimit(Some(Cfg(Rate(20, 20), Rate(20, 20))), 1000, false);
    bev.RefillCallback(1001);
  }
}
