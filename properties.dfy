/** What the handlers of FanModel promise over single events and over runs
    of events: the SET_SPEED/GET_SPEED round trip, pulse counting per
    window, the silence watchdog's timing, and the invariant kept between
    interrupts. */
module FanProperties {
  import opened FanModel

  // ---------------------------------------------------------------------
  // Single events

  /** GET_SPEED after a SET_SPEED payload answers the four payload bytes in
      fan order. */
  lemma SetThenGetSpeed(s: State, data: seq<uchar>, reqType: bv8)
    requires WellFormed(s) && |data| >= NoOfFans && IsVendor(reqType)
    ensures Respond(AfterWrite(s, data), reqType, RqGetSpeed) == Data(data[..NoOfFans])
    ensures Respond(AfterWrite(s, data), reqType, RqGetSpeed).bytes ==
            [data[0], data[1], data[2], data[3]]
  {
  }

  /** A SET_SPEED payload clears the silence counter and touches nothing of
      the tachometer side. */
  lemma WriteKeepsTacho(s: State, data: seq<uchar>)
    requires WellFormed(s) && |data| >= NoOfFans
    ensures AfterWrite(s, data).watchdog == 0
    ensures AfterWrite(s, data).count == s.count
    ensures AfterWrite(s, data).snapshot == s.snapshot
    ensures AfterWrite(s, data).tachoState == s.tachoState
  {
  }

  /** Pin change: fan `fan`'s counter goes up by one (mod 256) exactly when
      its tachometer pin was low before and is high now; falling edges,
      steady levels and the other pins leave it alone. The new level is
      remembered and nothing else changes. */
  lemma PinChangeCountsRisingEdge(s: State, current: bv8, fan: nat)
    requires WellFormed(s) && fan < NoOfFans
    ensures var t := AfterPinChange(s, current);
      t.count[fan] ==
        (if !High(s.tachoState, TachoPin[fan]) && High(current, TachoPin[fan])
         then Inc(s.count[fan]) else s.count[fan]) &&
      t.tachoState == current &&
      t.duty == s.duty && t.snapshot == s.snapshot && t.watchdog == s.watchdog
  {
  }

  /** The tick commits the running counters to the snapshot and restarts
      the window from zero. */
  lemma TickCommitsAndClears(s: State)
    requires WellFormed(s)
    ensures AfterTick(s).snapshot == s.count
    ensures forall fan :: 0 <= fan < NoOfFans ==> AfterTick(s).count[fan] == 0
    ensures AfterTick(s).tachoState == s.tachoState
  {
  }

  /** The tick advances the silence counter; once it passes the bound, all
      duties return to the default and the counter restarts. */
  lemma TickWatchdog(s: State)
    requires Invariant(s)
    ensures s.watchdog < FanWatchdogTime ==>
              AfterTick(s).duty == s.duty && AfterTick(s).watchdog == s.watchdog + 1
    ensures s.watchdog == FanWatchdogTime ==>
              AfterTick(s).duty == Fill(DefaultFanspeed) && AfterTick(s).watchdog == 0
  {
  }

  /** Every request leaves a zero-length reply unless it is one of the three
      vendor requests; the two reads answer exactly NO_OF_FANS bytes. */
  lemma ReplyShape(s: State, reqType: bv8, bRequest: uchar)
    requires WellFormed(s)
    ensures Respond(s, reqType, bRequest).NoMsg? <==> IsVendor(reqType) && bRequest == RqSetSpeed
    ensures Respond(s, reqType, bRequest).Data? ==>
              |Respond(s, reqType, bRequest).bytes| ==
                (if IsVendor(reqType) && (bRequest == RqGetSpeed || bRequest == RqGetTacho)
                 then NoOfFans else 0)
  {
  }

  // ---------------------------------------------------------------------
  // Runs of ticks: the silence watchdog

  /** `n` consecutive ticks with no host contact. */
  function Ticks(s: State, n: nat): (r: State)
    requires WellFormed(s)
    ensures WellFormed(r)
  {
    if n == 0 then s else AfterTick(Ticks(s, n - 1))
  }

  /** Up to the bound, silent ticks only count: the duties stay put. */
  lemma {:induction false} SilenceCountsUp(s: State, n: nat)
    requires Invariant(s) && s.watchdog as int + n <= FanWatchdogTime as int
    ensures Ticks(s, n).duty == s.duty
    ensures Ticks(s, n).watchdog as int == s.watchdog as int + n
  {
    if n > 0 {
      SilenceCountsUp(s, n - 1);
      TickWatchdog(Ticks(s, n - 1));
    }
  }

  /** The tick that takes the counter past the bound restores the default
      duty on all fans and restarts the counter. */
  lemma SilenceExpires(s: State)
    requires Invariant(s)
    ensures var n := FanWatchdogTime as int - s.watchdog as int + 1;
      Ticks(s, n).duty == Fill(DefaultFanspeed) && Ticks(s, n).watchdog == 0
  {
    var m := FanWatchdogTime as int - s.watchdog as int;
    SilenceCountsUp(s, m);
    TickWatchdog(Ticks(s, m));
  }

  // ---------------------------------------------------------------------
  // Arbitrary interleavings of handlers

  /** One handler run to completion. */
  datatype Event =
    | PinChangeEvent(current: bv8)
    | TickEvent
    | WriteEvent(data: seq<uchar>)
    | SetupEvent(reqType: bv8, bRequest: uchar)

  /** usbFunctionWrite needs its four bytes. */
  predicate Acceptable(e: Event) {
    e.WriteEvent? ==> |e.data| >= NoOfFans
  }

  function Step(s: State, e: Event): (r: State)
    requires WellFormed(s) && Acceptable(e)
    ensures WellFormed(r)
  {
    match e
    case PinChangeEvent(current) => AfterPinChange(s, current)
    case TickEvent => AfterTick(s)
    case WriteEvent(data) => AfterWrite(s, data)
    case SetupEvent(_, _) => s
  }

  function Run(s: State, events: seq<Event>): (r: State)
    requires WellFormed(s) && forall i :: 0 <= i < |events| ==> Acceptable(events[i])
    ensures WellFormed(r)
    decreases |events|
  {
    if events == [] then s else Run(Step(s, events[0]), events[1..])
  }

  /** Running one more event after a run. */
  lemma {:induction false} RunAppend(s: State, events: seq<Event>, e: Event)
    requires WellFormed(s) && (forall i :: 0 <= i < |events| ==> Acceptable(events[i])) && Acceptable(e)
    ensures Run(s, events + [e]) == Step(Run(s, events), e)
    decreases |events|
  {
    if events == [] {
      assert events + [e] == [e];
    } else {
      assert (events + [e])[1..] == events[1..] + [e];
      RunAppend(Step(s, events[0]), events[1..], e);
    }
  }

  /** Between events the silence counter never exceeds FAN_WATCHDOG_TIME,
      whatever the order of interrupts and host requests. */
  lemma {:induction false} InvariantHolds(s: State, events: seq<Event>)
    requires Invariant(s) && forall i :: 0 <= i < |events| ==> Acceptable(events[i])
    ensures Invariant(Run(s, events))
    decreases |events|
  {
    if events != [] {
      InvariantHolds(Step(s, events[0]), events[1..]);
    }
  }

  /** From power-on, any run of events keeps the invariant. */
  lemma InvariantFromStartup(pins: bv8, events: seq<Event>)
    requires forall i :: 0 <= i < |events| ==> Acceptable(events[i])
    ensures Invariant(Run(Initial(pins), events))
  {
    InvariantHolds(Initial(pins), events);
  }

  // ---------------------------------------------------------------------
  // The silence watchdog over interleaved runs

  /** Number of watchdog ticks in a run. */
  function TickCount(events: seq<Event>): nat
    decreases |events|
  {
    if events == [] then 0 else (if events[0].TickEvent? then 1 else 0) + TickCount(events[1..])
  }

  /** No SET_SPEED payload arrives during the run. */
  predicate NoWrite(events: seq<Event>)
    decreases |events|
  {
    events == [] || (!events[0].WriteEvent? && NoWrite(events[1..]))
  }

  /** Without a payload, pin changes and host reads leave the duties alone,
      and each tick only counts, as long as the counter stays within the
      bound. */
  lemma {:induction false} SilentRunKeepsDuty(s: State, events: seq<Event>)
    requires Invariant(s) && forall i :: 0 <= i < |events| ==> Acceptable(events[i])
    requires NoWrite(events) && s.watchdog as int + TickCount(events) <= FanWatchdogTime as int
    ensures Run(s, events).duty == s.duty
    ensures Run(s, events).watchdog as int == s.watchdog as int + TickCount(events)
    decreases |events|
  {
    if events != [] {
      var t := Step(s, events[0]);
      if events[0].TickEvent? {
        TickWatchdog(s);
      }
      assert t.duty == s.duty;
      assert t.watchdog as int == s.watchdog as int + (if events[0].TickEvent? then 1 else 0);
      SilentRunKeepsDuty(t, events[1..]);
      assert Run(s, events) == Run(t, events[1..]);
    }
  }

  /** The tick that takes the counter past the bound, however many pin
      changes and host reads came in between, restores the default duty on
      every fan and restarts the counter. */
  lemma SilentRunExpires(s: State, events: seq<Event>)
    requires Invariant(s) && forall i :: 0 <= i < |events| ==> Acceptable(events[i])
    requires NoWrite(events) && s.watchdog as int + TickCount(events) == FanWatchdogTime as int
    ensures Run(s, events + [TickEvent]).duty == Fill(DefaultFanspeed)
    ensures Run(s, events + [TickEvent]).watchdog == 0
  {
    SilentRunKeepsDuty(s, events);
    RunAppend(s, events, TickEvent);
    TickWatchdog(Run(s, events));
  }

  /** From a SET_SPEED payload, a run without another payload keeps the
      written duties through its first 128 ticks, and the 129th tick
      restores 240 on every fan, however long the host had been silent
      before the write. */
  lemma SilenceTiming(s: State, data: seq<uchar>, events: seq<Event>)
    requires WellFormed(s) && |data| >= NoOfFans
    requires (forall i :: 0 <= i < |events| ==> Acceptable(events[i])) && NoWrite(events)
    ensures TickCount(events) <= 128 ==> Run(AfterWrite(s, data), events).duty == data[..NoOfFans]
    ensures TickCount(events) == 128 ==> Run(AfterWrite(s, data), events + [TickEvent]).duty == Fill(240)
  {
    var w := AfterWrite(s, data);
    if TickCount(events) <= 128 {
      SilentRunKeepsDuty(w, events);
    }
    if TickCount(events) == 128 {
      SilentRunExpires(w, events);
    }
  }

  // ---------------------------------------------------------------------
  // One counting window

  /** Reference count: how many times `pin` goes from low to high along
      `levels`, starting from the level `previous`. */
  function RisingCount(previous: bv8, levels: seq<bv8>, pin: Pin): nat
    decreases |levels|
  {
    if levels == [] then 0
    else (if !High(previous, pin) && High(levels[0], pin) then 1 else 0)
         + RisingCount(levels[0], levels[1..], pin)
  }

  /** The port levels sampled by the pin-change interrupts of a run. */
  function Levels(events: seq<Event>): seq<bv8>
    decreases |events|
  {
    if events == [] then []
    else if events[0].PinChangeEvent? then [events[0].current] + Levels(events[1..])
    else Levels(events[1..])
  }

  /** The run stays inside one window: no watchdog tick. */
  predicate NoTick(events: seq<Event>)
    decreases |events|
  {
    events == [] || (!events[0].TickEvent? && NoTick(events[1..]))
  }

  /** Within a window nothing but the tick touches the snapshot. */
  lemma {:induction false} WindowFrame(s: State, events: seq<Event>)
    requires WellFormed(s) && forall i :: 0 <= i < |events| ==> Acceptable(events[i])
    requires NoTick(events)
    ensures Run(s, events).snapshot == s.snapshot
    decreases |events|
  {
    if events != [] {
      WindowFrame(Step(s, events[0]), events[1..]);
    }
  }

  /** `n` uchar increments of `c`. */
  function Bump(c: uchar, n: nat): uchar {
    if n == 0 then c else Inc(Bump(c, n - 1))
  }

  /** `n` increments wrap like addition modulo 256. */
  lemma {:induction false} BumpWraps(c: uchar, n: nat)
    ensures Bump(c, n) as int == (c as int + n) % 256
  {
    if n > 0 {
      var x := c as int + n - 1;
      var prev := Bump(c, n - 1);
      BumpWraps(c, n - 1);
      assert prev as int == x % 256;
      ModNext(x);
      assert Bump(c, n) == Inc(prev);
    }
  }

  /** Adding one modulo 256 steps the residue, wrapping 255 to 0. */
  lemma ModNext(x: int)
    ensures (x + 1) % 256 == if x % 256 == 255 then 0 else x % 256 + 1
  {
    var q, m := x / 256, x % 256;
    if m == 255 {
      ModUnique(x + 1, q + 1, 0);
    } else {
      ModUnique(x + 1, q, m + 1);
    }
  }

  lemma ModUnique(x: int, q: int, r: int)
    requires x == 256 * q + r && 0 <= r < 256
    ensures x % 256 == r
  {
  }

  lemma BumpFromZero(n: nat)
    ensures Bump(0, n) as int == n % 256
  {
    BumpWraps(0, n);
  }

  lemma {:induction false} BumpAfterInc(c: uchar, n: nat)
    ensures Bump(Inc(c), n) == Bump(c, n + 1)
  {
    if n > 0 {
      BumpAfterInc(c, n - 1);
    }
  }

  /** Within a window, whatever payloads and host requests come in between,
      each counter ends up at its start value bumped once per rising edge
      of its pin. */
  lemma {:induction false} WindowCount(s: State, events: seq<Event>, fan: nat)
    requires WellFormed(s) && fan < NoOfFans
    requires (forall i :: 0 <= i < |events| ==> Acceptable(events[i])) && NoTick(events)
    ensures Run(s, events).count[fan] ==
              Bump(s.count[fan], RisingCount(s.tachoState, Levels(events), TachoPin[fan]))
    decreases |events|
  {
    if events != [] {
      var e := events[0];
      var t := Step(s, e);
      var pin := TachoPin[fan];
      WindowCount(t, events[1..], fan);
      assert Run(s, events) == Run(t, events[1..]);
      if e.PinChangeEvent? {
        var rest := RisingCount(e.current, Levels(events[1..]), pin);
        var rising := !High(s.tachoState, pin) && High(e.current, pin);
        var levels := Levels(events);
        assert levels[0] == e.current && levels[1..] == Levels(events[1..]);
        assert RisingCount(s.tachoState, levels, pin) == (if rising then 1 else 0) + rest;
        PinChangeCountsRisingEdge(s, e.current, fan);
        if rising {
          BumpAfterInc(s.count[fan], rest);
        }
      } else {
        assert Levels(events) == Levels(events[1..]);
        assert t.count == s.count && t.tachoState == s.tachoState;
      }
    }
  }

  /** GET_TACHO during a window, whatever pin changes, payloads and host
      requests it holds, still reports the snapshot its opening tick
      committed; after the next tick it reports this window's rising edges
      (mod 256). */
  lemma WindowReport(s: State, events: seq<Event>, fan: nat, reqType: bv8)
    requires WellFormed(s) && fan < NoOfFans && IsVendor(reqType)
    requires (forall i :: 0 <= i < |events| ==> Acceptable(events[i])) && NoTick(events)
    ensures var start := AfterTick(s);
      var during := Run(start, events);
      Respond(during, reqType, RqGetTacho) == Respond(start, reqType, RqGetTacho) &&
      Respond(AfterTick(during), reqType, RqGetTacho).bytes[fan] as int ==
        RisingCount(start.tachoState, Levels(events), TachoPin[fan]) % 256
  {
    var start := AfterTick(s);
    var during := Run(start, events);
    var n := RisingCount(start.tachoState, Levels(events), TachoPin[fan]);
    WindowFrame(start, events);
    assert start.count[fan] == 0;
    WindowCount(start, events, fan);
    assert during.count[fan] == Bump(0, n);
    BumpFromZero(n);
    assert Respond(AfterTick(during), reqType, RqGetTacho) == Data(during.count);
  }

  // ---------------------------------------------------------------------
  // The end-to-end scenario

  /** Start-up reads 240 on every fan; SET_SPEED(10, 20, 30, 40) reads back
      and clears the watchdog; 129 silent seconds later every fan is back at
      240. */
  lemma Scenario(pins: bv8, reqType: bv8)
    requires IsVendor(reqType)
    ensures Respond(Initial(pins), reqType, RqGetSpeed) == Data([240, 240, 240, 240])
    ensures var written := AfterWrite(Initial(pins), [10, 20, 30, 40]);
      Respond(written, reqType, RqGetSpeed) == Data([10, 20, 30, 40]) &&
      written.watchdog == 0 &&
      Respond(Ticks(written, 128), reqType, RqGetSpeed) == Data([10, 20, 30, 40]) &&
      Respond(Ticks(written, 129), reqType, RqGetSpeed) == Data([240, 240, 240, 240])
  {
    var written := AfterWrite(Initial(pins), [10, 20, 30, 40]);
    SilenceCountsUp(written, 128);
    SilenceExpires(written);
  }
}
