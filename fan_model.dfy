/** The fan controller's state and its event handlers, as values.
    Every handler of firmware/main.c is one transition function on State;
    the class in module Firmware is proved to implement each of them. */
module FanModel {

  /** main.c's `uchar`: an unsigned 8-bit value kept as an integer. */
  newtype uchar = x: int | 0 <= x < 256

  /** `x++` on a uchar: addition of one modulo 256, so 255 wraps to 0. */
  function Inc(x: uchar): (r: uchar)
    ensures r as int == (x as int + 1) % 256
  {
    if x == 255 then 0 else x + 1
  }

  /** Number of fan channels (NO_OF_FANS). */
  const NoOfFans: nat := 4

  /** Duty cycle applied at start-up and by the fail-safe (DEFAULT_FANSPEED). */
  const DefaultFanspeed: uchar := 240

  /** Seconds of host silence tolerated before the fail-safe (FAN_WATCHDOG_TIME). */
  const FanWatchdogTime: uchar := 128

  /** A bit position of the 8-bit port B. */
  type Pin = p: bv8 | p < 8

  /** Port B bit of each fan's tachometer input, fans 1 to 4 (FANx_TACHO_PIN). */
  const TachoPin: seq<Pin> := [1, 0, 6, 5]

  /** Vendor request codes (CUSTOM_RQ_*). */
  const RqSetSpeed: uchar := 1
  const RqGetSpeed: uchar := 2
  const RqGetTacho: uchar := 3

  /** Bits 6..5 of bmRequestType give the request type; 2 is "vendor"
      (section 9.3 of the USB 2.0 specification; USBRQ_TYPE_MASK and
      USBRQ_TYPE_VENDOR in the USB driver). */
  const RqTypeMask: bv8 := 0x60
  const RqTypeVendor: bv8 := 0x40

  predicate IsVendor(reqType: bv8) {
    reqType & RqTypeMask == RqTypeVendor
  }

  // ---------------------------------------------------------------------
  // Pin levels and edges

  /** Reference meaning of "pin `pin` of the port reads high". */
  predicate High(levels: bv8, pin: Pin)
  {
    levels & (1 << pin) != 0
  }

  /** The handler's `(x >> pin) & 1`: the pin's level as a 0/1 increment. */
  function BitAt(x: bv8, pin: Pin): (r: bv8)
    ensures r == if High(x, pin) then 1 else 0
  {
    (x >> pin) & 1
  }

  lemma EdgeAt(previous: bv8, current: bv8, pin: Pin)
    ensures High((current ^ previous) & current, pin) <==> !High(previous, pin) && High(current, pin)
  {
  }

  /** Pins that went from low to high: `(current ^ previous) & current`. */
  function RisingEdges(previous: bv8, current: bv8): (up: bv8)
    ensures forall pin: Pin ::
              High(up, pin) <==> !High(previous, pin) && High(current, pin)
  {
    forall pin: Pin
      ensures High((current ^ previous) & current, pin) <==> !High(previous, pin) && High(current, pin)
    {
      EdgeAt(previous, current, pin);
    }
    (current ^ previous) & current
  }

  /** One fan's counter after a pin change: the uchar `+=` of the pin's
      0/1 edge bit, so it goes up by one (wrapping from 255 to 0) exactly
      when the pin rose. */
  function CountPulse(count: uchar, edges: bv8, pin: Pin): (r: uchar)
    ensures r == if High(edges, pin) then Inc(count) else count
  {
    if BitAt(edges, pin) == 0 then count else Inc(count)
  }

  // ---------------------------------------------------------------------
  // State

  /** The firmware's globals: the four compare registers FAN1..4_COMPARE
      (`duty`), `fan_tacho_count` (`count`), `fan_tacho` (`snapshot`),
      `tacho_state` and `watchdog_count`. */
  datatype State = State(
    duty: seq<uchar>,
    count: seq<uchar>,
    snapshot: seq<uchar>,
    tachoState: bv8,
    watchdog: uchar)

  predicate WellFormed(s: State) {
    |s.duty| == NoOfFans && |s.count| == NoOfFans && |s.snapshot| == NoOfFans
  }

  /** What holds between events: the silence counter never exceeds the bound. */
  predicate Invariant(s: State) {
    WellFormed(s) && s.watchdog <= FanWatchdogTime
  }

  function Fill(b: uchar): (r: seq<uchar>)
    ensures |r| == NoOfFans && forall i :: 0 <= i < |r| ==> r[i] == b
  {
    [b, b, b, b]
  }

  // ---------------------------------------------------------------------
  // Handlers

  /** Globals after start-up: static zero initialisation, then
      setupTachoDetection (counters and snapshot cleared, pin levels sampled)
      and restoreDefaultFanspeed. */
  function Initial(pins: bv8): (s: State)
    ensures Invariant(s)
  {
    State(Fill(DefaultFanspeed), Fill(0), Fill(0), pins, 0)
  }

  /** restoreDefaultFanspeed: all four compare registers get the default. */
  function RestoreDefault(s: State): (r: State)
    ensures WellFormed(s) ==> WellFormed(r)
  {
    s.(duty := Fill(DefaultFanspeed))
  }

  /** ISR(PCINT_vect) with `current` the sampled port level. */
  function AfterPinChange(s: State, current: bv8): (r: State)
    requires WellFormed(s)
    ensures WellFormed(r)
  {
    var up := RisingEdges(s.tachoState, current);
    s.(tachoState := current,
       count := [CountPulse(s.count[0], up, TachoPin[0]), CountPulse(s.count[1], up, TachoPin[1]),
                 CountPulse(s.count[2], up, TachoPin[2]), CountPulse(s.count[3], up, TachoPin[3])])
  }

  /** ISR(WDT_OVERFLOW_vect): commit and clear the counters, then advance the
      uchar silence counter and apply the fail-safe past the bound. */
  function AfterTick(s: State): (r: State)
    requires WellFormed(s)
    ensures Invariant(r)
  {
    var committed := s.(snapshot := s.count, count := Fill(0), watchdog := Inc(s.watchdog));
    if committed.watchdog > FanWatchdogTime then
      RestoreDefault(committed).(watchdog := 0)
    else
      committed
  }

  /** usbFunctionWrite: the SET_SPEED payload's first four bytes become the
      duty cycles after the silence counter is cleared. */
  function AfterWrite(s: State, data: seq<uchar>): (r: State)
    requires WellFormed(s) && |data| >= NoOfFans
    ensures Invariant(r)
  {
    s.(watchdog := 0, duty := data[..NoOfFans])
  }

  /** What usbFunctionSetup hands the USB driver. */
  datatype Reply =
    | NoMsg                  // USB_NO_MSG: the payload goes to usbFunctionWrite
    | Data(bytes: seq<uchar>)  // the bytes behind usbMsgPtr; the length is |bytes|

  /** usbFunctionSetup's decision table. Only vendor SET_SPEED defers to the
      data stage, and only the two vendor reads answer any bytes. */
  function Respond(s: State, reqType: bv8, bRequest: uchar): (r: Reply)
    ensures r.NoMsg? <==> IsVendor(reqType) && bRequest == RqSetSpeed
    ensures r.Data? && |r.bytes| > 0 ==>
              IsVendor(reqType) && (bRequest == RqGetSpeed || bRequest == RqGetTacho)
  {
    if IsVendor(reqType) then
      if bRequest == RqSetSpeed then NoMsg
      else if bRequest == RqGetTacho then Data(s.snapshot)
      else if bRequest == RqGetSpeed then Data(s.duty)
      else Data([])
    else
      Data([])
  }
}
