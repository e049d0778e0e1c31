/** The firmware's globals and handlers as one object. Each method is one
    handler of firmware/main.c run to completion (interrupts do not nest in
    the model), and is proved to take the object's view to the matching
    transition of FanModel. */
module Firmware {
  import opened FanModel

  /** The C library's `memcpy(dst, src, n)` for the whole of `dst`. */
  method Memcpy(dst: array<uchar>, src: array<uchar>)
    requires dst.Length == src.Length && dst != src
    modifies dst
    ensures dst[..] == src[..]
  {
    forall i | 0 <= i < dst.Length {
      dst[i] := src[i];
    }
  }

  /** The C library's `memset(a, v, n)` for the whole of `a`. */
  method Memset(a: array<uchar>, v: uchar)
    modifies a
    ensures forall i :: 0 <= i < a.Length ==> a[i] == v
  {
    forall i | 0 <= i < a.Length {
      a[i] := v;
    }
  }

  class FanController {
    /** The PWM compare registers OCR0B, OCR0A, OCR1BL, OCR1AL. */
    var fan1Compare: uchar
    var fan2Compare: uchar
    var fan3Compare: uchar
    var fan4Compare: uchar

    /** Port B level seen by the previous pin-change interrupt (`tacho_state`). */
    var tachoState: bv8
    /** Pulses counted in the running window (`fan_tacho_count`). */
    const fanTachoCount: array<uchar>
    /** Pulses of the last completed window (`fan_tacho`). */
    const fanTacho: array<uchar>
    /** Seconds since the last SET_SPEED payload (`watchdog_count`). */
    var watchdogCount: uchar
    /** usbFunctionSetup's static scratch buffer for GET_SPEED. */
    const dataBuffer: array<uchar>

    ghost predicate Valid()
      reads this
    {
      fanTachoCount.Length == NoOfFans && fanTacho.Length == NoOfFans &&
      dataBuffer.Length == NoOfFans &&
      fanTachoCount != fanTacho && fanTachoCount != dataBuffer && fanTacho != dataBuffer
    }

    /** The globals as a FanModel.State. */
    function View(): (s: State)
      reads this, fanTachoCount, fanTacho
      requires Valid()
      ensures WellFormed(s)
    {
      State([fan1Compare, fan2Compare, fan3Compare, fan4Compare],
            fanTachoCount[..], fanTacho[..], tachoState, watchdogCount)
    }

    /** Power-on: static zero initialisation, then the state part of main's
        start-up sequence (setupTachoDetection, restoreDefaultFanspeed).
        `pins` is the port B level sampled during setupTachoDetection. */
    constructor Init(pins: bv8)
      ensures Valid() && fresh(fanTachoCount) && fresh(fanTacho) && fresh(dataBuffer)
      ensures View() == Initial(pins)
    {
      fan1Compare, fan2Compare, fan3Compare, fan4Compare := 0, 0, 0, 0;
      tachoState := 0;
      watchdogCount := 0;
      fanTachoCount := new uchar[NoOfFans](_ => 0);
      fanTacho := new uchar[NoOfFans](_ => 0);
      dataBuffer := new uchar[NoOfFans](_ => 0);
      new;
      SetupTachoDetection(pins);
      RestoreDefaultFanspeed();
    }

    /** setupTachoDetection, state part: clear snapshot and counters and
        sample the tachometer inputs. */
    method SetupTachoDetection(pins: bv8)
      requires Valid()
      modifies this`tachoState, fanTacho, fanTachoCount
      ensures Valid()
      ensures View() == old(View()).(snapshot := Fill(0), count := Fill(0), tachoState := pins)
    {
      Memset(fanTacho, 0);
      Memset(fanTachoCount, 0);
      tachoState := pins;
    }

    /** restoreDefaultFanspeed. */
    method RestoreDefaultFanspeed()
      requires Valid()
      modifies this`fan1Compare, this`fan2Compare, this`fan3Compare, this`fan4Compare
      ensures Valid()
      ensures View() == RestoreDefault(old(View()))
    {
      fan1Compare := DefaultFanspeed;
      fan2Compare := DefaultFanspeed;
      fan3Compare := DefaultFanspeed;
      fan4Compare := DefaultFanspeed;
    }

    /** usbFunctionWrite: the SET_SPEED data stage. usbFunctionWrite never
        reads `len`, so the payload must hold the four duty bytes. Always
        answers 1 ("transfer complete"). */
    method Write(data: seq<uchar>) returns (done: uchar)
      requires Valid()
      requires |data| >= NoOfFans
      modifies this`watchdogCount, this`fan1Compare, this`fan2Compare, this`fan3Compare, this`fan4Compare
      ensures Valid()
      ensures View() == AfterWrite(old(View()), data)
      ensures done == 1
    {
      watchdogCount := 0;
      fan1Compare := data[0];
      fan2Compare := data[1];
      fan3Compare := data[2];
      fan4Compare := data[3];
      done := 1;
    }

    /** usbFunctionSetup for the setup packet's bmRequestType and bRequest.
        GET_SPEED copies the duties into the scratch buffer and answers
        with it; GET_TACHO answers with the snapshot itself. */
    method Setup(reqType: bv8, bRequest: uchar) returns (reply: Reply)
      requires Valid()
      modifies dataBuffer
      ensures Valid()
      ensures View() == old(View())
      ensures reply == Respond(View(), reqType, bRequest)
      ensures IsVendor(reqType) && bRequest == RqGetSpeed ==> dataBuffer[..] == View().duty
      ensures !(IsVendor(reqType) && bRequest == RqGetSpeed) ==> dataBuffer[..] == old(dataBuffer[..])
    {
      if reqType & RqTypeMask == RqTypeVendor {
        if bRequest == RqSetSpeed {
          return NoMsg;
        } else if bRequest == RqGetTacho {
          return Data(fanTacho[..]);
        } else if bRequest == RqGetSpeed {
          dataBuffer[0] := fan1Compare;
          dataBuffer[1] := fan2Compare;
          dataBuffer[2] := fan3Compare;
          dataBuffer[3] := fan4Compare;
          return Data(dataBuffer[..]);
        }
      }
      return Data([]);
    }

    /** ISR(PCINT_vect): `current` is the port B level read on entry. */
    method PinChange(current: bv8)
      requires Valid()
      modifies this`tachoState, fanTachoCount
      ensures Valid()
      ensures View() == AfterPinChange(old(View()), current)
    {
      var upFlank := (current ^ tachoState) & current;
      tachoState := current;
      var c0 := CountPulse(fanTachoCount[0], upFlank, TachoPin[0]);
      var c1 := CountPulse(fanTachoCount[1], upFlank, TachoPin[1]);
      var c2 := CountPulse(fanTachoCount[2], upFlank, TachoPin[2]);
      var c3 := CountPulse(fanTachoCount[3], upFlank, TachoPin[3]);
      fanTachoCount[0], fanTachoCount[1], fanTachoCount[2], fanTachoCount[3] := c0, c1, c2, c3;
      assert fanTachoCount[..] == [c0, c1, c2, c3];
    }

    /** ISR(WDT_OVERFLOW_vect), once per second: memcpy the counters into
        the snapshot, memset the counters, then advance the silence counter
        and restore the default duty once it passes FAN_WATCHDOG_TIME. */
    method Tick()
      requires Valid()
      modifies this`watchdogCount, this`fan1Compare, this`fan2Compare, this`fan3Compare, this`fan4Compare
      modifies fanTacho, fanTachoCount
      ensures Valid()
      ensures View() == AfterTick(old(View()))
    {
      ghost var before := View();
      Memcpy(fanTacho, fanTachoCount);
      Memset(fanTachoCount, 0);
      assert fanTachoCount[..] == Fill(0);
      watchdogCount := Inc(watchdogCount);
      assert View() == before.(snapshot := before.count, count := Fill(0), watchdog := Inc(before.watchdog));
      if watchdogCount > FanWatchdogTime {
        RestoreDefaultFanspeed();
        watchdogCount := 0;
      }
    }
  }
}
