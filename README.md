# Fan controller firmware model

The fan controller is an ATtiny USB device that drives four PWM fans and
counts their tachometer pulses (`firmware/main.c`). A host program sets the
four duty cycles with the vendor request SET_SPEED. It reads them back with
GET_SPEED, and it reads the pulse counts of the last one-second window with
GET_TACHO. A pin-change interrupt counts rising edges on the four tachometer
pins. A once-per-second watchdog-timer interrupt does three things:
- it commits the running counts to a snapshot and clears them;
- it advances a silence counter;
- when the host has been silent for more than 128 ticks, it puts every fan
  back to the default duty of 240.

The project has three modules:

- `FanModel` (`fan_model.dfy`) holds the firmware's constants and its
  globals as a `State` value, with one transition function per handler:
  - `Initial`, `RestoreDefault`, `AfterPinChange`, `AfterTick` and
    `AfterWrite`;
  - the reply table of `usbFunctionSetup`, `Respond`.

  main.c's `uchar` is the newtype `uchar` (0..255). `uchar` increments
  wrap explicitly (`Inc`). Port levels are `bv8`.
- `Firmware` (`firmware.dfy`) has the class `FanController`, whose fields are
  the globals:
  - the four compare registers;
  - `tacho_state`;
  - the arrays `fan_tacho_count` and `fan_tacho`;
  - `watchdog_count`;
  - the static GET_SPEED buffer.

  There is one method per handler. Each method is proved to move the
  object's `View()` exactly as the matching `FanModel` transition does.
- `FanProperties` (`properties.dfy`) proves what the handlers promise:
  - the SET/GET round trip;
  - rising-edge counting, including over a whole counting window with any
    pin changes, payloads and host requests in it, with the count wrapping
    modulo 256;
  - commit-and-clear on each tick;
  - the fail-safe timing over any interleaving of pin changes, host reads
    and ticks without a SET_SPEED payload: the first 128 ticks keep the
    host's duties and the 129th restores the default;
  - the invariant `watchdog <= 128` over any run of events;
  - a start-up scenario.

Reads of `PINB` are parameters (`pins` at start-up, `current` in the
pin-change handler). The USB setup packet enters as its `bmRequestType` and
`bRequest` fields. The SET_SPEED data stage enters as the payload bytes.

The comment on `FAN_WATCHDOG_TIME` speaks of restoring fan speed "after X
seconds" with X = 128. The `>` comparison in the tick handler restores on
the 129th silent tick. `SilenceTiming` states this timing as written. The
restored duty is `DEFAULT_FANSPEED` (240), not the register maximum.

## Model

| member | source | states |
|---|---|---|
| FanModel.Inc | firmware/main.c:215 | a `uchar` increment is addition of one modulo 256 (255 wraps to 0) |
| FanModel.BitAt | firmware/main.c:204-207 | `(x >> pin) & 1` is 1 exactly when the pin reads high in `x`, else 0 |
| FanModel.RisingEdges | firmware/main.c:202 | `(current ^ previous) & current` has a pin set iff that pin was low before and is high now |
| FanModel.CountPulse | firmware/main.c:204-207 | a fan's counter goes up by one (wrapping) iff its pin has a rising edge, else stays |
| FanModel.Initial | firmware/main.c:109-119 | defined as four 240 duties, zero counters and snapshot, the sampled pins and a zero silence counter; ensures the invariant |
| FanModel.RestoreDefault | firmware/main.c:114-119 | restoring the default keeps a well-formed state well-formed; its effect (all duties 240) is stated by `TickWatchdog` and `SilentRunExpires` |
| FanModel.AfterPinChange | firmware/main.c:199-208 | the pin-change handler keeps four counters; what it counts is stated by `PinChangeCountsRisingEdge` and `WindowCount` |
| FanModel.AfterTick | firmware/main.c:210-219 | after any tick the silence counter is at most 128 (the invariant is re-established); the commit is stated by `TickCommitsAndClears`, the fail-safe by `TickWatchdog` |
| FanModel.AfterWrite | firmware/main.c:124-132 | after a SET_SPEED payload the invariant holds; the new duties and the untouched tacho side are stated by `SetThenGetSpeed` and `WriteKeepsTacho` |
| FanModel.Respond | firmware/main.c:134-161 | the reply defers to the data stage exactly for vendor SET_SPEED; it carries bytes only for vendor GET_SPEED or GET_TACHO |
| Firmware.Memcpy | firmware/main.c:212 | the whole destination array equals the source array |
| Firmware.Memset | firmware/main.c:109-110 | every element of the array is the given byte |
| Firmware.FanController.Init | firmware/main.c:66-73 | power-on plus the start-up calls of `main` yield exactly `Initial(pins)` |
| Firmware.FanController.SetupTachoDetection | firmware/main.c:109-111 | snapshot and counters become zero, the sampled level is stored, the duties and silence counter are unchanged |
| Firmware.FanController.RestoreDefaultFanspeed | firmware/main.c:114-119 | all four compare registers become 240 and nothing else changes |
| Firmware.FanController.Write | firmware/main.c:124-132 | the silence counter becomes 0, the duties become the first four payload bytes, nothing else changes, and the result is 1 |
| Firmware.FanController.Setup | firmware/main.c:134-161 | no modelled state changes; the reply follows the vendor table (SET_SPEED defers to the data stage, GET_TACHO gives the snapshot, GET_SPEED gives the four duties, anything else zero bytes); the scratch buffer takes the duties on GET_SPEED and is untouched otherwise |
| Firmware.FanController.PinChange | firmware/main.c:199-208 | the object moves exactly as `AfterPinChange` |
| Firmware.FanController.Tick | firmware/main.c:210-219 | the object moves exactly as `AfterTick` |
| FanProperties.SetThenGetSpeed | firmware/main.c:124-152 | GET_SPEED after a SET_SPEED payload answers the payload's four bytes in fan order |
| FanProperties.WriteKeepsTacho | firmware/main.c:124-132 | a payload clears the silence counter and leaves counters, snapshot and pin state alone |
| FanProperties.PinChangeCountsRisingEdge | firmware/main.c:199-208 | each fan's counter is incremented iff its own tacho pin went low to high; the new level is remembered; nothing else changes |
| FanProperties.TickCommitsAndClears | firmware/main.c:210-213 | the snapshot becomes the running counters and every counter becomes 0 |
| FanProperties.TickWatchdog | firmware/main.c:214-218 | below the bound a tick only advances the silence counter; at the bound it restores 240 on every fan and resets the counter |
| FanProperties.ReplyShape | firmware/main.c:134-161 | the reply defers to the data stage iff the request is vendor SET_SPEED; vendor GET_SPEED/GET_TACHO answer 4 bytes, all other requests 0 |
| FanProperties.SilenceCountsUp | firmware/main.c:214-218 | while the counter stays within the bound, silent ticks keep the duties and add one each |
| FanProperties.SilenceExpires | firmware/main.c:214-218 | the tick that takes the counter past 128 restores the default duty and resets the counter |
| FanProperties.SilentRunKeepsDuty | firmware/main.c:214-218 | over any run without a payload, pin changes and host requests leave the duties alone and each tick adds one to the counter, while the counter stays within the bound |
| FanProperties.SilentRunExpires | firmware/main.c:214-218 | in a run without a payload, the tick that takes the counter past 128 restores 240 on every fan and resets the counter, whatever came in between |
| FanProperties.SilenceTiming | firmware/main.c:124-132 | after a payload, any run without another payload keeps the written duties through its first 128 ticks, and the 129th tick restores 240 |
| FanProperties.RunAppend | firmware/main.c:199-219 | running one more handler after a run is one more step of the model |
| FanProperties.WindowFrame | firmware/main.c:143-145 | within a window (no tick) no handler touches the snapshot that GET_TACHO answers |
| FanProperties.BumpWraps | firmware/main.c:204-207 | n wrapping increments add n modulo 256 |
| FanProperties.WindowCount | firmware/main.c:199-208 | within a window, whatever payloads and host requests come in between, each counter has been incremented once per rising edge of its pin |
| FanProperties.WindowReport | firmware/main.c:143-145 | during a window with any pin changes, payloads and host requests, GET_TACHO keeps answering the snapshot the opening tick committed; once the next tick commits the window's counters, GET_TACHO answers each fan's rising-edge count modulo 256 |
| FanProperties.InvariantHolds | firmware/main.c:199-219 | every run of handler events keeps the invariant (four channels, silence counter at most 128) |
| FanProperties.InvariantFromStartup | firmware/main.c:186-188 | the invariant holds after start-up followed by any run of events |
| FanProperties.Scenario | firmware/main.c:12-15 | start-up answers 240 on all fans; written duties survive 128 silent ticks and are replaced by 240 on the 129th |

## Left out

- `setupPWM` and the register writes in `setupTachoDetection` (WDTCSR, PCMSK, GIMSK, PORTB). They configure hardware and hold no modelled state.
- `main`'s USB start-up (`usbInit`, disconnect and reconnect, the delay loop), `sei` and the `usbPoll` loop. These are driver and timing concerns. Only the start-up calls that set state are modelled, in `Init`.
- The HID report descriptor. It is constant data for the USB driver.
- Interrupts preempting the USB callbacks. Each handler runs to completion in the model, and the two interrupt handlers cannot preempt each other on the device either. But an interrupt can fire in the middle of `usbFunctionSetup` or `usbFunctionWrite`. For example, a tick that restores 240 while GET_SPEED copies the four registers gives a reply that mixes old duties and 240. Such mixed states are not captured.
- The `usbMsgPtr` aliasing. The GET_TACHO reply is the snapshot's contents at setup time. The driver reads `fan_tacho` later, and a tick in between can change what is sent.
- The numeric value of `USB_NO_MSG`. It is modelled as the `NoMsg` reply.
- `usbdrv.h` is not part of this model. USBRQ_TYPE_MASK (0x60) and USBRQ_TYPE_VENDOR (0x40) are taken from section 9.3 of the USB 2.0 specification.
- The host-side Python client. It is not firmware.
- The globals shared with the interrupts are not declared `volatile`. The model assumes each handler sees the latest stored values.
- Firmware.FanController.Write: requires a payload of at least four bytes. usbFunctionWrite never reads `len`, and with a shorter payload it would copy stale buffer bytes, which the model does not represent.
