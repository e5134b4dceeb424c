# Science console: CAN command model

A Dafny model of the keyboard teleoperation console for a rover's science
subsystem (`science.py`). The console turns key presses and releases into
CAN frames. The arrow keys up/down drive the drill arm and `w`/`s` drive
the drill, by periodic resends of a PWM frame. Left/right step the sample
carousel one slot at a time.

The model is split into five modules:

- `Codec` (`codec.dfy`): the constants and the wire format. It builds the
  11-bit arbitration ID `(1 << 10) | (group << 6) | serial`, the PWM payload
  `[0x3, hi, lo]`, the move payload `[0xC, slot]` and the start-up payload
  `[0x0, 0x0]`. Its lemmas decode an ID back into group and serial, and
  decode the PWM bytes back into the power.
- `CanBus` (`bus.dfy`): the bus as a recording object. `sent` is the
  sequence of one-shot frames. `tasks` lists every periodic send started,
  each with its frame, its period and a count of `stop()` calls. A handle is
  an index into `tasks`.
- `Science` (`science.dfy`): the two globals of the source become the
  fields of a `Controller`. `resendTasks` maps a serial to a handle and
  `firstCupIdx` is the carousel index. The key handlers, `set_motor_power`,
  `move_cup`, `init_motors`, the calibration loop and the session are
  methods. The Controller's methods and `RunSession` are proved against
  specification functions over the value `State` (trace, tasks, registry,
  cup index); `MoveCup` and `InitMotors` are proved over the bus fields, and
  `Calibrate` against `FirstAccepted` of the answers. The invariant `Inv`
  says that every registered handle is live and drives its own serial, that
  no task is stopped twice and that every live task is registered. That last
  part means no periodic send is ever leaked.
- `Laws` (`laws.dfy`): what the specification functions promise. This covers
  the replace and zero-power laws of the registry, the frame condition on
  other motors and the carousel wrap-around. It also proves that at most one
  periodic send drives each motor for a whole session, and that the
  calibration prompt accepts the first answer that is a slot.
- `Wrappers` (`wrappers.dfy`): `Option`.

Three behaviours of the code are worth knowing:

- The PWM encoder does not reject out-of-range powers. It keeps the low 16
  bits (`Codec.PwmPayloadWraps`).
- Nothing clears the registry at shutdown. `main` leaves the bus context
  without touching `can_resend_tasks`.
- The serial numbers are fixed constants, not a configuration table.

## Model

| member | source | states |
|---|---|---|
| `Codec.CanId` | science.py:39-42 | for group < 16 and serial < 64, the ID is an 11-bit value with bit 10 set whose bits 9-6 are the group and bits 5-0 the serial |
| `Codec.CanIdOfFields` | science.py:39-42 | every 11-bit ID with bit 10 set is the packing of its own group and serial fields (the packing is onto) |
| `Codec.CanIdInjective` | science.py:39-42 | two (group, serial) pairs give the same ID iff they are equal |
| `Codec.PwmPayload` | science.py:45-47 | the payload has exactly 3 entries, the first is the PWM tag 0x3, the other two are bytes |
| `Codec.PwmPayloadRoundTrip` | science.py:45-47 | for every power in [-32768, 32767], reading bytes 1-2 as a big-endian two's-complement 16-bit value gives the power back |
| `Codec.PwmPayloadWraps` | science.py:45-47 | powers that differ by 65536 get the same payload: out-of-range values are truncated, not rejected |
| `Codec.PwmFrameAddress` | science.py:70-72 | a motor PWM frame has a standard ID with bit 10 set, the motor group and the motor's own serial |
| `Codec.MoveFrameAddress` | science.py:57-63 | a move frame has a standard ID in the science group with the science serial, differs in ID and tag from every motor PWM frame, and carries the slot as its second byte |
| `CanBus.Stopped` | science.py:68 | stopping a handle counts one more stop on that task and leaves its frame, its period and every other task unchanged |
| `CanBus.Bus.constructor` | science.py:141 | a freshly opened bus has sent nothing and runs no periodic send |
| `CanBus.Bus.Send` | science.py:76 | a one-shot send appends the frame to the trace and starts no periodic send |
| `CanBus.Bus.SendPeriodic` | science.py:74 | a periodic send returns a new handle for a new live task with the given frame and period; nothing is sent once |
| `CanBus.Bus.Stop` | science.py:68 | stop() increments the stop count of exactly that task; the trace is unchanged |
| `Science.FirstAccepted` | science.py:132-139 | the chosen answer, if any, is a slot in [0, 12) taken from the answers |
| `Science.Calibrate` | science.py:132-139 | the re-prompting loop ends with the first answer that parses to a slot in [0, 12); non-numbers and out-of-range numbers are skipped |
| `Science.SetMotorPowerKeepsRegistered` | science.py:66-76 | after set_motor_power every registered serial is a motor serial whose handle names a live task with period 0.5 sending to that serial |
| `Science.SetMotorPowerKeepsInv` | science.py:66-76 | set_motor_power preserves the registry invariant: registered handles are live, have period 0.5 and drive their own serial; no task is stopped twice; no live task is unregistered |
| `Science.KeyPressedKeepsInv` | science.py:87-106 | every key press preserves the registry invariant and keeps the cup index in [0, 12) |
| `Science.KeyReleasedKeepsInv` | science.py:109-115 | every key release preserves the registry invariant |
| `Science.Replay` | science.py:141-150 | any sequence of key events, handled in order from a valid state, ends in a state satisfying the invariant |
| `Science.MoveCup` | science.py:57-63 | for a byte-sized index, exactly one move frame `[0xC, idx]` to the science controller is appended; no periodic send is started or stopped |
| `Science.InitMotors` | science.py:79-84 | exactly two frames `[0x0, 0x0]` are appended, to the drill arm (0xC) then the drill (0xD) in the motor group; the tasks are unchanged |
| `Science.RunSession` | science.py:128-150 | when no answer is a slot there is no session; otherwise the final state is the start state (first accepted slot, two start-up frames, empty registry) with every event applied in order |
| `Science.Controller.constructor` | science.py:21-25 | the registry starts empty and the cup index starts at the calibrated slot |
| `Science.Controller.SetMotorPower` | science.py:66-76 | the new registry, tasks and trace are those of SetMotorPowerSpec, and the invariant is kept |
| `Science.Controller.KeyPressed` | science.py:87-106 | the if-based wrap of the source equals the modulo step: the new state is that of KeyPressedSpec, and the invariant is kept |
| `Science.Controller.KeyReleased` | science.py:109-115 | the new state is that of KeyReleasedSpec, and the invariant is kept |
| `Laws.LiveForIsRegistered` | science.py:66-76 | under the invariant, the live periodic sends that drive a motor are exactly its registered handle, or none: at most one per serial |
| `Laws.SetMotorPowerNonzero` | science.py:66-74 | a nonzero power stops the old handle exactly once and drops it; it registers a fresh live handle repeating the PWM frame every 0.5, which is then the only live send for that serial; nothing is sent once |
| `Laws.SetMotorPowerZero` | science.py:66-76 | zero power stops and drops the old handle (exactly once) and sends exactly one zero-PWM frame; it starts no periodic send, so no live send drives the serial |
| `Laws.SetMotorPowerOthersUnchanged` | science.py:66-76 | the registry entry of every other serial, and the task it names, are unchanged |
| `Laws.ReplaceLaw` | science.py:66-74 | two nonzero powers in a row (equal or not) leave one live send for the serial, the second one; the first was stopped exactly once; nothing was sent once |
| `Laws.ZeroAfterNonzero` | science.py:66-76 | zero after a nonzero power leaves no handle and no live send for the serial; the periodic send was stopped once; one zero frame went out |
| `Laws.CarouselKeys` | science.py:97-106 | "right" maps 11 to 0 and otherwise adds one; "left" maps 0 to 11 and otherwise subtracts one; the index stays in [0, 12); exactly one move frame for the new index is sent; the registry is untouched |
| `Laws.RightThenLeft` | science.py:97-106 | "right" then "left" restores the state apart from the two move frames sent |
| `Laws.LeftThenRight` | science.py:97-106 | "left" then "right" restores the state apart from the two move frames sent |
| `Laws.KeyReleasedLaws` | science.py:109-115 | a release never moves the cup; up/down zero the drill arm and w/s the drill, leaving no live send for it and sending one zero frame; any other key changes nothing |
| `Laws.PressReleaseDrill` | science.py:94-115 | pressing then releasing "w" starts one full-power periodic drill send, stops it once, sends one zero frame and leaves nothing driving the drill |
| `Laws.KeyPowerPayloads` | science.py:12-13 | the quantized key powers ±16384 and ±32767, and zero, encode to the payloads [3,0x40,0], [3,0xC0,0], [3,0x7F,0xFF], [3,0x80,1], [3,0,0] |
| `Laws.SessionRegistersOnlyMotors` | science.py:87-115 | in a session, only the drill arm and the drill serials are ever registered |
| `Laws.SessionAtMostOneLive` | science.py:66-76 | at every point of a session, at most one periodic send drives any motor, and none drives a serial other than the two motors |
| `Laws.FirstAcceptedIsFirst` | science.py:132-139 | the calibration result is an accepted answer that no accepted answer precedes; when there is none, no answer is a slot |
| `Laws.CalibrationExample` | science.py:132-139 | a non-number then 12 then 5 calibrates to 5; a non-number, -1 and 12 calibrate to nothing |

## Left out

- The float quantization `round((2**15 - 1) * power)` is left out, because it is floating point. Power is the already-quantized integer. The two constants become 16384 (0.5, with Python rounding 16383.5 half to even) and 32767 (1.0).
- `Science.Controller.SetMotorPower` branches on the quantized power being nonzero, while the source tests the float `power != 0.0`. The two agree for every power the key handlers pass (0.0, ±0.5, ±1.0). A tiny nonzero float that rounds to 0 is not modelled.
- The background timer behind a periodic send is left out, because it is concurrent and time-based. A task is only started, with a frame and a period, or stopped.
- Bus transmission failures and timeouts are left out. Every send succeeds.
- `MockBus`, `get_bus`, the socketcan driver and closing the bus are left out, because they are I/O or a foreign library. The bus is the recording `CanBus.Bus`.
- Debug printing, `argparse` and the text of the console prompt are left out, because they are console I/O. `int(input(...))` is given as a parsed answer, with None for text `int()` rejects.
- `Science.Calibrate` and `Science.RunSession` take a finite list of answers. The source prompts for as long as input lasts; at end of input `input()` raises EOFError, which nothing catches, so it stops before opening the bus. That outcome is the None result.
- The `sshkeyboard` listener, `asyncio` and the `KeyboardInterrupt` handling are left out, because they are the event loop and signal plumbing. Key events are a finite sequence handled in order.
- Clearing the registry at shutdown is not modelled, because the code never does it: the periodic sends stay registered and live when the session ends.
