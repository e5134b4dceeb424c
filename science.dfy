/**
 * The science console: the periodic-task registry, the key handlers that
 * drive the drill arm, the drill and the carousel, the start-up frames and
 * the calibration prompt.
 *
 * The source keeps the registry and the cup index in two module globals and
 * passes the bus to every call; here they are the fields of a Controller and
 * the bus is a Bus argument. `State` is the value of all of them together,
 * and the *Spec functions say what one call does to it.
 */
module Science {
  import opened Wrappers
  import opened Codec
  import opened CanBus

  /** The calibration prompt accepts exactly the slots [0, N_SLOTS). */
  predicate ValidSlot(x: int) {
    0 <= x < N_SLOTS
  }

  /** One parsed answer to the calibration prompt; None stands for text int() rejects. */
  predicate Accepts(answer: Option<int>) {
    answer.Some? && ValidSlot(answer.value)
  }

  /** The slot the operator ends up calibrating with: the first accepted answer. */
  function FirstAccepted(answers: seq<Option<int>>): (r: Option<int>)
    ensures r.Some? ==> Accepts(r) && r in answers
  {
    if answers == [] then None
    else if Accepts(answers[0]) then answers[0]
    else FirstAccepted(answers[1..])
  }

  /** The carousel index after "right" and after "left": a step modulo N_SLOTS. */
  function NextSlot(i: int): (next: int) {
    (i + 1) % N_SLOTS
  }

  function PrevSlot(i: int): (prev: int) {
    (i - 1 + N_SLOTS) % N_SLOTS
  }

  /** A keyboard event as the listener delivers it. */
  datatype KeyEvent = Press(key: string) | Release(key: string)

  /**
   * Everything the console changes: the one-shot frames sent, the periodic
   * sends started, the registry (serial -> handle) and the first cup's slot.
   */
  datatype State = State(sent: seq<Frame>, tasks: seq<Task>, resendTasks: map<int, nat>, firstCupIdx: int)

  /**
   * The registry invariant: the cup index is a slot; every registered handle
   * names a live task that repeats a frame for its own serial every
   * RESEND_PERIOD; no task was stopped twice; and every live task is
   * registered, so no periodic send is ever leaked.
   */
  ghost predicate Inv(st: State) {
    && ValidSlot(st.firstCupIdx)
    && (forall s :: s in st.resendTasks ==> 0 <= s < 64 && st.resendTasks[s] < |st.tasks|)
    && (forall s :: s in st.resendTasks ==>
          && st.tasks[st.resendTasks[s]].Live()
          && st.tasks[st.resendTasks[s]].period == RESEND_PERIOD
          && st.tasks[st.resendTasks[s]].frame.id == CanId(MOTOR_GROUP, s))
    && (forall h :: 0 <= h < |st.tasks| ==> st.tasks[h].stops <= 1)
    && (forall h :: 0 <= h < |st.tasks| && st.tasks[h].Live() ==>
          exists s :: s in st.resendTasks && st.resendTasks[s] == h)
  }

  /** What set_motor_power does: stop and drop the old handle, then resend periodically or send once. */
  function SetMotorPowerSpec(st: State, serial: int, power: int): (r: State)
    requires 0 <= serial < 64
    requires serial in st.resendTasks ==> st.resendTasks[serial] < |st.tasks|
  {
    var cleared :=
      if serial in st.resendTasks then
        st.(tasks := Stopped(st.tasks, st.resendTasks[serial]), resendTasks := st.resendTasks - {serial})
      else st;
    var frame := PwmFrame(serial, power);
    if power != 0 then
      cleared.(tasks := cleared.tasks + [Task(frame, RESEND_PERIOD, 0)],
               resendTasks := cleared.resendTasks[serial := |cleared.tasks|])
    else
      cleared.(sent := cleared.sent + [frame])
  }

  /** What a key press does. */
  function KeyPressedSpec(st: State, key: string): (r: State)
    requires Inv(st)
  {
    if key == "up" || key == "down" then
      SetMotorPowerSpec(st, DRILL_ARM_SERIAL, if key == "up" then DRILL_ARM_POWER else -DRILL_ARM_POWER)
    else if key == "w" || key == "s" then
      SetMotorPowerSpec(st, DRILL_SERIAL, if key == "w" then DRILL_POWER else -DRILL_POWER)
    else if key == "right" then
      var i := NextSlot(st.firstCupIdx);
      st.(firstCupIdx := i, sent := st.sent + [MoveFrame(i)])
    else if key == "left" then
      var i := PrevSlot(st.firstCupIdx);
      st.(firstCupIdx := i, sent := st.sent + [MoveFrame(i)])
    else
      st
  }

  /** What a key release does. */
  function KeyReleasedSpec(st: State, key: string): (r: State)
    requires Inv(st)
  {
    if key == "up" || key == "down" then
      SetMotorPowerSpec(st, DRILL_ARM_SERIAL, 0)
    else if key == "w" || key == "s" then
      SetMotorPowerSpec(st, DRILL_SERIAL, 0)
    else
      st
  }

  function Step(st: State, e: KeyEvent): (r: State)
    requires Inv(st)
  {
    match e
    case Press(key) => KeyPressedSpec(st, key)
    case Release(key) => KeyReleasedSpec(st, key)
  }

  /** After set_motor_power every registered handle still names a live task for its own serial. */
  lemma SetMotorPowerKeepsRegistered(st: State, serial: int, power: int)
    requires Inv(st) && 0 <= serial < 64
    ensures var r := SetMotorPowerSpec(st, serial, power);
      forall s :: s in r.resendTasks ==>
        && 0 <= s < 64 && r.resendTasks[s] < |r.tasks|
        && r.tasks[r.resendTasks[s]].Live() && r.tasks[r.resendTasks[s]].period == RESEND_PERIOD
        && r.tasks[r.resendTasks[s]].frame.id == CanId(MOTOR_GROUP, s)
  {
    var r := SetMotorPowerSpec(st, serial, power);
    forall s | s in r.resendTasks
      ensures 0 <= s < 64 && r.resendTasks[s] < |r.tasks|
      ensures r.tasks[r.resendTasks[s]].Live() && r.tasks[r.resendTasks[s]].period == RESEND_PERIOD
      ensures r.tasks[r.resendTasks[s]].frame.id == CanId(MOTOR_GROUP, s)
    {
      if s != serial {
        assert s in st.resendTasks && r.resendTasks[s] == st.resendTasks[s];
        if serial in st.resendTasks {
          var old_h := st.resendTasks[serial];
          assert st.tasks[old_h].frame.id == CanId(MOTOR_GROUP, serial);
          assert st.resendTasks[s] != old_h;
        }
      }
    }
  }

  /** set_motor_power keeps the registry invariant. */
  lemma SetMotorPowerKeepsInv(st: State, serial: int, power: int)
    requires Inv(st) && 0 <= serial < 64
    ensures Inv(SetMotorPowerSpec(st, serial, power))
  {
    var r := SetMotorPowerSpec(st, serial, power);
    var n := |st.tasks|;
    SetMotorPowerKeepsRegistered(st, serial, power);
    forall h | 0 <= h < |r.tasks| && r.tasks[h].Live()
      ensures exists s :: s in r.resendTasks && r.resendTasks[s] == h
    {
      if h < n {
        assert st.tasks[h].Live();
        var s :| s in st.resendTasks && st.resendTasks[s] == h;
        assert s != serial;
        assert s in r.resendTasks && r.resendTasks[s] == h;
      } else {
        assert r.resendTasks[serial] == h;
      }
    }
  }

  lemma KeyPressedKeepsInv(st: State, key: string)
    requires Inv(st)
    ensures Inv(KeyPressedSpec(st, key))
  {
    if key == "up" || key == "down" {
      SetMotorPowerKeepsInv(st, DRILL_ARM_SERIAL, if key == "up" then DRILL_ARM_POWER else -DRILL_ARM_POWER);
    } else if key == "w" || key == "s" {
      SetMotorPowerKeepsInv(st, DRILL_SERIAL, if key == "w" then DRILL_POWER else -DRILL_POWER);
    }
  }

  lemma KeyReleasedKeepsInv(st: State, key: string)
    requires Inv(st)
    ensures Inv(KeyReleasedSpec(st, key))
  {
    if key == "up" || key == "down" {
      SetMotorPowerKeepsInv(st, DRILL_ARM_SERIAL, 0);
    } else if key == "w" || key == "s" {
      SetMotorPowerKeepsInv(st, DRILL_SERIAL, 0);
    }
  }

  /** The state after a sequence of key events, applied in order. */
  function Replay(st: State, events: seq<KeyEvent>): (r: State)
    requires Inv(st)
    ensures Inv(r)
    decreases |events|
  {
    if events == [] then st
    else
      var prev := Replay(st, events[..|events| - 1]);
      var e := events[|events| - 1];
      if e.Press? then
        KeyPressedKeepsInv(prev, e.key);
        Step(prev, e)
      else
        KeyReleasedKeepsInv(prev, e.key);
        Step(prev, e)
  }

  /** The frames init_motors sends, one per listed serial, in order. */
  function InitFrames(serials: seq<int>): (frames: seq<Frame>)
    requires forall k :: 0 <= k < |serials| ==> 0 <= serials[k] < 64
  {
    if serials == [] then []
    else InitFrames(serials[..|serials| - 1]) + [InitFrame(serials[|serials| - 1])]
  }

  /** A session right after calibration to `slot` and init_motors. */
  function StartState(slot: int): (st: State) {
    State([InitFrame(DRILL_ARM_SERIAL), InitFrame(DRILL_SERIAL)], [], map[], slot)
  }

  /** move_cup: one standard-ID move frame to the science controller; no periodic send. */
  method MoveCup(bus: Bus, cupIdx: int)
    requires IsByte(cupIdx)
    modifies bus
    ensures bus.sent == old(bus.sent) + [MoveFrame(cupIdx)]
    ensures bus.tasks == old(bus.tasks)
  {
    var data := [MOVE_TAG, cupIdx];
    var canId := CanId(SCIENCE_GROUP, SCIENCE_SERIAL);
    bus.Send(Frame(canId, false, data));
  }

  /** init_motors: a [0x0, 0x0] frame to the drill arm, then one to the drill. */
  method InitMotors(bus: Bus)
    modifies bus
    ensures bus.sent == old(bus.sent) + [InitFrame(DRILL_ARM_SERIAL), InitFrame(DRILL_SERIAL)]
    ensures bus.tasks == old(bus.tasks)
  {
    var serials := [DRILL_ARM_SERIAL, DRILL_SERIAL];
    for i := 0 to |serials|
      invariant bus.sent == old(bus.sent) + InitFrames(serials[..i])
      invariant bus.tasks == old(bus.tasks)
    {
      var canId := CanId(MOTOR_GROUP, serials[i]);
      bus.Send(Frame(canId, false, [0x0, 0x0]));
      assert serials[..i + 1][..i] == serials[..i];
    }
    assert serials[..2] == serials;
  }

  /**
   * The calibration loop of the session: read answers until one is a slot.
   * `answers` are the operator's lines, already through int(); the loop
   * stops with None only when they run out.
   */
  method Calibrate(answers: seq<Option<int>>) returns (slot: Option<int>)
    ensures slot == FirstAccepted(answers)
  {
    slot := None;
    var i := 0;
    while slot.None? && i < |answers|
      invariant 0 <= i <= |answers|
      invariant slot.None? ==> FirstAccepted(answers[i..]) == FirstAccepted(answers)
      invariant slot.Some? ==> slot == FirstAccepted(answers)
    {
      var answer := answers[i];
      assert answers[i..][1..] == answers[i + 1..];
      i := i + 1;
      if answer.Some? {
        slot := answer;
        if !(0 <= slot.value < N_SLOTS) {
          slot := None;
        }
      }
    }
  }

  /** The two globals of the console: the registry and the first cup's slot. */
  class Controller {
    /** Serial -> handle of the periodic send that drives that motor. */
    var resendTasks: map<int, nat>
    /** Position of the first cup, in [0, N_SLOTS). */
    var firstCupIdx: int

    /** Set up after calibration: no periodic sends yet. */
    constructor (slot: int)
      requires ValidSlot(slot)
      ensures resendTasks == map[] && firstCupIdx == slot
    {
      resendTasks := map[];
      firstCupIdx := slot;
    }

    function Snap(bus: Bus): (st: State)
      reads this, bus
    {
      State(bus.sent, bus.tasks, resendTasks, firstCupIdx)
    }

    ghost predicate Valid(bus: Bus)
      reads this, bus
    {
      Inv(Snap(bus))
    }

    /** set_motor_power */
    method SetMotorPower(bus: Bus, serial: int, power: int)
      requires 0 <= serial < 64
      requires Valid(bus)
      modifies this, bus
      ensures Snap(bus) == SetMotorPowerSpec(old(Snap(bus)), serial, power)
      ensures Valid(bus)
    {
      if serial in resendTasks {
        bus.Stop(resendTasks[serial]);
        resendTasks := resendTasks - {serial};
      }
      var canId := CanId(MOTOR_GROUP, serial);
      var data := PwmPayload(power);
      var message := Frame(canId, false, data);
      if power != 0 {
        var h := bus.SendPeriodic(message, RESEND_PERIOD);
        resendTasks := resendTasks[serial := h];
      } else {
        bus.Send(message);
      }
      SetMotorPowerKeepsInv(old(Snap(bus)), serial, power);
    }

    /** key_pressed */
    method KeyPressed(bus: Bus, key: string)
      requires Valid(bus)
      modifies this, bus
      ensures Snap(bus) == KeyPressedSpec(old(Snap(bus)), key)
      ensures Valid(bus)
    {
      if key == "up" || key == "down" {
        var power := DRILL_ARM_POWER * (if key == "up" then 1 else -1);
        SetMotorPower(bus, DRILL_ARM_SERIAL, power);
      } else if key == "w" || key == "s" {
        var power := DRILL_POWER * (if key == "w" then 1 else -1);
        SetMotorPower(bus, DRILL_SERIAL, power);
      } else if key == "right" {
        firstCupIdx := firstCupIdx + 1;
        if firstCupIdx == N_SLOTS {
          firstCupIdx := 0;
        }
        MoveCup(bus, firstCupIdx);
      } else if key == "left" {
        firstCupIdx := firstCupIdx - 1;
        if firstCupIdx == -1 {
          firstCupIdx := N_SLOTS - 1;
        }
        MoveCup(bus, firstCupIdx);
      }
    }

    /** key_released */
    method KeyReleased(bus: Bus, key: string)
      requires Valid(bus)
      modifies this, bus
      ensures Snap(bus) == KeyReleasedSpec(old(Snap(bus)), key)
      ensures Valid(bus)
    {
      if key == "up" || key == "down" {
        SetMotorPower(bus, DRILL_ARM_SERIAL, 0);
      } else if key == "w" || key == "s" {
        SetMotorPower(bus, DRILL_SERIAL, 0);
      }
    }
  }

  /**
   * The session: calibrate, open a fresh bus, initialise the motors and feed
   * every key event to its handler in order. The result is the final state,
   * or None when the answers ran out before one was accepted.
   */
  method RunSession(answers: seq<Option<int>>, events: seq<KeyEvent>) returns (r: Option<State>)
    ensures FirstAccepted(answers).None? ==> r.None?
    ensures FirstAccepted(answers).Some? ==>
      && ValidSlot(FirstAccepted(answers).value)
      && r == Some(Replay(StartState(FirstAccepted(answers).value), events))
  {
    var slot := Calibrate(answers);
    if slot.None? {
      return None;
    }
    var bus := new Bus();
    var controller := new Controller(slot.value);
    InitMotors(bus);
    assert controller.Snap(bus) == StartState(slot.value);
    for i := 0 to |events|
      invariant controller.Valid(bus)
      invariant controller.Snap(bus) == Replay(StartState(slot.value), events[..i])
    {
      assert events[..i + 1][..i] == events[..i];
      match events[i]
      case Press(key) => controller.KeyPressed(bus, key);
      case Release(key) => controller.KeyReleased(bus, key);
    }
    assert events[..|events|] == events;
    r := Some(controller.Snap(bus));
  }
}
