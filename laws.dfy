/**
 * Laws of the registry, the key handlers and the calibration prompt, stated
 * over the State value that Science's *Spec functions transform.
 */
module Laws {
  import opened Wrappers
  import opened Codec
  import opened CanBus
  import opened Science

  /** The handles of the live periodic sends that drive motor `serial`. */
  ghost function LiveFor(st: State, serial: int): set<int>
    requires 0 <= serial < 64
  {
    set h | 0 <= h < |st.tasks| && st.tasks[h].Live() && st.tasks[h].frame.id == CanId(MOTOR_GROUP, serial)
  }

  /** At most one periodic send drives a motor, and it is the registered one. */
  lemma LiveForIsRegistered(st: State, serial: int)
    requires Inv(st) && 0 <= serial < 64
    ensures LiveFor(st, serial) == if serial in st.resendTasks then {st.resendTasks[serial]} else {}
  {
    forall h | h in LiveFor(st, serial)
      ensures serial in st.resendTasks && h == st.resendTasks[serial]
    {
      var s :| s in st.resendTasks && st.resendTasks[s] == h;
      CanIdInjective(MOTOR_GROUP, s, MOTOR_GROUP, serial);
    }
  }

  /**
   * A nonzero power: the old handle, if any, is stopped exactly once and
   * dropped; a fresh live handle repeating the PWM frame every
   * RESEND_PERIOD is the only one for `serial`; nothing is sent once.
   */
  lemma SetMotorPowerNonzero(st: State, serial: int, power: int)
    requires Inv(st) && 0 <= serial < 64 && power != 0
    ensures var r := SetMotorPowerSpec(st, serial, power);
      && r.resendTasks.Keys == st.resendTasks.Keys + {serial}
      && |r.tasks| == |st.tasks| + 1
      && r.resendTasks[serial] == |st.tasks|
      && r.tasks[|st.tasks|] == Task(PwmFrame(serial, power), RESEND_PERIOD, 0)
      && LiveFor(r, serial) == {|st.tasks|}
      && r.sent == st.sent
      && r.firstCupIdx == st.firstCupIdx
      && (serial in st.resendTasks ==>
            && r.tasks[st.resendTasks[serial]].stops == 1
            && forall s :: s in r.resendTasks ==> r.resendTasks[s] != st.resendTasks[serial])
  {
    var r := SetMotorPowerSpec(st, serial, power);
    SetMotorPowerKeepsInv(st, serial, power);
    LiveForIsRegistered(r, serial);
    if serial in st.resendTasks {
      assert !r.tasks[st.resendTasks[serial]].Live();
    }
  }

  /**
   * Zero power: the old handle, if any, is stopped exactly once and
   * dropped; exactly one zero-PWM frame is sent; no periodic send starts,
   * so no live send drives `serial` any more.
   */
  lemma SetMotorPowerZero(st: State, serial: int)
    requires Inv(st) && 0 <= serial < 64
    ensures var r := SetMotorPowerSpec(st, serial, 0);
      && r.resendTasks.Keys == st.resendTasks.Keys - {serial}
      && r.sent == st.sent + [PwmFrame(serial, 0)]
      && |r.tasks| == |st.tasks|
      && LiveFor(r, serial) == {}
      && r.firstCupIdx == st.firstCupIdx
      && (serial in st.resendTasks ==> r.tasks[st.resendTasks[serial]].stops == 1)
  {
    var r := SetMotorPowerSpec(st, serial, 0);
    SetMotorPowerKeepsInv(st, serial, 0);
    LiveForIsRegistered(r, serial);
  }

  /** set_motor_power leaves every other motor's entry and task as it was. */
  lemma SetMotorPowerOthersUnchanged(st: State, serial: int, power: int, other: int)
    requires Inv(st) && 0 <= serial < 64 && other != serial
    ensures var r := SetMotorPowerSpec(st, serial, power);
      && (other in r.resendTasks <==> other in st.resendTasks)
      && (other in st.resendTasks ==>
            && r.resendTasks[other] == st.resendTasks[other]
            && r.tasks[r.resendTasks[other]] == st.tasks[st.resendTasks[other]])
  {
    if other in st.resendTasks && serial in st.resendTasks {
      CanIdInjective(MOTOR_GROUP, other, MOTOR_GROUP, serial);
      assert st.resendTasks[other] != st.resendTasks[serial];
    }
  }

  /**
   * Replacing one nonzero power by another (or by the same one): one live
   * send remains for `serial`, the new one, and the first was stopped
   * exactly once.
   */
  lemma ReplaceLaw(st: State, serial: int, p1: int, p2: int)
    requires Inv(st) && 0 <= serial < 64 && p1 != 0 && p2 != 0
    ensures Inv(SetMotorPowerSpec(st, serial, p1))
    ensures var r := SetMotorPowerSpec(SetMotorPowerSpec(st, serial, p1), serial, p2);
      && |r.tasks| == |st.tasks| + 2
      && LiveFor(r, serial) == {|st.tasks| + 1}
      && r.tasks[|st.tasks|].stops == 1
      && r.tasks[|st.tasks| + 1] == Task(PwmFrame(serial, p2), RESEND_PERIOD, 0)
      && r.sent == st.sent
  {
    var m := SetMotorPowerSpec(st, serial, p1);
    SetMotorPowerNonzero(st, serial, p1);
    SetMotorPowerKeepsInv(st, serial, p1);
    SetMotorPowerNonzero(m, serial, p2);
  }

  /** Zero after a nonzero power: nothing drives `serial`, and one zero frame went out. */
  lemma ZeroAfterNonzero(st: State, serial: int, p: int)
    requires Inv(st) && 0 <= serial < 64 && p != 0
    ensures Inv(SetMotorPowerSpec(st, serial, p))
    ensures var r := SetMotorPowerSpec(SetMotorPowerSpec(st, serial, p), serial, 0);
      && serial !in r.resendTasks
      && LiveFor(r, serial) == {}
      && r.tasks[|st.tasks|] == Task(PwmFrame(serial, p), RESEND_PERIOD, 1)
      && r.sent == st.sent + [PwmFrame(serial, 0)]
  {
    var m := SetMotorPowerSpec(st, serial, p);
    SetMotorPowerNonzero(st, serial, p);
    SetMotorPowerKeepsInv(st, serial, p);
    SetMotorPowerZero(m, serial);
  }

  /** "right" and "left" move the cup by one slot, wrapping, and send one move frame. */
  lemma CarouselKeys(st: State, key: string)
    requires Inv(st) && (key == "right" || key == "left")
    ensures var r := KeyPressedSpec(st, key);
      && ValidSlot(r.firstCupIdx)
      && (key == "right" ==> r.firstCupIdx == if st.firstCupIdx == N_SLOTS - 1 then 0 else st.firstCupIdx + 1)
      && (key == "left" ==> r.firstCupIdx == if st.firstCupIdx == 0 then N_SLOTS - 1 else st.firstCupIdx - 1)
      && r.sent == st.sent + [MoveFrame(r.firstCupIdx)]
      && r.tasks == st.tasks && r.resendTasks == st.resendTasks
  {
  }

  /** "right" then "left" restores the cup index; two move frames went out. */
  lemma RightThenLeft(st: State)
    requires Inv(st)
    ensures Inv(KeyPressedSpec(st, "right"))
    ensures KeyPressedSpec(KeyPressedSpec(st, "right"), "left")
      == st.(sent := st.sent + [MoveFrame(NextSlot(st.firstCupIdx)), MoveFrame(st.firstCupIdx)])
  {
    KeyPressedKeepsInv(st, "right");
  }

  /** "left" then "right" restores the cup index; two move frames went out. */
  lemma LeftThenRight(st: State)
    requires Inv(st)
    ensures Inv(KeyPressedSpec(st, "left"))
    ensures KeyPressedSpec(KeyPressedSpec(st, "left"), "right")
      == st.(sent := st.sent + [MoveFrame(PrevSlot(st.firstCupIdx)), MoveFrame(st.firstCupIdx)])
  {
    KeyPressedKeepsInv(st, "left");
  }

  /**
   * A release never moves the cup; "up"/"down" and "w"/"s" zero their motor
   * and leave no live send for it; any other key changes nothing.
   */
  lemma KeyReleasedLaws(st: State, key: string)
    requires Inv(st)
    ensures var r := KeyReleasedSpec(st, key);
      && r.firstCupIdx == st.firstCupIdx
      && ((key == "up" || key == "down") ==>
            && DRILL_ARM_SERIAL !in r.resendTasks
            && LiveFor(r, DRILL_ARM_SERIAL) == {}
            && r.sent == st.sent + [PwmFrame(DRILL_ARM_SERIAL, 0)])
      && ((key == "w" || key == "s") ==>
            && DRILL_SERIAL !in r.resendTasks
            && LiveFor(r, DRILL_SERIAL) == {}
            && r.sent == st.sent + [PwmFrame(DRILL_SERIAL, 0)])
      && (key !in {"up", "down", "w", "s"} ==> r == st)
  {
    if key == "up" || key == "down" {
      SetMotorPowerZero(st, DRILL_ARM_SERIAL);
    } else if key == "w" || key == "s" {
      SetMotorPowerZero(st, DRILL_SERIAL);
    }
  }

  /**
   * Pressing then releasing "w": the drill's periodic send at full power was
   * started and stopped once, one zero frame went out, and nothing drives
   * the drill afterwards.
   */
  lemma PressReleaseDrill(st: State)
    requires Inv(st)
    ensures Inv(KeyPressedSpec(st, "w"))
    ensures var r := KeyReleasedSpec(KeyPressedSpec(st, "w"), "w");
      && DRILL_SERIAL !in r.resendTasks
      && LiveFor(r, DRILL_SERIAL) == {}
      && r.tasks[|st.tasks|] == Task(PwmFrame(DRILL_SERIAL, DRILL_POWER), RESEND_PERIOD, 1)
      && r.sent == st.sent + [PwmFrame(DRILL_SERIAL, 0)]
      && r.firstCupIdx == st.firstCupIdx
  {
    ZeroAfterNonzero(st, DRILL_SERIAL, DRILL_POWER);
  }

  /** The payload bytes of the powers the keys command, and of zero. */
  lemma KeyPowerPayloads()
    ensures PwmPayload(DRILL_ARM_POWER) == [0x3, 0x40, 0x00]
    ensures PwmPayload(-DRILL_ARM_POWER) == [0x3, 0xC0, 0x00]
    ensures PwmPayload(DRILL_POWER) == [0x3, 0x7F, 0xFF]
    ensures PwmPayload(-DRILL_POWER) == [0x3, 0x80, 0x01]
    ensures PwmPayload(0) == [0x3, 0x00, 0x00]
  {
  }

  /** Only the drill arm and the drill are ever registered in a session. */
  lemma {:induction false} SessionRegistersOnlyMotors(slot: int, events: seq<KeyEvent>)
    requires ValidSlot(slot)
    ensures Replay(StartState(slot), events).resendTasks.Keys <= {DRILL_ARM_SERIAL, DRILL_SERIAL}
    decreases |events|
  {
    if events != [] {
      var prefix := events[..|events| - 1];
      SessionRegistersOnlyMotors(slot, prefix);
    }
  }

  /** Throughout a session, at most one periodic send drives any motor. */
  lemma SessionAtMostOneLive(slot: int, events: seq<KeyEvent>, serial: int)
    requires ValidSlot(slot) && 0 <= serial < 64
    ensures |LiveFor(Replay(StartState(slot), events), serial)| <= 1
    ensures serial != DRILL_ARM_SERIAL && serial != DRILL_SERIAL ==>
      LiveFor(Replay(StartState(slot), events), serial) == {}
  {
    var r := Replay(StartState(slot), events);
    LiveForIsRegistered(r, serial);
    SessionRegistersOnlyMotors(slot, events);
  }

  /** The calibration result is the first answer that is a slot, and none is a slot when it is None. */
  lemma {:induction false} FirstAcceptedIsFirst(answers: seq<Option<int>>)
    ensures FirstAccepted(answers).None? ==> forall i :: 0 <= i < |answers| ==> !Accepts(answers[i])
    ensures FirstAccepted(answers).Some? ==>
      exists i :: 0 <= i < |answers| && answers[i] == FirstAccepted(answers) && Accepts(answers[i])
        && forall j :: 0 <= j < i ==> !Accepts(answers[j])
  {
    if answers != [] && !Accepts(answers[0]) {
      var rest := answers[1..];
      FirstAcceptedIsFirst(rest);
      if FirstAccepted(rest).Some? {
        var i :| 0 <= i < |rest| && rest[i] == FirstAccepted(rest) && Accepts(rest[i])
          && forall j :: 0 <= j < i ==> !Accepts(rest[j]);
        assert answers[i + 1] == rest[i];
        assert forall j :: 0 <= j < i + 1 ==> !Accepts(answers[j]) by {
          forall j | 0 <= j < i + 1
            ensures !Accepts(answers[j])
          {
            if j > 0 {
              assert answers[j] == rest[j - 1];
            }
          }
        }
      } else {
        forall i | 0 <= i < |answers|
          ensures !Accepts(answers[i])
        {
          if i > 0 {
            assert answers[i] == rest[i - 1];
          }
        }
      }
    }
  }

  /** Text that is not a number and 12 are rejected; 5 is accepted. */
  lemma CalibrationExample()
    ensures FirstAccepted([None, Some(N_SLOTS), Some(5)]) == Some(5)
    ensures FirstAccepted([None, Some(-1), Some(N_SLOTS)]) == None
  {
    var accepted: seq<Option<int>> := [None, Some(N_SLOTS), Some(5)];
    assert accepted[1..][1..] == [Some(5)];
    assert FirstAccepted(accepted[1..][1..]) == Some(5);
    assert FirstAccepted(accepted[1..]) == Some(5);
    var rejected: seq<Option<int>> := [None, Some(-1), Some(N_SLOTS)];
    assert rejected[1..][1..][1..] == [];
  }
}
