/*
 * The RobotArm Arduino sketch: four pull-up push buttons drive the boom and
 * the rotator of a motor-shield arm. Each call of `loop` polls the buttons
 * once and, for every button whose logical state changed since the previous
 * poll, issues one motor command.
 *
 * The motor shield is abstracted: a `motor.run(c)` call is an Event appended
 * to a command log, and `setSpeed` stores a number per motor. A pin read
 * (`digitalRead`) is a parameter holding the raw level.
 */
module RobotArm {

  /** The four motor channels of the shield. */
  datatype Motor = Stick | Boom | Rotator | Grip

  /** The run commands the sketch issues (FORWARD, BACKWARD, RELEASE). */
  datatype Command = Forward | Backward | Release

  /** One call `motor.run(command)`. */
  datatype Event = Run(motor: Motor, command: Command)

  datatype Option<T> = None | Some(value: T)

  /**
   * The four monitored buttons:
   * StickForward on pin A1, StickBackward on A0,
   * RotationLeft on A2, RotationRight on A3.
   */
  datatype Button = StickForward | StickBackward | RotationLeft | RotationRight

  /** The raw `digitalRead` results of pins A1, A0, A2 and A3 in one poll. */
  datatype Levels = Levels(a1: int, a0: int, a2: int, a3: int)

  /**
   * The stored logical states joySFLastState, joySBLastState,
   * joyRLLastState and joyRRLastState.
   */
  datatype Flags = Flags(sf: int, sb: int, rl: int, rr: int)

  /** What the sketch remembers and what it has done: the flags and every run command so far. */
  datatype ArmState = ArmState(flags: Flags, log: seq<Event>)

  const LOW: int := 0
  const HIGH: int := 1
  const FULL_SPEED: int := 255

  /** All flags start at 0 and no command has been issued. */
  const INITIAL: ArmState := ArmState(Flags(0, 0, 0, 0), [])

  function LevelOf(lv: Levels, b: Button): int {
    match b
    case StickForward => lv.a1
    case StickBackward => lv.a0
    case RotationLeft => lv.a2
    case RotationRight => lv.a3
  }

  function FlagOf(f: Flags, b: Button): int {
    match b
    case StickForward => f.sf
    case StickBackward => f.sb
    case RotationLeft => f.rl
    case RotationRight => f.rr
  }

  /** Writing the flag of one button, as `stateVariable = ...` does through its reference. */
  function WithFlag(f: Flags, b: Button, v: int): (r: Flags)
    ensures FlagOf(r, b) == v
    ensures forall o :: o != b ==> FlagOf(r, o) == FlagOf(f, o)
  {
    match b
    case StickForward => f.(sf := v)
    case StickBackward => f.(sb := v)
    case RotationLeft => f.(rl := v)
    case RotationRight => f.(rr := v)
  }

  /** The motor `loop` hands to checkButton together with each button. */
  function MotorOf(b: Button): Motor {
    match b
    case StickForward => Boom
    case StickBackward => Boom
    case RotationLeft => Rotator
    case RotationRight => Rotator
  }

  /** The direction `loop` hands to checkButton together with each button. */
  function DirectionOf(b: Button): Command {
    match b
    case StickForward => Forward
    case StickBackward => Backward
    case RotationLeft => Forward
    case RotationRight => Backward
  }

  /** The wiring of `loop` gives each (motor, direction) pair to one button at most. */
  lemma WiringInjective(b: Button, o: Button)
    requires MotorOf(b) == MotorOf(o) && DirectionOf(b) == DirectionOf(o)
    ensures b == o
  {
  }

  predicate Binary(f: Flags) {
    forall b :: FlagOf(f, b) == 0 || FlagOf(f, b) == 1
  }

  /**
   * The logical state of a pull-up input, `!digitalRead(pin)`: 1 (pressed)
   * exactly when the pin reads LOW, 0 for any other reading.
   */
  function Pressed(level: int): (v: int)
    ensures v == 0 || v == 1
    ensures v == 1 <==> level == LOW
  {
    if level == LOW then 1 else 0
  }

  /**
   * The run commands one checkButton call issues, given the stored flag and
   * the raw level: none when the logical state is unchanged, otherwise one,
   * `direction` on a press and RELEASE on a release.
   */
  function Commands(flag: int, level: int, motor: Motor, direction: Command): (r: seq<Event>)
    ensures |r| <= 1
    ensures r == [] <==> Pressed(level) == flag
    ensures Pressed(level) != flag && level == LOW ==> r == [Run(motor, direction)]
    ensures Pressed(level) != flag && level != LOW ==> r == [Run(motor, Release)]
  {
    var current := Pressed(level);
    if current == flag then []
    else if current == 1 then [Run(motor, direction)]
    else [Run(motor, Release)]
  }

  /**
   * checkButton on the flag of button `b`: after it the flag holds the
   * logical state just read, the other flags are untouched, and the log has
   * grown by exactly the commands of this edge.
   */
  function Check(s: ArmState, b: Button, level: int, motor: Motor, direction: Command): (r: ArmState)
    ensures FlagOf(r.flags, b) == Pressed(level)
    ensures forall o :: o != b ==> FlagOf(r.flags, o) == FlagOf(s.flags, o)
    ensures Pressed(level) == FlagOf(s.flags, b) ==> r == s
    ensures r.log == s.log + Commands(FlagOf(s.flags, b), level, motor, direction)
  {
    var current := Pressed(level);
    if current == FlagOf(s.flags, b) then s
    else ArmState(WithFlag(s.flags, b, current), s.log + Commands(FlagOf(s.flags, b), level, motor, direction))
  }

  /** One checkButton call of `loop` with the motor and direction it is wired to. */
  function Step(s: ArmState, lv: Levels, b: Button): ArmState {
    Check(s, b, LevelOf(lv, b), MotorOf(b), DirectionOf(b))
  }

  /**
   * The commands one call of `loop` issues: each button's edge commands,
   * computed from the flags held before the call, in polling order.
   */
  function Issued(f: Flags, lv: Levels): seq<Event> {
    Commands(f.sf, lv.a1, Boom, Forward)
    + Commands(f.sb, lv.a0, Boom, Backward)
    + Commands(f.rl, lv.a2, Rotator, Forward)
    + Commands(f.rr, lv.a3, Rotator, Backward)
  }

  /**
   * One call of `loop`. Every flag ends up holding its button's new logical
   * state, and the commands issued are those of the four buttons' edges
   * computed from the OLD flags, in polling order: no check sees another
   * button's update.
   */
  function Poll(s: ArmState, lv: Levels): (r: ArmState)
    ensures forall b :: FlagOf(r.flags, b) == Pressed(LevelOf(lv, b))
    ensures Binary(r.flags)
    ensures r.log == s.log + Issued(s.flags, lv)
  {
    var s1 := Step(s, lv, StickForward);
    var s2 := Step(s1, lv, StickBackward);
    var s3 := Step(s2, lv, RotationLeft);
    Step(s3, lv, RotationRight)
  }

  /** Successive calls of `loop`, one per element of `polls`. */
  function Repeat(s: ArmState, polls: seq<Levels>): (r: ArmState)
    ensures s.log <= r.log
    ensures Binary(s.flags) ==> Binary(r.flags)
    ensures polls != [] ==> forall b :: FlagOf(r.flags, b) == Pressed(LevelOf(polls[|polls| - 1], b))
    decreases |polls|
  {
    if polls == [] then s
    else
      var t := Poll(s, polls[0]);
      assert s.log <= t.log;
      Repeat(t, polls[1..])
  }

  // ---------------------------------------------------------------------
  // Edge detection: idempotence and silence
  // ---------------------------------------------------------------------

  /** Polling the same levels twice: the second call issues nothing and changes nothing. */
  lemma PollIdempotent(s: ArmState, lv: Levels)
    ensures Poll(Poll(s, lv), lv) == Poll(s, lv)
    ensures Issued(Poll(s, lv).flags, lv) == []
  {
  }

  /** A loop call whose readings all equal the stored flags leaves the state as it is. */
  lemma PollUnchanged(s: ArmState, lv: Levels)
    requires forall b :: Pressed(LevelOf(lv, b)) == FlagOf(s.flags, b)
    ensures Poll(s, lv) == s
  {
  }

  /**
   * With every flag at 0 and every pin reading anything but LOW (no button
   * pressed), any number of loop calls issues no command and changes nothing.
   */
  lemma {:induction false} IdleStaysIdle(s: ArmState, polls: seq<Levels>)
    requires forall b :: FlagOf(s.flags, b) == 0
    requires forall i, b | 0 <= i < |polls| :: LevelOf(polls[i], b) != LOW
    ensures Repeat(s, polls) == s
    decreases |polls|
  {
    if polls != [] {
      forall b
        ensures Pressed(LevelOf(polls[0], b)) == FlagOf(s.flags, b)
      {
        assert LevelOf(polls[0], b) != LOW;
      }
      PollUnchanged(s, polls[0]);
      IdleStaysIdle(s, polls[1..]);
    }
  }

  /** From power-on, loop calls with no button ever pressed issue no command at all. */
  lemma {:induction false} UnpressedIssuesNothing(polls: seq<Levels>)
    requires forall i, b | 0 <= i < |polls| :: LevelOf(polls[i], b) != LOW
    ensures Repeat(INITIAL, polls).log == []
  {
    IdleStaysIdle(INITIAL, polls);
  }

  /** From power-on every flag is 0 or 1 after any number of loop calls. */
  lemma FlagsStayBinary(polls: seq<Levels>)
    ensures Binary(Repeat(INITIAL, polls).flags)
  {
  }

  // ---------------------------------------------------------------------
  // Non-interference between the two motors
  // ---------------------------------------------------------------------

  /** The events of `log` addressed to motor `m`, in order. */
  function Only(m: Motor, log: seq<Event>): (r: seq<Event>)
    ensures |r| <= |log|
    ensures forall e | e in r :: e.motor == m && e in log
  {
    if log == [] then []
    else (if log[0].motor == m then [log[0]] else []) + Only(m, log[1..])
  }

  lemma {:induction false} OnlyAppend(m: Motor, a: seq<Event>, b: seq<Event>)
    ensures Only(m, a + b) == Only(m, a) + Only(m, b)
    decreases |a|
  {
    if a == [] {
      assert a + b == b;
    } else {
      assert (a + b)[0] == a[0];
      assert (a + b)[1..] == a[1..] + b;
      OnlyAppend(m, a[1..], b);
    }
  }

  /** Commands for motor `motor` contain nothing for any other motor. */
  lemma OnlyOther(m: Motor, flag: int, level: int, motor: Motor, direction: Command)
    requires m != motor
    ensures Only(m, Commands(flag, level, motor, direction)) == []
  {
  }

  /** Commands for motor `motor` are kept whole by the filter for `motor`. */
  lemma OnlySame(flag: int, level: int, motor: Motor, direction: Command)
    ensures Only(motor, Commands(flag, level, motor, direction)) == Commands(flag, level, motor, direction)
  {
  }

  lemma {:induction false} OnlyOfFour(m: Motor, c1: seq<Event>, c2: seq<Event>, c3: seq<Event>, c4: seq<Event>)
    ensures Only(m, c1 + c2 + c3 + c4) == Only(m, c1) + Only(m, c2) + Only(m, c3) + Only(m, c4)
  {
    OnlyAppend(m, c1 + c2 + c3, c4);
    OnlyAppend(m, c1 + c2, c3);
    OnlyAppend(m, c1, c2);
  }

  /** One loop call sends the boom exactly the commands of pins A1 and A0, in that order. */
  lemma {:induction false} BoomCommands(f: Flags, lv: Levels)
    ensures Only(Boom, Issued(f, lv)) == Commands(f.sf, lv.a1, Boom, Forward)
                                       + Commands(f.sb, lv.a0, Boom, Backward)
  {
    var c1 := Commands(f.sf, lv.a1, Boom, Forward);
    var c2 := Commands(f.sb, lv.a0, Boom, Backward);
    var c3 := Commands(f.rl, lv.a2, Rotator, Forward);
    var c4 := Commands(f.rr, lv.a3, Rotator, Backward);
    OnlyOfFour(Boom, c1, c2, c3, c4);
    OnlySame(f.sf, lv.a1, Boom, Forward);
    OnlySame(f.sb, lv.a0, Boom, Backward);
    OnlyOther(Boom, f.rl, lv.a2, Rotator, Forward);
    OnlyOther(Boom, f.rr, lv.a3, Rotator, Backward);
  }

  /** One loop call sends the rotator exactly the commands of pins A2 and A3, in that order. */
  lemma {:induction false} RotatorCommands(f: Flags, lv: Levels)
    ensures Only(Rotator, Issued(f, lv)) == Commands(f.rl, lv.a2, Rotator, Forward)
                                          + Commands(f.rr, lv.a3, Rotator, Backward)
  {
    var c1 := Commands(f.sf, lv.a1, Boom, Forward);
    var c2 := Commands(f.sb, lv.a0, Boom, Backward);
    var c3 := Commands(f.rl, lv.a2, Rotator, Forward);
    var c4 := Commands(f.rr, lv.a3, Rotator, Backward);
    OnlyOfFour(Rotator, c1, c2, c3, c4);
    OnlyOther(Rotator, f.sf, lv.a1, Boom, Forward);
    OnlyOther(Rotator, f.sb, lv.a0, Boom, Backward);
    OnlySame(f.rl, lv.a2, Rotator, Forward);
    OnlySame(f.rr, lv.a3, Rotator, Backward);
  }

  /** The stick and the grip never receive a command from a loop call. */
  lemma {:induction false} IdleMotorsUntouched(f: Flags, lv: Levels, m: Motor)
    requires m == Stick || m == Grip
    ensures Only(m, Issued(f, lv)) == []
  {
    var c1 := Commands(f.sf, lv.a1, Boom, Forward);
    var c2 := Commands(f.sb, lv.a0, Boom, Backward);
    var c3 := Commands(f.rl, lv.a2, Rotator, Forward);
    var c4 := Commands(f.rr, lv.a3, Rotator, Backward);
    OnlyOfFour(m, c1, c2, c3, c4);
    OnlyOther(m, f.sf, lv.a1, Boom, Forward);
    OnlyOther(m, f.sb, lv.a0, Boom, Backward);
    OnlyOther(m, f.rl, lv.a2, Rotator, Forward);
    OnlyOther(m, f.rr, lv.a3, Rotator, Backward);
  }

  /** What the boom is told depends only on pins A1, A0 and their flags. */
  lemma BoomIgnoresRotation(f: Flags, g: Flags, lv: Levels, lw: Levels)
    requires f.sf == g.sf && f.sb == g.sb
    requires lv.a1 == lw.a1 && lv.a0 == lw.a0
    ensures Only(Boom, Issued(f, lv)) == Only(Boom, Issued(g, lw))
  {
    BoomCommands(f, lv);
    BoomCommands(g, lw);
  }

  /** What the rotator is told depends only on pins A2, A3 and their flags. */
  lemma RotatorIgnoresBoom(f: Flags, g: Flags, lv: Levels, lw: Levels)
    requires f.rl == g.rl && f.rr == g.rr
    requires lv.a2 == lw.a2 && lv.a3 == lw.a3
    ensures Only(Rotator, Issued(f, lv)) == Only(Rotator, Issued(g, lw))
  {
    RotatorCommands(f, lv);
    RotatorCommands(g, lw);
  }

  // ---------------------------------------------------------------------
  // A motor runs only while the button that started it is held
  // ---------------------------------------------------------------------

  /**
   * The command motor `m` received last: None when the log holds none for
   * it; otherwise an entry of the log after which `m` received nothing.
   */
  function LastCommand(log: seq<Event>, m: Motor): (r: Option<Command>)
    ensures r == None <==> forall i | 0 <= i < |log| :: log[i].motor != m
    ensures r.Some? ==> exists i | 0 <= i < |log| ::
                          log[i] == Run(m, r.value) && forall j | i < j < |log| :: log[j].motor != m
    decreases |log|
  {
    if log == [] then None
    else if log[|log| - 1].motor == m then Some(log[|log| - 1].command)
    else LastCommand(log[..|log| - 1], m)
  }

  lemma LastCommandSnoc(log: seq<Event>, e: Event, m: Motor)
    ensures LastCommand(log + [e], m) == if e.motor == m then Some(e.command) else LastCommand(log, m)
  {
  }

  /**
   * The invariant of the command log: the stick and the grip never received
   * a command, and when a motor's last command is a button's wired direction
   * (a run, not a release), that button's flag is 1.
   */
  ghost predicate Tracked(s: ArmState) {
    && LastCommand(s.log, Stick) == None
    && LastCommand(s.log, Grip) == None
    && forall b :: LastCommand(s.log, MotorOf(b)) == Some(DirectionOf(b)) ==> FlagOf(s.flags, b) == 1
  }

  lemma {:induction false} StepKeepsTracked(s: ArmState, lv: Levels, b: Button)
    requires Tracked(s)
    ensures Tracked(Step(s, lv, b))
  {
    var level := LevelOf(lv, b);
    var r := Check(s, b, level, MotorOf(b), DirectionOf(b));
    if Pressed(level) != FlagOf(s.flags, b) {
      var e := if level == LOW then Run(MotorOf(b), DirectionOf(b)) else Run(MotorOf(b), Release);
      assert r.log == s.log + [e];
      LastCommandSnoc(s.log, e, Stick);
      LastCommandSnoc(s.log, e, Grip);
      forall o | LastCommand(r.log, MotorOf(o)) == Some(DirectionOf(o))
        ensures FlagOf(r.flags, o) == 1
      {
        LastCommandSnoc(s.log, e, MotorOf(o));
        if MotorOf(o) == MotorOf(b) {
          assert e.command == DirectionOf(o);
          WiringInjective(b, o);
        }
      }
    }
  }

  lemma {:induction false} PollKeepsTracked(s: ArmState, lv: Levels)
    requires Tracked(s)
    ensures Tracked(Poll(s, lv))
  {
    var s1 := Step(s, lv, StickForward);
    var s2 := Step(s1, lv, StickBackward);
    var s3 := Step(s2, lv, RotationLeft);
    StepKeepsTracked(s, lv, StickForward);
    StepKeepsTracked(s1, lv, StickBackward);
    StepKeepsTracked(s2, lv, RotationLeft);
    StepKeepsTracked(s3, lv, RotationRight);
  }

  lemma {:induction false} RepeatKeepsTracked(s: ArmState, polls: seq<Levels>)
    requires Tracked(s)
    ensures Tracked(Repeat(s, polls))
    decreases |polls|
  {
    if polls != [] {
      PollKeepsTracked(s, polls[0]);
      RepeatKeepsTracked(Poll(s, polls[0]), polls[1..]);
    }
  }

  /**
   * After any sequence of loop calls from power-on: if a motor's last command
   * is a run in direction d (not a release), the button wired to that motor
   * and direction is still held (its flag is 1).
   */
  lemma {:induction false} RunningMotorHasHeldButton(polls: seq<Levels>, m: Motor, d: Command)
    requires LastCommand(Repeat(INITIAL, polls).log, m) == Some(d) && d != Release
    ensures exists b :: MotorOf(b) == m && DirectionOf(b) == d && FlagOf(Repeat(INITIAL, polls).flags, b) == 1
  {
    var r := Repeat(INITIAL, polls);
    RepeatKeepsTracked(INITIAL, polls);
    var b := match (m, d)
      case (Boom, Forward) => StickForward
      case (Boom, Backward) => StickBackward
      case (Rotator, Forward) => RotationLeft
      case (_, _) => RotationRight;
    assert m == Boom || m == Rotator;
    assert MotorOf(b) == m && DirectionOf(b) == d;
  }

  // ---------------------------------------------------------------------
  // Scenarios
  // ---------------------------------------------------------------------

  /**
   * A1 pressed for two polls and then released, the other pins idle: the
   * boom is run FORWARD on the first poll, nothing happens on the second,
   * the boom is released on the third, and the rotator is never addressed.
   */
  lemma StickForwardPressHoldRelease()
    ensures var s1 := Poll(INITIAL, Levels(LOW, HIGH, HIGH, HIGH));
            var s2 := Poll(s1, Levels(LOW, HIGH, HIGH, HIGH));
            var s3 := Poll(s2, Levels(HIGH, HIGH, HIGH, HIGH));
            && s1.log == [Run(Boom, Forward)]
            && s2.log == s1.log
            && s3.log == [Run(Boom, Forward), Run(Boom, Release)]
  {
  }

  /**
   * Both boom buttons held, then A1 released while A0 stays held: the boom
   * is released although its BACKWARD button is still pressed. A set flag
   * therefore does not imply a running motor.
   */
  lemma ReleaseStopsMotorWhileOtherHeld()
    ensures var s1 := Poll(INITIAL, Levels(LOW, LOW, HIGH, HIGH));
            var s2 := Poll(s1, Levels(HIGH, LOW, HIGH, HIGH));
            && s2.log == [Run(Boom, Forward), Run(Boom, Backward), Run(Boom, Release)]
            && s2.flags.sb == 1
            && LastCommand(s2.log, Boom) == Some(Release)
  {
  }

  // ---------------------------------------------------------------------
  // The sketch's globals and its entry points
  // ---------------------------------------------------------------------

  /** The sketch's mutable globals: the four button flags, the motor commands issued so far and the motor speeds. */
  class Arm {
    var joySFLastState: int
    var joySBLastState: int
    var joyRLLastState: int
    var joyRRLastState: int
    var log: seq<Event>
    var speed: map<Motor, int>

    function State(): ArmState
      reads this
    {
      ArmState(Flags(joySFLastState, joySBLastState, joyRLLastState, joyRRLastState), log)
    }

    ghost predicate Valid()
      reads this
    {
      Binary(State().flags) && Tracked(State())
    }

    /** Program start: the flags are initialised to 0 and no motor has been commanded or given a speed. */
    constructor ()
      ensures State() == INITIAL && speed == map[]
      ensures Valid()
    {
      joySFLastState, joySBLastState, joyRLLastState, joyRRLastState := 0, 0, 0, 0;
      log := [];
      speed := map[];
      new;
      assert Binary(State().flags) by {
        forall b ensures FlagOf(State().flags, b) == 0 {
          match b
          case StickForward =>
          case StickBackward =>
          case RotationLeft =>
          case RotationRight =>
        }
      }
    }

    /** `setup`: boom and rotator are set to full speed; flags and commands are untouched. */
    method Setup()
      modifies this
      ensures speed == old(speed)[Boom := FULL_SPEED][Rotator := FULL_SPEED]
      ensures State() == old(State())
    {
      speed := speed[Boom := FULL_SPEED];
      speed := speed[Rotator := FULL_SPEED];
    }

    /**
     * `checkButton(pin, stateVariable, motor, direction)`: `level` is the
     * pin's reading and `b` selects the flag passed by reference.
     */
    method CheckButton(b: Button, level: int, motor: Motor, direction: Command)
      modifies this
      ensures State() == Check(old(State()), b, level, motor, direction)
      ensures speed == old(speed)
    {
      var current := Pressed(level);
      var stored := FlagOf(State().flags, b);
      if current != stored {
        if current == 1 {
          log := log + [Run(motor, direction)];
        } else {
          log := log + [Run(motor, Release)];
        }
        match b
        case StickForward => joySFLastState := current;
        case StickBackward => joySBLastState := current;
        case RotationLeft => joyRLLastState := current;
        case RotationRight => joyRRLastState := current;
      }
    }

    /** `loop`: one poll of the four buttons, given the readings of pins A1, A0, A2 and A3. */
    method Loop(lv: Levels)
      requires Valid()
      modifies this
      ensures Valid()
      ensures State() == Poll(old(State()), lv)
      ensures speed == old(speed)
    {
      ghost var s := State();
      CheckButton(StickForward, lv.a1, Boom, Forward);
      CheckButton(StickBackward, lv.a0, Boom, Backward);
      CheckButton(RotationLeft, lv.a2, Rotator, Forward);
      CheckButton(RotationRight, lv.a3, Rotator, Backward);
      PollKeepsTracked(s, lv);
    }
  }
}
