# RobotArm button controller in Dafny

This project models the control logic of the RobotArm Arduino sketch. The
sketch reads four pull-up push buttons on pins A1, A0, A2 and A3. Pressing a
button pulls its pin LOW. The buttons drive two channels of an Adafruit motor
shield: A1/A0 run the boom FORWARD/BACKWARD and A2/A3 run the rotator
FORWARD/BACKWARD. Every call of `loop` runs `checkButton` once per button.
`checkButton` turns the reading into a logical state (`!digitalRead`). It
compares that state with the button's stored flag (`joy*LastState`). When the
state has changed, it issues one motor command: `run(direction)` on a press,
`run(RELEASE)` on a release. It then stores the new state. `setup` sets the
boom and rotator speeds to 255.

Everything is in `robot_arm.dfy`, module `RobotArm`. The model has two layers:

- The specification. `ArmState` holds the four flags and a log of every
  `motor.run` call issued so far. `Check` models one `checkButton` call,
  `Poll` one `loop` call, and `Repeat` a sequence of `loop` calls. The lemmas
  about them cover edge detection and idempotence, silence while no button is
  pressed, flags that stay 0 or 1, non-interference between the two motors,
  and the invariant `Tracked`. `Tracked` says that a motor whose last command
  was a run in some direction has the button wired to that direction still
  held.
- The sketch's state. Class `Arm` has the four global flags, the command log
  and a speed map as mutable fields. Its constructor, `Setup`, `CheckButton`
  and `Loop` are proved against `Check` and `Poll`. `Loop` also keeps the
  object invariant `Valid()`, which combines `Binary` flags and `Tracked`.

How the hardware is abstracted:

- A `digitalRead` result is an `int` parameter. The model uses a `Levels`
  value for the four pins of one poll.
- A `motor.run(c)` call is an `Event` appended to the log.
- `setSpeed` stores a number in the `speed` map.
- C's `!` is modelled exactly: the result is 1 when the reading is 0 (LOW) and
  0 for every other value.
- `checkButton` receives the flag through a reference (`int &stateVariable`).
  In the model, a `Button` value selects which of the four flags is read and
  written.

A LOW reading means pressed. Raw levels LOW, HIGH, LOW on A1 (the other pins
HIGH) therefore make the code issue FORWARD, RELEASE and FORWARD on the boom.
A press, a hold and a release are the levels LOW, LOW, HIGH. They issue
FORWARD, then nothing, then RELEASE, as `StickForwardPressHoldRelease` states.

The flag invariant "a motor is never left running while its flag is inactive"
holds: see `RunningMotorHasHeldButton`. The converse does not hold. If both
boom buttons are held and one is released, the boom receives RELEASE even
though the other button is still pressed (`ReleaseStopsMotorWhileOtherHeld`).

## Model

| member | source | states |
|---|---|---|
| `RobotArm.Pressed` | cmake-build-debug/RobotArm_RobotArm.ino.cpp:68 | the logical button state `!digitalRead(pin)` is 0 or 1, and is 1 exactly when the pin reads LOW (pull-up wiring) |
| `RobotArm.WithFlag` | cmake-build-debug/RobotArm_RobotArm.ino.cpp:80 | writing a flag through the reference sets that button's flag and leaves the other three unchanged |
| `RobotArm.Commands` | cmake-build-debug/RobotArm_RobotArm.ino.cpp:69-78 | one button check issues at most one command. It issues none exactly when the logical state equals the stored flag. On a change it issues `run(direction)` if the pin reads LOW and `run(RELEASE)` otherwise |
| `RobotArm.Check` | cmake-build-debug/RobotArm_RobotArm.ino.cpp:66-82 | after `checkButton` the flag equals the logical state just read and no other flag changed. With an unchanged input the state stays exactly the same. The log is append-only and grows by that edge's commands |
| `RobotArm.Poll` | cmake-build-debug/RobotArm_RobotArm.ino.cpp:84-89 | after `loop` every flag equals its pin's new logical state and all flags are 0 or 1. The commands issued are the four buttons' edge commands computed from the flags held before the call, in the order A1, A0, A2, A3 |
| `RobotArm.WiringInjective` | cmake-build-debug/RobotArm_RobotArm.ino.cpp:86-89 | no two buttons are wired to the same (motor, direction) pair |
| `RobotArm.Repeat` | cmake-build-debug/RobotArm_RobotArm.ino.cpp:84-91 | a sequence of `loop` calls only appends to the log and keeps flags 0/1. After at least one call, every flag equals the logical state of the last reading |
| `RobotArm.PollIdempotent` | cmake-build-debug/RobotArm_RobotArm.ino.cpp:68-81 | polling the same levels a second time issues no command and leaves the state unchanged |
| `RobotArm.PollUnchanged` | cmake-build-debug/RobotArm_RobotArm.ino.cpp:68-69 | a `loop` call whose four logical states all equal the stored flags changes nothing |
| `RobotArm.IdleStaysIdle` | cmake-build-debug/RobotArm_RobotArm.ino.cpp:68-69 | with all flags 0 and no pin reading LOW, any number of `loop` calls leaves the state, log included, unchanged |
| `RobotArm.UnpressedIssuesNothing` | cmake-build-debug/RobotArm_RobotArm.ino.cpp:54-89 | from the initial flags, any number of `loop` calls with no button pressed produces an empty command log |
| `RobotArm.FlagsStayBinary` | cmake-build-debug/RobotArm_RobotArm.ino.cpp:54-80 | from the initial flags, every flag stays in {0, 1} after any number of `loop` calls |
| `RobotArm.BoomCommands` | cmake-build-debug/RobotArm_RobotArm.ino.cpp:86-87 | the boom receives exactly the A1 (FORWARD) and A0 (BACKWARD) edge commands of a `loop` call, in that order |
| `RobotArm.RotatorCommands` | cmake-build-debug/RobotArm_RobotArm.ino.cpp:88-89 | the rotator receives exactly the A2 (FORWARD) and A3 (BACKWARD) edge commands of a `loop` call, in that order |
| `RobotArm.IdleMotorsUntouched` | cmake-build-debug/RobotArm_RobotArm.ino.cpp:86-89 | the stick and grip motors never receive a command from `loop` |
| `RobotArm.BoomIgnoresRotation` | cmake-build-debug/RobotArm_RobotArm.ino.cpp:86-89 | the boom's commands depend only on pins A1/A0 and their flags. Two calls that agree on those send the boom the same commands, whatever the rotation pins do |
| `RobotArm.RotatorIgnoresBoom` | cmake-build-debug/RobotArm_RobotArm.ino.cpp:86-89 | the rotator's commands depend only on pins A2/A3 and their flags |
| `RobotArm.StepKeepsTracked` | cmake-build-debug/RobotArm_RobotArm.ino.cpp:71-80 | one wired button check preserves `Tracked` |
| `RobotArm.PollKeepsTracked` | cmake-build-debug/RobotArm_RobotArm.ino.cpp:84-89 | one `loop` call preserves `Tracked` |
| `RobotArm.RepeatKeepsTracked` | cmake-build-debug/RobotArm_RobotArm.ino.cpp:84-91 | any sequence of `loop` calls preserves `Tracked` |
| `RobotArm.RunningMotorHasHeldButton` | cmake-build-debug/RobotArm_RobotArm.ino.cpp:71-89 | after any sequence of `loop` calls from power-on, suppose a motor's last command is `run(d)` with d not RELEASE. Then the button wired to that motor and d has flag 1 |
| `RobotArm.StickForwardPressHoldRelease` | cmake-build-debug/RobotArm_RobotArm.ino.cpp:84-89 | A1 pressed for two polls and then released gives `run(boom, FORWARD)`, then nothing, then `run(boom, RELEASE)`. The rotator receives nothing |
| `RobotArm.ReleaseStopsMotorWhileOtherHeld` | cmake-build-debug/RobotArm_RobotArm.ino.cpp:86-87 | both boom buttons held and then A1 released gives FORWARD, BACKWARD, RELEASE. The boom ends released while A0's flag is still 1 |
| `RobotArm.Arm.constructor` | cmake-build-debug/RobotArm_RobotArm.ino.cpp:54-57 | program start: all four flags are 0, no command has been issued and the invariant holds |
| `RobotArm.Arm.Setup` | cmake-build-debug/RobotArm_RobotArm.ino.cpp:37-40 | `setup` sets the boom and rotator speeds to 255 and leaves the flags and the log unchanged |
| `RobotArm.Arm.CheckButton` | cmake-build-debug/RobotArm_RobotArm.ino.cpp:66-82 | the in-place `checkButton` changes the flags and the log exactly as `Check` says and leaves the speeds alone |
| `RobotArm.Arm.Loop` | cmake-build-debug/RobotArm_RobotArm.ino.cpp:84-91 | the in-place `loop` changes the flags and the log exactly as `Poll` says and preserves `Valid()`, which is binary flags plus `Tracked` |

## Left out

- `Serial.begin(115200)` and the four `pinMode(..., INPUT_PULLUP)` calls in `setup`: hardware setup with no logic. The pull-up appears only as the inversion in `Pressed`.
- `delay(50)` in `loop`: wall-clock time cannot be expressed here. Each `loop` call is one abstract poll, and `Repeat` stands for the Arduino runtime calling `loop` again and again.
- The AFMotor library (`AF_DCMotor` construction, the PWM frequency constants, what `run` and `setSpeed` do to the hardware): its source is not part of this model. Commands are logged events and speeds are stored numbers. Any speed the library sets by default is not modelled: `speed` holds only what the sketch sets.
- The BRAKE command and other values of the `uint8_t direction` parameter: the sketch never passes them, so `Command` has only FORWARD, BACKWARD and RELEASE.
- The board-specific pin numbers of A0–A3: each button is identified by a `Button` value.
- `ArmCommunication.hpp`: it is included but not used, and it is not part of this model.
- The by-value copy of `AF_DCMotor` in `checkButton`'s signature: only the motor's identity matters here.
- Width of C `int`: the flags only ever hold 0 or 1, so overflow cannot occur and `int` is unbounded in the model.
