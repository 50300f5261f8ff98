# Robot and platform controller: a verified Dafny model

The system is a desktop controller for a small wheeled robot and a model
traffic platform. The controller encodes movement commands as short ASCII
frames (a direction code, a signed magnitude, CR LF) and writes them to a
serial port. It also starts and kills two helper processes that drive the
platform's lamps. One of these helpers is the traffic-light run-loop, which
cycles two signal heads through four phases on six GPIO outputs.

This model covers:

- **py_text.dfy** (`PyText`) models the parts of Python's text handling that
  the controller depends on, restricted to ASCII:
  - `int(text)`: surrounding ASCII whitespace (space and `\t`..`\r`), one
    sign, digits with single underscores, and ValueError as `None`;
  - `str.isnumeric()`;
  - `str(n)`.

  These follow Python without the 4300-digit limit on integer text that
  later Python releases added: there, `int()` of longer text and `str()` of
  such an int raise ValueError.
- **protocol.dfy** (`Protocol`) covers the frame format:
  - the frame `clicked` builds;
  - the frame an arrow builds, which carries the factor text verbatim;
  - a reference decoder that every encoded frame round-trips through.
- **handlers.dfy** (`Handlers`) holds the module-level state as a value
  (`Globals`), with one function per event handler:
  - `clicked`, `key`, the four `press_*` buttons;
  - `tr_clicked`, `lg_clicked` and `update_factors`;
  - the shutdown sequence shared by the Escape branch of `key` and the
    body of `close_program`.

  Its lemmas state what each handler promises.
- **controller.dfy** (`Controller`) has the same handlers as methods of a
  class whose fields are those module-level variables. Each method is proved
  to leave the object in the state the matching `Handlers` function gives.
- **traffic_lights.dfy** (`TrafficLights`) covers the traffic-light run-loop:
  - a pure phase table (outputs and hold time per phase) and the state
    machine over it;
  - the schedule the loop produces, and proofs of its safety and timing;
  - a `Board` class that performs the loop's GPIO writes one pin at a time
    and records each sleep.

Modelling choices for the outside world:

- The pid of a spawned process is a parameter (`newPid`).
- The serial port is a log of written frames plus an open flag.
- Process spawns and kills, and the port close, are recorded as `Event`s in
  order.
- The factor files' contents are the constructor's parameters.
- The active notebook tab is a string parameter.

## Behaviour of the code worth knowing

- **Stop's magnitude.** Stop is scaled by the left/right factor, like Left
  and Right: `int(step) * int(lr_factor)` (`Protocol.StopScaledByLrFactor`).
- **The checkboxes alternate.** Tk flips a checkbox's variable before it
  calls the command, and both variables start at 0
  (SystemController.py:390-391). So from the GUI `tr_clicked` and
  `lg_clicked` see checked, unchecked, checked, ... As long as every spawn
  succeeds, the running flag is set exactly after an odd number of clicks, the recorded pid is the last
  spawn's, and every "off" finds a pid
  (`Handlers.TrafficClicksAlternate`, `Handlers.LightClicksAlternate`).
- **Handlers called out of turn.** The handlers themselves do not check
  their flags. Called out of turn, "off" kills the recorded pid again
  (`Handlers.TrafficOffTwiceKillsTwice`), "on" spawns another process and
  overwrites the pid (`Handlers.TrafficToggleSpec`), and a second shutdown
  repeats every kill and both off launches (`Handlers.ShutdownTwiceRepeats`).
  The GUI never calls them that way. The checkboxes alternate, and Escape
  ends with `window.destroy()`, which ends the main loop, so no second
  shutdown follows.
- **Phase changes are not atomic.** The traffic loop writes the six pins one
  by one. For a moment between two writes a head shows two lamps or none,
  and going from main red / side yellow to main green, main green is lit
  while the side head still shows yellow (`TrafficLights.WritesAreNotAtomic`).
  The safety of `TrafficLights.ScheduleSafe` holds during the holds only.
- **Order of the step-field checks.** `clicked` calls `int()` on the step
  text before it asks `isnumeric()`. So text `int()` refuses raises
  ValueError (`Raised`), and the message box (`Rejected`) appears only for
  text that `int()` accepts but that is not all digits, such as " 3" or "+3"
  (`Protocol.ClickFrameSpec`, `Protocol.ClickSpaceExample`).
- **SIGINT does not shut the controller down.** SystemController.py:511
  registers `close_program` for SIGINT, but `close_program` takes no
  parameters and Python calls a signal handler with two (the signal number
  and the frame). The call fails with TypeError before its first statement,
  so on SIGINT no port is closed, nothing is killed and no off script is
  launched. Only the Escape branch of `key` runs the shutdown sequence.
  `Controller.SystemController.CloseProgram` models the body of
  `close_program` as written.

## Model

| member | source | states |
|---|---|---|
| PyText.NatToString | SystemController.py:154 | `str(n)` of a natural number is canonical decimal text (digits, no superfluous leading zero) that denotes n |
| PyText.IntToString | SystemController.py:154 | `str(n)` of a negative number is a minus sign followed by the canonical, non-zero text of -n |
| PyText.StripLeading | SystemController.py:146 | the whitespace `int()` ignores at the front is removed, and what remains is a suffix of the input |
| PyText.StripTrailing | SystemController.py:146 | the whitespace `int()` ignores at the end is removed, and what remains is a prefix of the input |
| PyText.DropUnderscores | SystemController.py:146 | removing the digit-group underscores leaves digits only, and leaves all-digit text unchanged |
| PyText.DropUnderscoresCount | SystemController.py:146 | exactly the underscores are dropped: the result is as long as the input minus its number of `_` (induction) |
| PyText.IsNumeric | SystemController.py:149 | `str.isnumeric()` on ASCII text: non-empty and all digits; its link to `int()` is ParseNumeric |
| PyText.ParseInt | SystemController.py:146 | `int(text)`: strip ASCII whitespace, one optional sign, digits with single separating underscores, None for ValueError; its properties are ParseNumeric, ParseIntToString, GroupedThousand and SeparatorNotStripped |
| PyText.DropUnderscoresAppend | SystemController.py:146 | the digits of `x + y` are the digits of x followed by those of y, so only underscores are dropped and digit order is kept (induction) |
| PyText.GroupedThousand | SystemController.py:146 | `int("1_000") == 1000` |
| PyText.SeparatorNotStripped | SystemController.py:146 | `int("10\x1c")` raises ValueError: the separator 0x1C is not stripped from ASCII text |
| PyText.ParseNumeric | SystemController.py:146-149 | text that passes `isnumeric()` is accepted by `int()` with its decimal value |
| PyText.ParseIntToString | SystemController.py:146-154 | `int(str(n)) == n` for every integer (no limit on the number of digits) |
| PyText.CanonicalRoundTrip | SystemController.py:154 | `str(int(d)) == d` for canonical decimal text d (proof by induction) |
| PyText.CanonicalUnique | SystemController.py:154 | canonical text d is `str(n)` exactly when d denotes n |
| Protocol.SelectionCode | SystemController.py:131-141 | the radio selection maps to a code in "FBLRS" |
| Protocol.ClickFrame | SystemController.py:131-154 | the outcome of `clicked`: ValueError, message box or the frame `code + str(step * factor) + "\r\n"`; its properties are ClickFrameSpec and ClickBuilt |
| Protocol.ArrowFrame | SystemController.py:276-301 | the frame an arrow sends: its code, the factor text verbatim, CR LF; its properties are ArrowIsOneStepClick, ArrowDecodesIffCanonical and ArrowSendsTextVerbatim |
| Protocol.FrameRoundTrip | SystemController.py:154 | every frame `code + str(m) + "\r\n"` decodes back to (code, m) |
| Protocol.MagnitudeOnlyCanonical | SystemController.py:154 | the decoder accepts a magnitude only when it is exactly the `str` of that integer |
| Protocol.DecodeIff | SystemController.py:154 | a line decodes to (code, m) if and only if it is the encoding of (code, m) |
| Protocol.ClickFrameSpec | SystemController.py:129-156 | a frame is built iff the step text is numeric and the selected axis's factor text parses; the message-box path happens iff `int()` accepts the step text but `isnumeric()` rejects it; a built frame decodes to the selected code and step times factor |
| Protocol.StopScaledByLrFactor | SystemController.py:140-148 | Stop uses the left/right factor and not the forward/backward one, and its magnitude is non-zero when the step and the factor are non-zero |
| Protocol.ArrowIsOneStepClick | SystemController.py:276-301 | when the stored factor text is `str(n)`, an arrow sends the same frame as a one-step `clicked` in that direction |
| Protocol.ClickBuilt | SystemController.py:144-154 | for numeric step text and a factor that parses, the frame is the code followed by `str(step * factor)` and CR LF |
| Protocol.ArrowDecodesIffCanonical | SystemController.py:276-301 | an arrow frame decodes to (code, m) if and only if the stored factor text is exactly `str(m)` |
| Protocol.ArrowSendsTextVerbatim | SystemController.py:276-280 | a factor file ending in a newline gives a one-step click the bare number, but gives the arrow a frame with the newline inside, which does not decode |
| Protocol.ClickForwardExample | SystemController.py:129-156 | Forward, step "3", forward/backward factor "10" gives "F30\r\n" |
| Protocol.ClickLettersExample | SystemController.py:146 | step "abc" raises ValueError in `int()` before `isnumeric()` is reached |
| Protocol.ClickSpaceExample | SystemController.py:146-151 | step " 3" passes `int()` but fails `isnumeric()`: the message box, no frame |
| Handlers.Write | SystemController.py:156 | `serialPort.write`: appends the frame while the port is open; see ClickedSpec, PressArrowSpec and NothingSentAfterShutdown |
| Handlers.Clicked | SystemController.py:129-156 | the state after `clicked`; its properties are ClickedSpec and HandlersPreserveValid |
| Handlers.PressArrow | SystemController.py:276-301 | the state after `press_up/down/left/right`; its properties are PressArrowSpec and UpdateFactorsSpec |
| Handlers.Key | SystemController.py:219-273 | the state after `key`; its property is KeySpec |
| Handlers.Shutdown | SystemController.py:241-254 | the Escape shutdown sequence (and `close_program`'s body); its properties are ShutdownSpec, ShutdownTwiceRepeats and NothingSentAfterShutdown |
| Handlers.Toggle | SystemController.py:343-374 | one checkbox handler on one peripheral, None for the unbound-pid NameError; its properties are TrafficToggleSpec and LightToggleSpec |
| Handlers.TrClicked | SystemController.py:343-357 | the state after `tr_clicked`; its properties are TrafficToggleSpec, TrafficOnThenOff, TrafficClicksAlternate and TrafficOffTwiceKillsTwice |
| Handlers.TrafficClicksAlternate | SystemController.py:343-357 | n GUI clicks of the traffic checkbox from start-up: the flag is set iff n is odd, the pid is the last spawn's, each "on" logs one event and each "off" two (no NameError), and nothing else changes (induction) |
| Handlers.LightClicksAlternate | SystemController.py:360-374 | the same alternation for the LED lights checkbox (induction) |
| Handlers.LgClicked | SystemController.py:360-374 | the state after `lg_clicked`; its property is LightToggleSpec |
| Handlers.UpdateFactors | SystemController.py:408-418 | the state after `update_factors`; its property is UpdateFactorsSpec |
| Handlers.InitValid | SystemController.py:40-47 | start-up state: both flags clear, no pid, nothing sent, no events |
| Handlers.HandlersPreserveValid | SystemController.py:129-508 | every handler keeps "flag set implies a pid is recorded"; `clicked` changes only the sent log (ClickedSpec) |
| Handlers.ClickedSpec | SystemController.py:129-156 | `clicked` appends exactly one frame iff the port is open, the Application tab is shown, the step is numeric and the factor parses; that frame decodes to the code and the scaled magnitude; nothing else changes |
| Handlers.KeySpec | SystemController.py:219-273 | on the Keyboard tab an arrow key acts as its on-screen button; Escape shuts down on any tab; every other key changes nothing |
| Handlers.PressArrowSpec | SystemController.py:276-301 | an arrow writes its code, the factor text unparsed, and CR LF, and changes nothing else |
| Handlers.UpdateFactorsSpec | SystemController.py:408-418 | `update_factors` replaces only the two texts; later arrows send the new texts, and later clicks scale by `int()` of them |
| Handlers.TogglesDisjoint | SystemController.py:343-374 | each checkbox touches only its own flag, its own pid and the event log |
| Handlers.TrafficToggleSpec | SystemController.py:343-357 | on: spawn, record the pid, set the flag; off: kill the recorded pid, clear the flag, launch the off script; off with no pid yet is a NameError that changes nothing |
| Handlers.LightToggleSpec | SystemController.py:360-374 | the same for the LED lights checkbox |
| Handlers.TrafficOnThenOff | SystemController.py:343-357 | on then off spawns once, kills that pid, launches the off script once and clears the flag |
| Handlers.TrafficOffTwiceKillsTwice | SystemController.py:353-357 | called "off" twice, the handler kills the same pid twice, because the flag is never consulted (the GUI never calls it so) |
| Handlers.ShutdownSpec | SystemController.py:241-254 | shutdown closes the port first, kills a peripheral exactly when its flag is set, always ends with the two off launches, and changes nothing else |
| Handlers.ShutdownTwiceRepeats | SystemController.py:500-507 | run a second time, the shutdown sequence repeats the whole event sequence (the GUI never runs it twice) |
| Handlers.NothingSentAfterShutdown | SystemController.py:500-501 | once the port is closed, no handler writes a frame |
| Controller.SystemController.constructor | SystemController.py:40-47 | the object starts in the start-up state with the factor files' texts |
| Controller.SystemController.Write | SystemController.py:156 | a write appends the frame to the port log while the port is open |
| Controller.SystemController.Clicked | SystemController.py:129-156 | returns the frame, message-box or ValueError outcome, and leaves the state `Handlers.Clicked` gives |
| Controller.SystemController.PressUp | SystemController.py:276-280 | the new state is `Handlers.PressArrow` with Up |
| Controller.SystemController.PressLeft | SystemController.py:283-287 | the new state is `Handlers.PressArrow` with Left |
| Controller.SystemController.PressRight | SystemController.py:290-294 | the new state is `Handlers.PressArrow` with Right |
| Controller.SystemController.PressDown | SystemController.py:297-301 | the new state is `Handlers.PressArrow` with Down |
| Controller.SystemController.Shutdown | SystemController.py:241-254 | the new state is `Handlers.Shutdown`, and the invariant is kept |
| Controller.SystemController.Key | SystemController.py:219-273 | the new state is `Handlers.Key`, and the invariant is kept |
| Controller.SystemController.TrClicked | SystemController.py:343-357 | the new state is `Handlers.TrClicked`, and the invariant is kept |
| Controller.SystemController.LgClicked | SystemController.py:360-374 | the new state is `Handlers.LgClicked`, and the invariant is kept |
| Controller.SystemController.UpdateFactors | SystemController.py:408-418 | the new state is `Handlers.UpdateFactors` |
| Controller.SystemController.CloseProgram | SystemController.py:500-507 | the body of `close_program` as written leaves the state `Handlers.Shutdown` gives, and keeps the invariant; SIGINT never reaches it (see above) |
| Controller.TrafficScenario | SystemController.py:343-357 | on, off, then Escape gives spawn, kill, off launch, port close and the two off launches, in that order, with nothing sent |
| TrafficLights.PhaseOutputs | traffic_lights.py:37-74 | the six levels each block writes; its properties are PhaseTableSafe and HeadsStepInOrder |
| TrafficLights.HoldTime | traffic_lights.py:45-75 | each block's sleep, 8 s for a green phase and 2 s for a yellow one; its property is ScheduleDuration |
| TrafficLights.Next | traffic_lights.py:36-75 | the block after a block, wrapping round; its properties are NextFollowsLoop, PhaseAfterPeriodic and HeadsStepInOrder |
| TrafficLights.PhaseTableSafe | traffic_lights.py:36-75 | every phase lights exactly one lamp per head, and a head shows green or yellow only while the other shows red |
| TrafficLights.HeadsStepInOrder | traffic_lights.py:36-75 | from phase to phase, each head keeps its lamp or moves green to yellow to red to green; green never goes straight to red |
| TrafficLights.NextFollowsLoop | traffic_lights.py:36-75 | the state machine's next phase is the loop's next block, wrapping round to the first |
| TrafficLights.PhaseAfterPeriodic | traffic_lights.py:36 | after four phase changes the sequencer is back where it started (induction) |
| TrafficLights.PhaseAfterIsCycle | traffic_lights.py:36-75 | the i-th phase from the start is the (i mod 4)-th block of the loop |
| TrafficLights.ScheduleAt | traffic_lights.py:36-75 | k passes give 4k holds, and the i-th hold shows the i-th phase for that phase's time (induction) |
| TrafficLights.DurationAppend | traffic_lights.py:45-75 | total hold time adds up over concatenation (induction) |
| TrafficLights.ScheduleDuration | traffic_lights.py:6-7 | k passes of the loop take 20k seconds (8 + 2 + 8 + 2 per pass) |
| TrafficLights.ScheduleSafe | traffic_lights.py:36-75 | during every hold, each head shows exactly one lamp and the heads never conflict (between writes this fails: WritesAreNotAtomic) |
| TrafficLights.ScheduleReturns | traffic_lights.py:36-45 | after 20 seconds the outputs are again those of the first phase |
| TrafficLights.WritesAreNotAtomic | traffic_lights.py:38-50 | in the states `Board.ShowPhase` passes through between pin writes a head shows two lamps (yellow raised before green dropped) or none (red dropped before green raised), and main green is lit while the side head shows yellow |
| TrafficLights.Board.constructor | traffic_lights.py:13-18 | the six pins are set up as outputs; nothing has been held yet |
| TrafficLights.Board.Output | traffic_lights.py:38-74 | one write changes exactly one pin's level; it requires the board to be live (GPIO not cleaned up, process not exited) |
| TrafficLights.Board.Sleep | traffic_lights.py:45-75 | a sleep records a hold of the outputs currently shown and changes no level; it requires the board to be live |
| TrafficLights.Board.ShowPhase | traffic_lights.py:37-75 | one block: six writes in the source's order, after which the phase table's outputs are shown, then a hold for the phase's time |
| TrafficLights.Board.Run | traffic_lights.py:36-75 | the holds after k passes of the loop are exactly `Schedule(k)`, and the last phase shown is main red with side yellow |
| TrafficLights.Board.AllLightsOff | traffic_lights.py:22-30 | all six outputs low, then cleanup, then exit status 0, and no hold added; it requires a live board, and since writes need one, all six writes must come before the cleanup and the exit |

## Left out

- The Tk user interface is not modelled: widgets, tab destruction, message
  boxes, `window.destroy()` and the main loop. The active tab and the
  selected radio value are parameters.
- The serial port itself is not modelled: its opening, baud rate and byte
  encoding. A write on a closed port appends nothing; pyserial would raise
  instead.
- `Popen` and `os.kill` are events in the log. An `os.kill` of a stale pid
  that fails with OSError is not modelled.
- A `Popen` that raises (for example OSError when the script is missing) is
  not modelled: every spawn and launch is assumed to succeed. A failed spawn
  leaves the checkbox checked with the flag unchanged and no new pid, so the
  next click's `os.kill` either raises NameError (no pid was ever stored) or
  kills the previously recorded pid again. The alternation and shutdown
  properties above do not cover that run.
- The operating system's pid allocation is not modelled: the pid is a
  parameter.
- File I/O of the two settings files is not modelled. The constructor takes
  their contents, and `update_factors` writing them back is not modelled.
- The start-up dialog that chooses the OS and serial port is not modelled,
  nor is `os_select`. It only decides whether the lights tab exists.
- Controller.SystemController.CloseProgram models the body of
  `close_program` without its final `sys.exit(0)`. The body is never reached
  on SIGINT, where the handler call itself fails with TypeError (see above).
  What that TypeError then does to the Tk main loop and the process is not
  modelled.
- PyText.ParseInt covers ASCII only. Unicode digits and whitespace, which
  Python's `int()` and `isnumeric()` also accept in non-ASCII text, are out
  of scope.
- TrafficLights.Board.Run covers only the first `passes` passes of the
  `while True` loop, because a non-terminating loop cannot be a verified
  method. The lemmas about `Schedule(k)` hold for every k.
- TrafficLights.Board.AllLightsOff does not model SIGINT delivery. Its
  signal and frame arguments are unused, and delivery can happen between
  any two statements of the loop.
- GPIO warnings and BCM mode setup are not modelled, nor are the real
  durations of `time.sleep`. Holds are recorded as numbers of seconds.
- lights.py, lights_off.py and traffic_lights_off.py are not part of this
  model. The controller only launches and kills them as processes.
