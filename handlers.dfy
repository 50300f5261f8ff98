/**
 * What the controller's event handlers do to the program's module-level
 * state, stated as functions from the state before a handler to the state
 * after it. The class in controller.dfy performs the same handlers step by
 * step and is proved to agree with these functions.
 *
 * The serial port and process control are observed, not performed: a write
 * appends its frame to `sent`, and closing the port, spawning, killing
 * (signal 9) and launching an "off" script append to `events`.
 */
module Handlers {
  import opened Wrappers
  import opened PyText
  import opened Protocol

  /** Title of the tab whose button sends a scaled command ("Application"). */
  const AppTab: string := "Εφαρμογή"

  /** Title of the tab on which the arrow keys drive the robot ("Keyboard"). */
  const KeyboardTab: string := "Πληκτρολόγιο"

  /** The peripheral scripts: the two run-loops and their one-shot "all off" passes. */
  datatype Script = TrafficLightsRun | TrafficLightsOff | LightsRun | LightsOff

  datatype Event =
    | PortClosed
    | Spawned(script: Script, pid: int)
    | Killed(pid: int)
    | Launched(script: Script)

  /**
   * The module-level variables of the controller. A pid is None while the
   * Python name is still unbound (no run-loop was ever started).
   */
  datatype Globals = Globals(
    portOpen: bool,
    sent: seq<string>,
    trafficRunning: bool,     // tr_poc_run == 1
    trafficPid: Option<int>,  // traffic_pid
    lightRunning: bool,       // lg_poc_run == 1
    lightPid: Option<int>,    // light_pid
    fbText: string,           // fb_txt_value
    lrText: string,           // lr_txt_value
    events: seq<Event>)

  /** After start-up: port open, nothing sent, nothing started, factor texts as read from the settings files. */
  function Init(fbText: string, lrText: string): Globals {
    Globals(true, [], false, None, false, None, fbText, lrText, [])
  }

  /** A running flag is only ever set together with its pid. */
  predicate Valid(g: Globals) {
    && (g.trafficRunning ==> g.trafficPid.Some?)
    && (g.lightRunning ==> g.lightPid.Some?)
  }

  /** `serialPort.write`: pyserial raises on a closed port, so nothing is sent then. */
  function Write(g: Globals, frame: string): Globals {
    if g.portOpen then g.(sent := g.sent + [frame]) else g
  }

  /** `clicked`: build the frame, write it only while the Application tab is shown. */
  function Clicked(g: Globals, selection: int, stepText: string, activeTab: string): Globals {
    match ClickFrame(selection, stepText, g.fbText, g.lrText)
    case Built(f) => if activeTab == AppTab then Write(g, f) else g
    case _ => g
  }

  /** `press_up`, `press_down`, `press_left`, `press_right`. */
  function PressArrow(g: Globals, a: Arrow): Globals {
    Write(g, ArrowFrame(a, g.fbText, g.lrText))
  }

  function KeyArrow(keysym: string): Option<Arrow> {
    if keysym == "Up" then Some(Up)
    else if keysym == "Down" then Some(Down)
    else if keysym == "Left" then Some(Left)
    else if keysym == "Right" then Some(Right)
    else None
  }

  /** The Escape branch of `key` and `close_program`: close, kill what is flagged, launch both off scripts. */
  function ShutdownEvents(g: Globals): seq<Event>
    requires Valid(g)
  {
    [PortClosed]
    + (if g.trafficRunning then [Killed(g.trafficPid.value)] else [])
    + (if g.lightRunning then [Killed(g.lightPid.value)] else [])
    + [Launched(TrafficLightsOff), Launched(LightsOff)]
  }

  function Shutdown(g: Globals): Globals
    requires Valid(g)
  {
    g.(portOpen := false, events := g.events + ShutdownEvents(g))
  }

  /**
   * `key`: on the Keyboard tab an arrow writes its frame and Escape shuts
   * down; any other key only shows a message box. On any other tab only
   * Escape does something.
   */
  function Key(g: Globals, keysym: string, activeTab: string): Globals
    requires Valid(g)
  {
    if activeTab == KeyboardTab && KeyArrow(keysym).Some? then PressArrow(g, KeyArrow(keysym).value)
    else if keysym == "Escape" then Shutdown(g)
    else g
  }

  /** A checkbox handler's effect on its own flag and pid. */
  datatype Toggled = Toggled(running: bool, pid: Option<int>, events: seq<Event>)

  /**
   * `tr_clicked` / `lg_clicked` on one peripheral. Checked: spawn the run
   * script and record its pid. Unchecked: kill the recorded pid whatever the
   * flag says, clear the flag, launch the off script. None when the pid name
   * is unbound, where Python raises NameError before changing anything.
   */
  function Toggle(running: bool, pid: Option<int>, checked: bool, newPid: int, run: Script, off: Script): Option<Toggled> {
    if checked then Some(Toggled(true, Some(newPid), [Spawned(run, newPid)]))
    else if pid.None? then None
    else Some(Toggled(false, pid, [Killed(pid.value), Launched(off)]))
  }

  function TrClicked(g: Globals, checked: bool, newPid: int): Globals {
    match Toggle(g.trafficRunning, g.trafficPid, checked, newPid, TrafficLightsRun, TrafficLightsOff)
    case None => g
    case Some(t) => g.(trafficRunning := t.running, trafficPid := t.pid, events := g.events + t.events)
  }

  function LgClicked(g: Globals, checked: bool, newPid: int): Globals {
    match Toggle(g.lightRunning, g.lightPid, checked, newPid, LightsRun, LightsOff)
    case None => g
    case Some(t) => g.(lightRunning := t.running, lightPid := t.pid, events := g.events + t.events)
  }

  /** `update_factors`: the two entered texts become the factor texts (and the files' contents). */
  function UpdateFactors(g: Globals, fbEntry: string, lrEntry: string): Globals {
    g.(fbText := fbEntry, lrText := lrEntry)
  }

  /** `clicked`'s effect read off the frame it builds. */
  lemma ClickedBy(g: Globals, selection: int, stepText: string, activeTab: string)
    ensures var r := ClickFrame(selection, stepText, g.fbText, g.lrText);
            Clicked(g, selection, stepText, activeTab) == if r.Built? && activeTab == AppTab then Write(g, r.frame) else g
  {
  }

  // ---------------------------------------------------------------------------
  // The invariant

  lemma InitValid(fbText: string, lrText: string)
    ensures Valid(Init(fbText, lrText)) && Init(fbText, lrText).sent == [] && Init(fbText, lrText).events == []
  {
  }

  /** Every handler keeps the flags and pids consistent (`clicked` changes only the sent log: ClickedSpec). */
  lemma HandlersPreserveValid(g: Globals, text: string, text': string, keysym: string, tab: string, checked: bool, pid: int, a: Arrow)
    requires Valid(g)
    ensures Valid(Key(g, keysym, tab))
    ensures Valid(PressArrow(g, a))
    ensures Valid(TrClicked(g, checked, pid))
    ensures Valid(LgClicked(g, checked, pid))
    ensures Valid(UpdateFactors(g, text, text'))
    ensures Valid(Shutdown(g))
  {
    assert Valid(PressArrow(g, a));
  }

  // ---------------------------------------------------------------------------
  // Sending frames

  /**
   * `clicked` writes one frame exactly when the port is open, the
   * Application tab is shown, the step text is all digits and the factor
   * text of the chosen axis parses; the frame carries the chosen code and
   * the step count times that factor, and nothing else changes.
   */
  lemma ClickedSpec(g: Globals, selection: int, stepText: string, activeTab: string)
    ensures var h := Clicked(g, selection, stepText, activeTab);
            var factor := ParseInt(FactorText(selection, g.fbText, g.lrText));
            && h.(sent := g.sent) == g
            && (h.sent != g.sent <==> g.portOpen && activeTab == AppTab && IsNumeric(stepText) && factor.Some?)
            && (h.sent != g.sent ==>
                  && |h.sent| == |g.sent| + 1 && h.sent[..|g.sent|] == g.sent
                  && DecodeFrame(h.sent[|g.sent|]) == Some(Command(SelectionCode(selection), DigitsValue(stepText) * factor.value)))
  {
    ClickFrameSpec(selection, stepText, g.fbText, g.lrText);
    var h := Clicked(g, selection, stepText, activeTab);
    if h.sent != g.sent {
      assert h.sent == g.sent + [ClickFrame(selection, stepText, g.fbText, g.lrText).frame];
    }
  }

  /**
   * On the Keyboard tab an arrow key writes exactly the frame its on-screen
   * button writes; elsewhere, and for any other key but Escape, nothing at
   * all changes.
   */
  lemma KeySpec(g: Globals, keysym: string, activeTab: string)
    requires Valid(g)
    ensures activeTab == KeyboardTab && KeyArrow(keysym).Some? ==>
              Key(g, keysym, activeTab) == PressArrow(g, KeyArrow(keysym).value)
    ensures keysym == "Escape" ==> Key(g, keysym, activeTab) == Shutdown(g)
    ensures keysym != "Escape" && (activeTab != KeyboardTab || KeyArrow(keysym).None?) ==>
              Key(g, keysym, activeTab) == g
    ensures Key(g, keysym, activeTab).sent != g.sent ==> activeTab == KeyboardTab && KeyArrow(keysym).Some?
  {
  }

  /** An arrow writes its code, the current factor text unparsed, and CR LF. */
  lemma PressArrowSpec(g: Globals, a: Arrow)
    requires g.portOpen
    ensures PressArrow(g, a).sent == g.sent + [[ArrowCode(a)] + (if a in {Up, Down} then g.fbText else g.lrText) + "\r\n"]
    ensures PressArrow(g, a).(sent := g.sent) == g
  {
  }

  /** After `update_factors` the arrows send the new texts, and `clicked` scales by `int()` of them. */
  lemma UpdateFactorsSpec(g: Globals, fbEntry: string, lrEntry: string, a: Arrow, selection: int, stepText: string)
    ensures UpdateFactors(g, fbEntry, lrEntry).(fbText := g.fbText, lrText := g.lrText) == g
    ensures PressArrow(UpdateFactors(g, fbEntry, lrEntry), a).sent == Write(g, ArrowFrame(a, fbEntry, lrEntry)).sent
    ensures Clicked(UpdateFactors(g, fbEntry, lrEntry), selection, stepText, AppTab).sent
         == (match ClickFrame(selection, stepText, fbEntry, lrEntry)
             case Built(f) => Write(g, f).sent
             case _ => g.sent)
  {
  }

  // ---------------------------------------------------------------------------
  // Peripheral toggles

  /** The traffic checkbox touches only the traffic flag, pid and the event log; the light checkbox only its own. */
  lemma TogglesDisjoint(g: Globals, checked: bool, pid: int)
    ensures var h := TrClicked(g, checked, pid);
            h.(trafficRunning := g.trafficRunning, trafficPid := g.trafficPid, events := g.events) == g
    ensures var h := LgClicked(g, checked, pid);
            h.(lightRunning := g.lightRunning, lightPid := g.lightPid, events := g.events) == g
  {
  }

  /**
   * Toggle on records the new pid and sets the flag; toggle off kills the
   * recorded pid (without looking at the flag), clears the flag and launches
   * the off script; toggle off with no pid ever recorded changes nothing.
   */
  lemma TrafficToggleSpec(g: Globals, checked: bool, pid: int)
    ensures checked ==>
              TrClicked(g, checked, pid) == g.(trafficRunning := true, trafficPid := Some(pid),
                                               events := g.events + [Spawned(TrafficLightsRun, pid)])
    ensures !checked && g.trafficPid.Some? ==>
              TrClicked(g, checked, pid) == g.(trafficRunning := false,
                                               events := g.events + [Killed(g.trafficPid.value), Launched(TrafficLightsOff)])
    ensures !checked && g.trafficPid.None? ==> TrClicked(g, checked, pid) == g
  {
  }

  lemma LightToggleSpec(g: Globals, checked: bool, pid: int)
    ensures checked ==>
              LgClicked(g, checked, pid) == g.(lightRunning := true, lightPid := Some(pid),
                                               events := g.events + [Spawned(LightsRun, pid)])
    ensures !checked && g.lightPid.Some? ==>
              LgClicked(g, checked, pid) == g.(lightRunning := false,
                                               events := g.events + [Killed(g.lightPid.value), Launched(LightsOff)])
    ensures !checked && g.lightPid.None? ==> LgClicked(g, checked, pid) == g
  {
  }

  /** On then off: one spawn, one kill of that pid, one off pass, and the flag is clear again. */
  lemma TrafficOnThenOff(g: Globals, pid: int, pid': int)
    ensures var h := TrClicked(TrClicked(g, true, pid), false, pid');
            && h.events == g.events + [Spawned(TrafficLightsRun, pid), Killed(pid), Launched(TrafficLightsOff)]
            && !h.trafficRunning && h.trafficPid == Some(pid)
            && h.(trafficRunning := g.trafficRunning, trafficPid := g.trafficPid, events := g.events) == g
  {
  }

  /** Turning a peripheral off twice kills the stale pid a second time: the flag is never consulted. */
  lemma TrafficOffTwiceKillsTwice(g: Globals, pid: int)
    requires g.trafficPid.Some?
    ensures TrClicked(TrClicked(g, false, pid), false, pid).events
         == g.events + [Killed(g.trafficPid.value), Launched(TrafficLightsOff), Killed(g.trafficPid.value), Launched(TrafficLightsOff)]
  {
  }

  /**
   * The traffic checkbox clicked once per element of `pids`, starting from g.
   * Tk flips the checkbox variable before it calls `tr_clicked`, and the
   * variable starts at 0, so the handler sees checked, unchecked, checked, ...
   * `pids[i]` is the pid the i-th click's spawn would get.
   */
  function TrafficClicks(g: Globals, pids: seq<int>): Globals
  {
    if pids == [] then g
    else TrClicked(TrafficClicks(g, pids[..|pids| - 1]), (|pids| - 1) % 2 == 0, pids[|pids| - 1])
  }

  function LightClicks(g: Globals, pids: seq<int>): Globals
  {
    if pids == [] then g
    else LgClicked(LightClicks(g, pids[..|pids| - 1]), (|pids| - 1) % 2 == 0, pids[|pids| - 1])
  }

  /**
   * Clicked from the GUI after start-up, the traffic checkbox alternates: the
   * flag is set exactly after an odd number of clicks, the recorded pid is
   * that of the last spawn, and every "off" finds a pid (the NameError
   * branch is never taken): each "on" logs one event and each "off" two.
   */
  lemma {:induction false} TrafficClicksAlternate(fbText: string, lrText: string, pids: seq<int>)
    ensures var h := TrafficClicks(Init(fbText, lrText), pids);
            && h.trafficRunning == (|pids| % 2 == 1)
            && (|pids| > 0 ==> h.trafficPid == Some(pids[2 * ((|pids| - 1) / 2)]))
            && |h.events| == |pids| + |pids| / 2
            && h.(trafficRunning := false, trafficPid := None, events := []) == Init(fbText, lrText)
  {
    if pids != [] {
      var n := |pids|;
      var prev := pids[..n - 1];
      TrafficClicksAlternate(fbText, lrText, prev);
      if n - 1 > 0 {
        assert prev[2 * ((n - 2) / 2)] == pids[2 * ((n - 2) / 2)];
      }
    }
  }

  /** The same alternation for the LED lights checkbox. */
  lemma {:induction false} LightClicksAlternate(fbText: string, lrText: string, pids: seq<int>)
    ensures var h := LightClicks(Init(fbText, lrText), pids);
            && h.lightRunning == (|pids| % 2 == 1)
            && (|pids| > 0 ==> h.lightPid == Some(pids[2 * ((|pids| - 1) / 2)]))
            && |h.events| == |pids| + |pids| / 2
            && h.(lightRunning := false, lightPid := None, events := []) == Init(fbText, lrText)
  {
    if pids != [] {
      var n := |pids|;
      var prev := pids[..n - 1];
      LightClicksAlternate(fbText, lrText, prev);
      if n - 1 > 0 {
        assert prev[2 * ((n - 2) / 2)] == pids[2 * ((n - 2) / 2)];
      }
    }
  }

  // ---------------------------------------------------------------------------
  // Shutdown

  /**
   * Shutdown closes the port first, kills a peripheral exactly when its flag
   * is set, and always launches both off scripts last; flags, pids, factors
   * and the sent log are left as they were.
   */
  lemma ShutdownSpec(g: Globals)
    requires Valid(g)
    ensures var h := Shutdown(g);
            var e := h.events[|g.events|..];
            && !h.portOpen
            && h.events[..|g.events|] == g.events
            && 3 <= |e| <= 5
            && e[0] == PortClosed
            && e[|e| - 2..] == [Launched(TrafficLightsOff), Launched(LightsOff)]
            && (forall p :: Killed(p) in e <==>
                  (g.trafficRunning && g.trafficPid == Some(p)) || (g.lightRunning && g.lightPid == Some(p)))
            && |e| == 3 + (if g.trafficRunning then 1 else 0) + (if g.lightRunning then 1 else 0)
            && h.(portOpen := g.portOpen, events := g.events) == g
  {
    var e := ShutdownEvents(g);
    assert Shutdown(g).events[|g.events|..] == e;
    assert Shutdown(g).events[..|g.events|] == g.events;
  }

  /**
   * Shutdown is not idempotent: it resets no flag, so a second call repeats
   * every kill and both off launches.
   */
  lemma ShutdownTwiceRepeats(g: Globals)
    requires Valid(g)
    ensures Valid(Shutdown(g))
    ensures Shutdown(Shutdown(g)).events == g.events + ShutdownEvents(g) + ShutdownEvents(g)
  {
    assert ShutdownEvents(Shutdown(g)) == ShutdownEvents(g);
  }

  /** Once the port is closed no handler sends anything more. */
  lemma NothingSentAfterShutdown(g: Globals, selection: int, stepText: string, keysym: string, tab: string, a: Arrow)
    requires Valid(g)
    ensures Clicked(Shutdown(g), selection, stepText, tab).sent == g.sent
    ensures PressArrow(Shutdown(g), a).sent == g.sent
    ensures Key(Shutdown(g), keysym, tab).sent == g.sent
  {
    var h := Shutdown(g);
    assert !h.portOpen && h.sent == g.sent;
    assert PressArrow(h, a) == h;
    if tab == KeyboardTab && KeyArrow(keysym).Some? {
      assert Key(h, keysym, tab) == PressArrow(h, KeyArrow(keysym).value) == h;
    }
  }

}
