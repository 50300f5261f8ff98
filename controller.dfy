/**
 * The controller's event handlers as they run: one object holds the
 * module-level variables, and each handler updates them statement by
 * statement. Every method is proved to leave the object in the state the
 * matching function of module Handlers gives.
 */
module Controller {
  import opened Wrappers
  import opened PyText
  import opened Protocol
  import Handlers

  class SystemController {
    var portOpen: bool
    var sent: seq<string>             // frames written to the serial port
    var trafficRunning: bool          // tr_poc_run == 1
    var trafficPid: Option<int>       // traffic_pid, None while unbound
    var lightRunning: bool            // lg_poc_run == 1
    var lightPid: Option<int>         // light_pid, None while unbound
    var fbText: string                // fb_txt_value
    var lrText: string                // lr_txt_value
    var events: seq<Handlers.Event>   // port close, spawns, kills, off launches

    function Snapshot(): Handlers.Globals
      reads this
    {
      Handlers.Globals(portOpen, sent, trafficRunning, trafficPid, lightRunning, lightPid, fbText, lrText, events)
    }

    ghost predicate Valid()
      reads this
    {
      Handlers.Valid(Snapshot())
    }

    /** Start-up: the factor texts come from the two settings files, the port has been opened. */
    constructor (fbFile: string, lrFile: string)
      ensures Valid()
      ensures Snapshot() == Handlers.Init(fbFile, lrFile)
    {
      portOpen := true;
      sent := [];
      trafficRunning := false;
      trafficPid := None;
      lightRunning := false;
      lightPid := None;
      fbText := fbFile;
      lrText := lrFile;
      events := [];
    }

    /** `serialPort.write(frame.encode())`. */
    method Write(frame: string)
      requires Valid()
      modifies this
      ensures Valid()
      ensures Snapshot() == Handlers.Write(old(Snapshot()), frame)
    {
      if portOpen {
        sent := sent + [frame];
      }
    }

    /** `clicked`: the result says which way the handler left (ValueError, message box, or a built frame). */
    method Clicked(selection: int, stepText: string, activeTab: string) returns (r: ClickResult)
      requires Valid()
      modifies this
      ensures Valid()
      ensures r == ClickFrame(selection, stepText, old(fbText), old(lrText))
      ensures Snapshot() == Handlers.Clicked(old(Snapshot()), selection, stepText, activeTab)
    {
      var code: char;
      if selection == 1 {
        code := 'F';
      } else if selection == 2 {
        code := 'B';
      } else if selection == 3 {
        code := 'L';
      } else if selection == 4 {
        code := 'R';
      } else {
        code := 'S';
      }
      assert code == SelectionCode(selection);
      ghost var g := Snapshot();
      ghost var expected := ClickFrame(selection, stepText, fbText, lrText);
      Handlers.ClickedBy(g, selection, stepText, activeTab);
      var step := ParseInt(stepText);
      var factor := if selection == 1 || selection == 2 then ParseInt(fbText) else ParseInt(lrText);
      assert factor == ParseInt(FactorText(selection, fbText, lrText));
      if step.None? || factor.None? {
        assert expected == Raised;
        return Raised;  // int() raised ValueError: the handler stops here
      }
      var magnitude := step.value * factor.value;
      if !IsNumeric(stepText) {
        assert expected == Rejected;
        return Rejected;  // message box, nothing written
      }
      var frame := [code] + IntToString(magnitude) + "\r\n";
      assert expected == Built(frame);
      r := Built(frame);
      if activeTab == Handlers.AppTab {
        Write(frame);
      }
    }

    method PressUp()
      requires Valid()
      modifies this
      ensures Valid()
      ensures Snapshot() == Handlers.PressArrow(old(Snapshot()), Up)
    {
      Write("F" + fbText + "\r\n");
    }

    method PressDown()
      requires Valid()
      modifies this
      ensures Valid()
      ensures Snapshot() == Handlers.PressArrow(old(Snapshot()), Down)
    {
      Write("B" + fbText + "\r\n");
    }

    method PressLeft()
      requires Valid()
      modifies this
      ensures Valid()
      ensures Snapshot() == Handlers.PressArrow(old(Snapshot()), Left)
    {
      Write("L" + lrText + "\r\n");
    }

    method PressRight()
      requires Valid()
      modifies this
      ensures Valid()
      ensures Snapshot() == Handlers.PressArrow(old(Snapshot()), Right)
    {
      Write("R" + lrText + "\r\n");
    }

    /** The shared shutdown sequence of the Escape key and `close_program`. */
    method Shutdown()
      requires Valid()
      modifies this
      ensures Valid()
      ensures Snapshot() == Handlers.Shutdown(old(Snapshot()))
    {
      portOpen := false;
      events := events + [Handlers.PortClosed];
      if trafficRunning {
        events := events + [Handlers.Killed(trafficPid.value)];
      }
      if lightRunning {
        events := events + [Handlers.Killed(lightPid.value)];
      }
      events := events + [Handlers.Launched(Handlers.TrafficLightsOff)];
      events := events + [Handlers.Launched(Handlers.LightsOff)];
    }

    /** `key`, bound to every key press of the window. */
    method Key(keysym: string, activeTab: string)
      requires Valid()
      modifies this
      ensures Valid()
      ensures Snapshot() == Handlers.Key(old(Snapshot()), keysym, activeTab)
    {
      if activeTab == Handlers.KeyboardTab {
        if keysym == "Up" {
          PressUp();
        } else if keysym == "Down" {
          PressDown();
        } else if keysym == "Left" {
          PressLeft();
        } else if keysym == "Right" {
          PressRight();
        } else if keysym == "Escape" {
          Shutdown();
        }
        // any other key: a message box only
      } else if keysym == "Escape" {
        Shutdown();
      }
    }

    /** `tr_clicked`; `newPid` is the pid the operating system gives the spawned run-loop. */
    method TrClicked(checked: bool, newPid: int)
      requires Valid()
      modifies this
      ensures Valid()
      ensures Snapshot() == Handlers.TrClicked(old(Snapshot()), checked, newPid)
    {
      if checked {
        events := events + [Handlers.Spawned(Handlers.TrafficLightsRun, newPid)];
        trafficPid := Some(newPid);
        trafficRunning := true;
      } else if trafficPid.Some? {
        events := events + [Handlers.Killed(trafficPid.value)];
        trafficRunning := false;
        events := events + [Handlers.Launched(Handlers.TrafficLightsOff)];
      }
      // otherwise traffic_pid is unbound: NameError, nothing has changed
    }

    /** `lg_clicked`; `newPid` is the pid the operating system gives the spawned run-loop. */
    method LgClicked(checked: bool, newPid: int)
      requires Valid()
      modifies this
      ensures Valid()
      ensures Snapshot() == Handlers.LgClicked(old(Snapshot()), checked, newPid)
    {
      if checked {
        events := events + [Handlers.Spawned(Handlers.LightsRun, newPid)];
        lightPid := Some(newPid);
        lightRunning := true;
      } else if lightPid.Some? {
        events := events + [Handlers.Killed(lightPid.value)];
        lightRunning := false;
        events := events + [Handlers.Launched(Handlers.LightsOff)];
      }
      // otherwise light_pid is unbound: NameError, nothing has changed
    }

    /** `update_factors`; the same texts are also written to the settings files. */
    method UpdateFactors(fbEntry: string, lrEntry: string)
      requires Valid()
      modifies this
      ensures Valid()
      ensures Snapshot() == Handlers.UpdateFactors(old(Snapshot()), fbEntry, lrEntry)
    {
      fbText := fbEntry;
      lrText := lrEntry;
    }

    /**
     * The body of `close_program`: the same shutdown sequence as Escape. It
     * is registered for SIGINT, but Python calls a signal handler with two
     * arguments and `close_program` takes none, so on SIGINT the call fails
     * with TypeError before this body runs. The final `sys.exit(0)` is not
     * modelled.
     */
    method CloseProgram()
      requires Valid()
      modifies this
      ensures Valid()
      ensures Snapshot() == Handlers.Shutdown(old(Snapshot()))
    {
      Shutdown();
    }
  }

  /**
   * The scenario of toggling the traffic light on and off again, and then
   * leaving with Escape from another tab.
   */
  method TrafficScenario(fbFile: string, lrFile: string, pid: int) returns (c: SystemController)
    ensures c.events == [Handlers.Spawned(Handlers.TrafficLightsRun, pid), Handlers.Killed(pid),
                         Handlers.Launched(Handlers.TrafficLightsOff),
                         Handlers.PortClosed, Handlers.Launched(Handlers.TrafficLightsOff), Handlers.Launched(Handlers.LightsOff)]
    ensures !c.trafficRunning && !c.portOpen && c.sent == []
  {
    c := new SystemController(fbFile, lrFile);
    c.TrClicked(true, pid);
    c.TrClicked(false, pid);
    c.Key("Escape", Handlers.AppTab);
  }

}
