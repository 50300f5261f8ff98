/**
 * The traffic-light run-loop: a main and a side signal head, each with a red,
 * a yellow and a green lamp on its own GPIO output. The loop shows four
 * phases in a fixed order, holding each for a fixed time, forever; SIGINT
 * switches all six outputs off and ends the process.
 *
 * The phases are a pure table (outputs and hold time per phase). The board
 * class performs the loop's GPIO writes one at a time and records every
 * `time.sleep` as a hold of the outputs shown at that moment.
 */
module TrafficLights {
  import opened Wrappers

  /** Hold times in seconds: `time_main_green` and `time_main_yellow`. */
  const TimeMainGreen: nat := 8
  const TimeMainYellow: nat := 2

  /** BCM numbers of the six outputs. */
  const MainRedPin: int := 17
  const MainYellowPin: int := 18
  const MainGreenPin: int := 27
  const SideRedPin: int := 22
  const SideYellowPin: int := 23
  const SideGreenPin: int := 24

  const OutputPins: set<int> := {MainRedPin, MainYellowPin, MainGreenPin, SideRedPin, SideYellowPin, SideGreenPin}

  /** Levels of the six outputs (true is high, the lamp lit). */
  datatype Outputs = Outputs(
    mainRed: bool, mainYellow: bool, mainGreen: bool,
    sideRed: bool, sideYellow: bool, sideGreen: bool)

  const AllOff := Outputs(false, false, false, false, false, false)

  datatype Phase = MainGreenSideRed | MainYellowSideRed | MainRedSideGreen | MainRedSideYellow

  /** The four blocks of the loop body, in the order they run. */
  const Cycle: seq<Phase> := [MainGreenSideRed, MainYellowSideRed, MainRedSideGreen, MainRedSideYellow]

  /** The phase table: what each block writes to the six outputs. */
  function PhaseOutputs(p: Phase): Outputs {
    match p
    case MainGreenSideRed => Outputs(false, false, true, true, false, false)
    case MainYellowSideRed => Outputs(false, true, false, true, false, false)
    case MainRedSideGreen => Outputs(true, false, false, false, false, true)
    case MainRedSideYellow => Outputs(true, false, false, false, true, false)
  }

  /** How long each block sleeps once its outputs are written. */
  function HoldTime(p: Phase): nat {
    match p
    case MainGreenSideRed => TimeMainGreen
    case MainYellowSideRed => TimeMainYellow
    case MainRedSideGreen => TimeMainGreen
    case MainRedSideYellow => TimeMainYellow
  }

  /** The block that runs after p; the last one wraps round to the top of the loop. */
  function Next(p: Phase): Phase {
    match p
    case MainGreenSideRed => MainYellowSideRed
    case MainYellowSideRed => MainRedSideGreen
    case MainRedSideGreen => MainRedSideYellow
    case MainRedSideYellow => MainGreenSideRed
  }

  /** The phase shown after n phase changes starting from p. */
  function PhaseAfter(p: Phase, n: nat): Phase {
    if n == 0 then p else Next(PhaseAfter(p, n - 1))
  }

  // ---------------------------------------------------------------------------
  // What the lamps mean

  datatype Lamp = Red | Yellow | Green

  predicate ExactlyOne(red: bool, yellow: bool, green: bool) {
    (red && !yellow && !green) || (!red && yellow && !green) || (!red && !yellow && green)
  }

  /** Each signal head shows exactly one lamp. */
  predicate OneLampEach(o: Outputs) {
    ExactlyOne(o.mainRed, o.mainYellow, o.mainGreen) && ExactlyOne(o.sideRed, o.sideYellow, o.sideGreen)
  }

  /** A head shows green or yellow only while the other head shows red. */
  predicate NoConflict(o: Outputs) {
    && (o.mainGreen || o.mainYellow ==> o.sideRed)
    && (o.sideGreen || o.sideYellow ==> o.mainRed)
  }

  function MainLamp(o: Outputs): Lamp
    requires OneLampEach(o)
  {
    if o.mainRed then Red else if o.mainYellow then Yellow else Green
  }

  function SideLamp(o: Outputs): Lamp
    requires OneLampEach(o)
  {
    if o.sideRed then Red else if o.sideYellow then Yellow else Green
  }

  /** A signal head's own order: green, then yellow, then red, then green again. */
  function LampAfter(l: Lamp): Lamp {
    match l
    case Green => Yellow
    case Yellow => Red
    case Red => Green
  }

  /** Every phase of the table lights one lamp per head and never gives both heads way. */
  lemma PhaseTableSafe(p: Phase)
    ensures OneLampEach(PhaseOutputs(p)) && NoConflict(PhaseOutputs(p))
  {
  }

  /**
   * From one phase to the next each head either keeps its lamp or moves to
   * the next lamp of its own order; in particular green is never followed
   * directly by red.
   */
  lemma HeadsStepInOrder(p: Phase)
    ensures var a, b := PhaseOutputs(p), PhaseOutputs(Next(p));
            && OneLampEach(a) && OneLampEach(b)
            && (MainLamp(b) == MainLamp(a) || MainLamp(b) == LampAfter(MainLamp(a)))
            && (SideLamp(b) == SideLamp(a) || SideLamp(b) == LampAfter(SideLamp(a)))
            && (MainLamp(a) == Green ==> MainLamp(b) != Red)
            && (SideLamp(a) == Green ==> SideLamp(b) != Red)
  {
  }

  /** `Next` follows the loop body and wraps round to its first block. */
  lemma NextFollowsLoop(i: nat)
    requires i < 4
    ensures Next(Cycle[i]) == Cycle[(i + 1) % 4]
  {
  }

  /** After four phase changes the sequencer is back where it started. */
  lemma {:induction false} PhaseAfterPeriodic(p: Phase, n: nat)
    ensures PhaseAfter(p, n) == PhaseAfter(p, n % 4)
  {
    if n >= 4 {
      PhaseAfterPeriodic(p, n - 4);
      assert (n - 4) % 4 == n % 4;
      PhaseAfterAdd4(p, n - 4);
    }
  }

  lemma PhaseAfterAdd4(p: Phase, n: nat)
    ensures PhaseAfter(p, n + 4) == PhaseAfter(p, n)
  {
    var q := PhaseAfter(p, n);
    assert PhaseAfter(p, n + 1) == Next(q);
    assert PhaseAfter(p, n + 2) == Next(Next(q));
    assert PhaseAfter(p, n + 3) == Next(Next(Next(q)));
    assert PhaseAfter(p, n + 4) == Next(Next(Next(Next(q))));
  }

  /** Starting from the first block, the i-th phase shown is the (i mod 4)-th block of the loop. */
  lemma {:induction false} PhaseAfterIsCycle(i: nat)
    ensures PhaseAfter(MainGreenSideRed, i) == Cycle[i % 4]
  {
    PhaseAfterPeriodic(MainGreenSideRed, i);
    var j := i % 4;
    assert PhaseAfter(MainGreenSideRed, 1) == Cycle[1];
    assert PhaseAfter(MainGreenSideRed, 2) == Cycle[2];
    assert PhaseAfter(MainGreenSideRed, 3) == Cycle[3];
  }

  // ---------------------------------------------------------------------------
  // The schedule: what the loop shows, and for how long

  /** One `time.sleep`: the outputs shown during it and its length in seconds. */
  datatype Hold = Hold(outputs: Outputs, seconds: nat)

  function PhaseHold(p: Phase): Hold {
    Hold(PhaseOutputs(p), HoldTime(p))
  }

  /** The holds of one pass through the loop body. */
  function CycleHolds(): seq<Hold> {
    [PhaseHold(Cycle[0]), PhaseHold(Cycle[1]), PhaseHold(Cycle[2]), PhaseHold(Cycle[3])]
  }

  /** The holds of the first k passes through the loop. */
  function Schedule(k: nat): seq<Hold> {
    if k == 0 then [] else Schedule(k - 1) + CycleHolds()
  }

  /** Total time of a sequence of holds. */
  function Duration(hs: seq<Hold>): nat {
    if hs == [] then 0 else Duration(hs[..|hs| - 1]) + hs[|hs| - 1].seconds
  }

  /** The i-th hold of the schedule shows the i-th phase of the state machine for that phase's time. */
  lemma {:induction false} ScheduleAt(k: nat, i: nat)
    ensures |Schedule(k)| == 4 * k
    ensures i < 4 * k ==> Schedule(k)[i] == PhaseHold(PhaseAfter(MainGreenSideRed, i))
  {
    if k > 0 {
      ScheduleAt(k - 1, i);
      PhaseAfterIsCycle(i);
      if i >= 4 * (k - 1) && i < 4 * k {
        var j := i - 4 * (k - 1);
        assert i % 4 == j;
        assert Schedule(k)[i] == CycleHolds()[j];
      }
    }
  }

  lemma {:induction false} DurationAppend(a: seq<Hold>, b: seq<Hold>)
    ensures Duration(a + b) == Duration(a) + Duration(b)
  {
    if b != [] {
      var c := a + b;
      assert c[..|c| - 1] == a + b[..|b| - 1];
      assert c[|c| - 1] == b[|b| - 1];
      DurationAppend(a, b[..|b| - 1]);
    } else {
      assert a + b == a;
    }
  }

  /** One pass takes 8 + 2 + 8 + 2 = 20 seconds, so k passes take 20k seconds. */
  lemma {:induction false} ScheduleDuration(k: nat)
    ensures Duration(Schedule(k)) == 20 * k
  {
    if k > 0 {
      ScheduleDuration(k - 1);
      DurationAppend(Schedule(k - 1), CycleHolds());
      var c := CycleHolds();
      assert c[..1][..0] == [];
      assert Duration(c[..1]) == TimeMainGreen;
      assert Duration(c[..2]) == TimeMainGreen + TimeMainYellow;
      assert c[..3][..2] == c[..2] && c[..2][..1] == c[..1];
      assert Duration(c[..3]) == 2 * TimeMainGreen + TimeMainYellow;
      assert Duration(c) == 20;
    }
  }

  /** During every hold of the schedule each head shows exactly one lamp, and the heads never conflict. */
  lemma ScheduleSafe(k: nat, i: nat)
    requires i < |Schedule(k)|
    ensures OneLampEach(Schedule(k)[i].outputs) && NoConflict(Schedule(k)[i].outputs)
  {
    ScheduleAt(k, i);
    PhaseTableSafe(PhaseAfter(MainGreenSideRed, i));
  }

  /** After one full pass (20 seconds) the outputs are exactly those of the first phase again. */
  lemma ScheduleReturns(k: nat)
    ensures |Schedule(k + 1)| == 4 * k + 4
    ensures Schedule(k + 1)[4 * k] == Schedule(1)[0] == PhaseHold(MainGreenSideRed)
    ensures Duration(Schedule(k + 1)[..4 * k]) == 20 * k
  {
    ScheduleAt(k + 1, 4 * k);
    ScheduleAt(1, 0);
    PhaseAfterIsCycle(4 * k);
    ScheduleAt(k, 0);
    assert Schedule(k + 1)[..4 * k] == Schedule(k);
    ScheduleDuration(k);
  }

  /**
   * The outputs after the first n of a block's six writes, starting from o:
   * the loop writes main red, yellow, green, then side red, yellow, green.
   */
  function AfterWrites(o: Outputs, p: Phase, n: nat): Outputs
    requires n <= 6
  {
    var t := PhaseOutputs(p);
    Outputs(if n >= 1 then t.mainRed else o.mainRed,
            if n >= 2 then t.mainYellow else o.mainYellow,
            if n >= 3 then t.mainGreen else o.mainGreen,
            if n >= 4 then t.sideRed else o.sideRed,
            if n >= 5 then t.sideYellow else o.sideYellow,
            if n >= 6 then t.sideGreen else o.sideGreen)
  }

  /**
   * The loop writes the six outputs one by one, so a head can briefly show
   * two lamps or none: going from main green to main yellow, main yellow is
   * raised (second write) before main green is dropped (third write); going
   * from main red to main green, red is dropped (first write) before green
   * is raised (third write), and main green is then lit while the side head
   * still shows yellow, until side red is raised (fourth write). The
   * schedule's safety holds during the holds only.
   */
  lemma WritesAreNotAtomic()
    ensures var o := AfterWrites(PhaseOutputs(MainGreenSideRed), MainYellowSideRed, 2);
            o.mainYellow && o.mainGreen && !OneLampEach(o)
    ensures var o := AfterWrites(PhaseOutputs(MainRedSideYellow), MainGreenSideRed, 1);
            !o.mainRed && !o.mainYellow && !o.mainGreen
    ensures var o := AfterWrites(PhaseOutputs(MainRedSideYellow), MainGreenSideRed, 3);
            o.mainGreen && o.sideYellow && !NoConflict(o)
  {
  }

  // ---------------------------------------------------------------------------
  // The board as the run-loop drives it

  class Board {
    var level: map<int, bool>     // GPIO output levels by BCM pin
    var holds: seq<Hold>          // every time.sleep so far
    var cleanedUp: bool           // GPIO.cleanup() has run
    var exitStatus: Option<int>   // the status passed to sys.exit

    ghost predicate Valid()
      reads this
    {
      OutputPins <= level.Keys
    }

    /**
     * GPIO not yet cleaned up and the process not exited: pins can only be
     * written, and the loop can only sleep, in this state.
     */
    predicate Live()
      reads this
    {
      !cleanedUp && exitStatus.None?
    }

    /** The six outputs as the lamps show them. */
    function Shown(): Outputs
      reads this
      requires Valid()
    {
      Outputs(level[MainRedPin], level[MainYellowPin], level[MainGreenPin],
              level[SideRedPin], level[SideYellowPin], level[SideGreenPin])
    }

    /** `GPIO.setup` of the six pins as outputs; their levels are whatever the hardware held. */
    constructor (initial: Outputs)
      ensures Valid() && Shown() == initial && level.Keys == OutputPins
      ensures holds == [] && !cleanedUp && exitStatus == None
    {
      level := map[MainRedPin := initial.mainRed, MainYellowPin := initial.mainYellow,
                   MainGreenPin := initial.mainGreen, SideRedPin := initial.sideRed,
                   SideYellowPin := initial.sideYellow, SideGreenPin := initial.sideGreen];
      holds := [];
      cleanedUp := false;
      exitStatus := None;
    }

    /** `GPIO.output(pin, value)` on one of the six configured pins. */
    method Output(pin: int, value: bool)
      requires pin in OutputPins && Live()
      modifies this
      ensures level == old(level)[pin := value]
      ensures holds == old(holds) && cleanedUp == old(cleanedUp) && exitStatus == old(exitStatus)
    {
      level := level[pin := value];
    }

    /** `time.sleep(seconds)`: the outputs stay as they are for that long. */
    method Sleep(seconds: nat)
      requires Valid() && Live()
      modifies this
      ensures Valid() && level == old(level)
      ensures holds == old(holds) + [Hold(old(Shown()), seconds)]
      ensures cleanedUp == old(cleanedUp) && exitStatus == old(exitStatus)
    {
      holds := holds + [Hold(Shown(), seconds)];
    }

    /** One block of the loop body: main red, yellow, green, then side red, yellow, green, then sleep. */
    method ShowPhase(p: Phase)
      requires Valid() && Live()
      modifies this
      ensures Valid() && Shown() == PhaseOutputs(p) && level.Keys == old(level.Keys)
      ensures holds == old(holds) + [PhaseHold(p)]
      ensures cleanedUp == old(cleanedUp) && exitStatus == old(exitStatus)
    {
      var o := PhaseOutputs(p);
      ghost var start := Shown();
      // after each write the lamps show AfterWrites(start, p, n)
      Output(MainRedPin, o.mainRed);
      assert Shown() == AfterWrites(start, p, 1);
      Output(MainYellowPin, o.mainYellow);
      assert Shown() == AfterWrites(start, p, 2);
      Output(MainGreenPin, o.mainGreen);
      assert Shown() == AfterWrites(start, p, 3);
      Output(SideRedPin, o.sideRed);
      assert Shown() == AfterWrites(start, p, 4);
      Output(SideYellowPin, o.sideYellow);
      assert Shown() == AfterWrites(start, p, 5);
      Output(SideGreenPin, o.sideGreen);
      assert Shown() == AfterWrites(start, p, 6);
      Sleep(HoldTime(p));
    }

    /** The `while True` loop, followed for its first `passes` passes. */
    method Run(passes: nat)
      requires Valid() && Live()
      modifies this
      ensures Valid()
      ensures holds == old(holds) + Schedule(passes)
      ensures passes > 0 ==> Shown() == PhaseOutputs(MainRedSideYellow)
      ensures cleanedUp == old(cleanedUp) && exitStatus == old(exitStatus)
    {
      var k := 0;
      while k < passes
        invariant 0 <= k <= passes
        invariant Valid()
        invariant holds == old(holds) + Schedule(k)
        invariant k > 0 ==> Shown() == PhaseOutputs(MainRedSideYellow)
        invariant cleanedUp == old(cleanedUp) && exitStatus == old(exitStatus)
      {
        ShowPhase(MainGreenSideRed);
        ShowPhase(MainYellowSideRed);
        ShowPhase(MainRedSideGreen);
        ShowPhase(MainRedSideYellow);
        k := k + 1;
      }
    }

    /** `allLightsOff`, the SIGINT handler: all six outputs low, then `GPIO.cleanup()`, then `sys.exit(0)`. */
    method AllLightsOff()
      requires Valid() && Live()
      modifies this
      ensures Valid() && Shown() == AllOff
      ensures cleanedUp && exitStatus == Some(0) && holds == old(holds)
    {
      Output(MainRedPin, false);
      Output(MainYellowPin, false);
      Output(MainGreenPin, false);
      Output(SideRedPin, false);
      Output(SideYellowPin, false);
      Output(SideGreenPin, false);
      assert Shown() == AllOff;
      cleanedUp := true;
      exitStatus := Some(0);
    }
  }

}
