/**
 * The Bartels micropump transmitter. The serial port is a log of what was
 * written to it (and of the pauses between writes); the controller's replies
 * are ignored, as the source discards them.
 */
module Bartels {
  import opened Commands
  import opened Timeline

  /** What the transmitter did to its port, in order. */
  datatype PortEntry = Wrote(command: Command) | Slept(ms: int)

  /** The all-zero voltage command, written literally by the source. */
  const AllOff: Command := SetAll([0, 0, 0, 0])

  /** The switch-off sequence `micropump_set_state(False)` writes. */
  const SwitchOffEntries: seq<PortEntry> :=
    [Wrote(PowerOff), Wrote(AllOff), Slept(100), Wrote(PowerOff), Wrote(AllOff)]

  /**
   * The class variable `BartelsTransmitter.stopped`: one flag shared by every
   * transmitter of the process.
   */
  class StopFlag {
    var stopped: bool

    constructor ()
      ensures !stopped
    {
      stopped := false;
    }
  }

  /**
   * The port entries for issuing the first `k` steps of a timeline: the first
   * vector at once, then before each further vector a pause of the time
   * between the two steps.
   */
  function ReplayLog(steps: seq<Step>, k: nat): (r: seq<PortEntry>)
    requires k <= |steps|
  {
    if k == 0 then []
    else if k == 1 then [Wrote(SetAll(steps[0].volts))]
    else ReplayLog(steps, k - 1) + [Slept(steps[k - 1].at - steps[k - 2].at), Wrote(SetAll(steps[k - 1].volts))]
  }

  /** The commands among port entries, in order. */
  function Written(log: seq<PortEntry>): (r: seq<Command>) {
    if log == [] then []
    else Written(log[..|log| - 1]) + (if log[|log| - 1].Wrote? then [log[|log| - 1].command] else [])
  }

  /** The pauses among port entries, in order. */
  function Pauses(log: seq<PortEntry>): (r: seq<int>) {
    if log == [] then []
    else Pauses(log[..|log| - 1]) + (if log[|log| - 1].Slept? then [log[|log| - 1].ms] else [])
  }

  lemma WrittenPush(log: seq<PortEntry>, e: PortEntry)
    ensures Written(log + [e]) == Written(log) + (if e.Wrote? then [e.command] else [])
    ensures Pauses(log + [e]) == Pauses(log) + (if e.Slept? then [e.ms] else [])
  {
    assert (log + [e])[..|log + [e]| - 1] == log;
  }

  /** The voltage commands of the first k steps. */
  function StepCommands(steps: seq<Step>, k: nat): (r: seq<Command>)
    requires k <= |steps|
    ensures |r| == k
  {
    if k == 0 then [] else StepCommands(steps, k - 1) + [SetAll(steps[k - 1].volts)]
  }

  lemma {:induction false} StepCommandsAt(steps: seq<Step>, k: nat, i: nat)
    requires i < k <= |steps|
    ensures StepCommands(steps, k)[i] == SetAll(steps[i].volts)
  {
    if i < k - 1 {
      StepCommandsAt(steps, k - 1, i);
    }
  }

  /** Issuing k steps writes exactly the commands of those k steps, in order. */
  lemma {:induction false} ReplayWritesEachStep(steps: seq<Step>, k: nat)
    requires k <= |steps|
    ensures Written(ReplayLog(steps, k)) == StepCommands(steps, k)
    ensures forall i :: 0 <= i < k ==> Written(ReplayLog(steps, k))[i] == SetAll(steps[i].volts)
  {
    ReplayWritesStepCommands(steps, k);
    forall i | 0 <= i < k
      ensures StepCommands(steps, k)[i] == SetAll(steps[i].volts)
    {
      StepCommandsAt(steps, k, i);
    }
  }

  lemma {:induction false} ReplayWritesStepCommands(steps: seq<Step>, k: nat)
    requires k <= |steps|
    ensures Written(ReplayLog(steps, k)) == StepCommands(steps, k)
  {
    if k == 1 {
      var first := Wrote(SetAll(steps[0].volts));
      WrittenPush([], first);
      assert [] + [first] == ReplayLog(steps, 1);
    } else if k > 1 {
      ReplayWritesStepCommands(steps, k - 1);
      var prev := ReplayLog(steps, k - 1);
      var gap := Slept(steps[k - 1].at - steps[k - 2].at);
      var cmd := Wrote(SetAll(steps[k - 1].volts));
      WrittenPush(prev, gap);
      WrittenPush(prev + [gap], cmd);
      assert prev + [gap] + [cmd] == ReplayLog(steps, k);
    }
  }

  /** Before each command but the first, the replay waits the time between the two steps. */
  lemma {:induction false} ReplayWaitsBetweenSteps(steps: seq<Step>, k: nat)
    requires 0 < k <= |steps|
    ensures |Pauses(ReplayLog(steps, k))| == k - 1
    ensures forall n :: 0 <= n < k - 1 ==> Pauses(ReplayLog(steps, k))[n] == steps[n + 1].at - steps[n].at
  {
    if k == 1 {
      WrittenPush([], Wrote(SetAll(steps[0].volts)));
      assert [] + [Wrote(SetAll(steps[0].volts))] == ReplayLog(steps, 1);
    } else {
      ReplayWaitsBetweenSteps(steps, k - 1);
      var prev := ReplayLog(steps, k - 1);
      var gap := Slept(steps[k - 1].at - steps[k - 2].at);
      var cmd := Wrote(SetAll(steps[k - 1].volts));
      WrittenPush(prev, gap);
      WrittenPush(prev + [gap], cmd);
      assert prev + [gap] + [cmd] == ReplayLog(steps, k);
    }
  }

  class BartelsTransmitter {
    const flag: StopFlag
    var log: seq<PortEntry>

    /**
     * Construction on an opened port ends by switching the pumps off, which raises
     * the shared flag. Opening the port and the identity handshake are not modelled.
     */
    constructor (flag: StopFlag)
      modifies flag
      ensures this.flag == flag && flag.stopped
      ensures log == SwitchOffEntries
    {
      this.flag := flag;
      log := [];
      new;
      SetState(false);
    }

    /** `micropump_set_state`: switching on clears the shared flag, switching off raises it. */
    method SetState(on: bool)
      modifies this, flag
      ensures flag.stopped == !on
      ensures log == old(log) + if on then [Wrote(PowerOn)] else SwitchOffEntries
    {
      if on {
        flag.stopped := false;
        log := log + [Wrote(PowerOn)];
      } else {
        flag.stopped := true;
        log := log + [Wrote(PowerOff), Wrote(AllOff)];
        log := log + [Slept(100)];
        log := log + [Wrote(PowerOff), Wrote(AllOff)];
      }
    }

    /** `shutdown`: switch off; closing the port is not modelled. */
    method Shutdown()
      modifies this, flag
      ensures flag.stopped
      ensures log == old(log) + SwitchOffEntries
    {
      SetState(false);
    }

    /** `micropump_set_all_voltages`: one voltage command. */
    method SetAllVoltages(v: Vec)
      modifies this
      ensures log == old(log) + [Wrote(SetAll(v))]
    {
      log := log + [Wrote(SetAll(v))];
    }

    /**
     * A read of the shared flag. `interrupted` says whether another thread
     * switched the pumps off since the previous read.
     */
    method IsStopped(interrupted: bool) returns (stopped: bool)
      modifies flag
      ensures flag.stopped == (old(flag.stopped) || interrupted)
      ensures stopped == flag.stopped
    {
      if interrupted {
        flag.stopped := true;
      }
      stopped := flag.stopped;
    }

    /**
     * `micropump_set_all_voltages_duration`: the on-vector is written without
     * looking at the flag; after the pause the off-vector follows only if the
     * flag is still clear. A zero duration does nothing.
     */
    method SetAllVoltagesDuration(on: Vec, off: Vec, durationMs: nat, interrupted: bool)
      modifies this, flag
      ensures durationMs == 0 ==> log == old(log) && flag.stopped == old(flag.stopped)
      ensures durationMs > 0 ==>
        && flag.stopped == (old(flag.stopped) || interrupted)
        && log == old(log) + [Wrote(SetAll(on)), Slept(durationMs)]
                 + if flag.stopped then [] else [Wrote(SetAll(off))]
    {
      if durationMs == 0 {
        return;
      }
      SetAllVoltages(on);
      log := log + [Slept(durationMs)];
      var stopped := IsStopped(interrupted);
      if stopped {
        return;
      }
      SetAllVoltages(off);
    }

    /**
     * `micropump_set_voltage_duration`: one pulse of the channel vector as the
     * source builds it (channel 4 is `ch4 + voltage`, see `ChannelsAsWritten`),
     * then all channels off.
     */
    method SetVoltageDuration(ch1: int, ch2: int, ch3: int, ch4: int, voltage: int, durationMs: nat, interrupted: bool)
      modifies this, flag
      ensures durationMs == 0 ==> log == old(log) && flag.stopped == old(flag.stopped)
      ensures durationMs > 0 ==>
        && flag.stopped == (old(flag.stopped) || interrupted)
        && log == old(log) + [Wrote(SetAll(ChannelsAsWritten(ch1, ch2, ch3, ch4, voltage))), Slept(durationMs)]
                 + if flag.stopped then [] else [Wrote(AllOff)]
    {
      SetAllVoltagesDuration(ChannelsAsWritten(ch1, ch2, ch3, ch4, voltage), [0, 0, 0, 0], durationMs, interrupted);
    }

    /**
     * `micropump_set_voltages_with_delay`: compute the collapsed timeline and
     * replay it, reading the shared flag before every command. `interrupt(n)`
     * says whether another thread switched the pumps off just before read n.
     * The ghost results name the timeline and how many of its steps were issued.
     */
    method SetVoltagesWithDelay(on: Vec, off: Vec, delays: seq<nat>, durationMs: nat, interrupt: nat -> bool)
      returns (ghost steps: seq<Step>, ghost issued: nat)
      requires |delays| == 4
      modifies this, flag
      ensures durationMs == 0 ==> log == old(log) && flag.stopped == old(flag.stopped) && issued == 0
      ensures durationMs > 0 ==>
        && IsTimeline(on, off, delays, durationMs, steps)
        && issued <= |steps|
        && log == old(log) + ReplayLog(steps, issued)
                 + (if 0 < issued < |steps| then [Slept(steps[issued].at - steps[issued - 1].at)] else [])
        && (issued > 0 ==> !old(flag.stopped))
        && (forall n :: 0 <= n < issued ==> !interrupt(n))
        && (issued < |steps| ==> old(flag.stopped) || interrupt(issued))
        && flag.stopped == (issued < |steps|)
    {
      steps, issued := [], 0;
      if durationMs == 0 {
        return;
      }
      var timeline := ScheduleTimeline(on, off, delays, durationMs);
      steps := timeline;
      issued := Replay(timeline, interrupt);
    }

    /**
     * The replay loop of `micropump_set_voltages_with_delay`: read the flag,
     * write the step, pause until the next one; stop at the first read that
     * finds the flag raised. `issued` is how many steps were written.
     */
    method Replay(timeline: seq<Step>, interrupt: nat -> bool) returns (ghost issued: nat)
      requires |timeline| > 0
      modifies this, flag
      ensures issued <= |timeline|
      ensures log == old(log) + ReplayLog(timeline, issued)
                     + (if 0 < issued < |timeline| then [Slept(timeline[issued].at - timeline[issued - 1].at)] else [])
      ensures issued > 0 ==> !old(flag.stopped)
      ensures forall n :: 0 <= n < issued ==> !interrupt(n)
      ensures issued < |timeline| ==> old(flag.stopped) || interrupt(issued)
      ensures flag.stopped == (issued < |timeline|)
    {
      issued := 0;
      var stopped := IsStopped(interrupt(0));
      if stopped {
        return;
      }
      SetAllVoltages(timeline[0].volts);
      issued := 1;
      var n := 0;
      while n < |timeline| - 1
        invariant 0 <= n <= |timeline| - 1
        invariant issued == n + 1
        invariant log == old(log) + ReplayLog(timeline, issued)
        invariant !old(flag.stopped) && !flag.stopped
        invariant forall m :: 0 <= m < issued ==> !interrupt(m)
      {
        log := log + [Slept(timeline[n + 1].at - timeline[n].at)];
        stopped := IsStopped(interrupt(n + 1));
        if stopped {
          return;
        }
        SetAllVoltages(timeline[n + 1].volts);
        n := n + 1;
        issued := n + 1;
      }
    }
  }
}
