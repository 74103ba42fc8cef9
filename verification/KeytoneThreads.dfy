/** The two threads over the shared record: their critical sections, and any schedule of them. */
module KeytoneThreads {
  import opened KeytoneProtocol

  class Keytone {
    var state: Render
    var createdFlag: bool
    var source: Source
    var pending: nat

    /** Where the two threads are, and the renderer's own variables. */
    var controller: Controller
    var renderer: Renderer
    var playing: Source
    var size: nat

    ghost var log: seq<Effect>

    ghost function Value(): State
      reads this
    {
      State(state, createdFlag, controller, renderer, source, pending, playing, size, log)
    }

    constructor ()
      ensures Value() == Initial && Inv(Value())
    {
      state, createdFlag, source, pending := Ready, false, Closed, 0;
      controller, renderer, playing, size := Reading, NotRunning, Closed, 0;
      log := [];
    }

    // ------------------------------------------------------------ the controller

    /** A request was read: a tone that plays is stopped first, and waited for. */
    method Request(outcome: Outcome, file: nat, bytes: nat)
      requires controller == Reading
      modifies this
      ensures Value() == Step(old(Value()), Control(outcome, file, bytes))
    {
      if state == Started {
        state := Stop;
        controller := Waiting;
        return;
      }
      HandOver(outcome, file, bytes);
    }

    /** The renderer has answered; the request goes on. */
    method GoOn(outcome: Outcome, file: nat, bytes: nat)
      requires controller == Woken
      modifies this
      ensures Value() == Step(old(Value()), Control(outcome, file, bytes))
    {
      HandOver(outcome, file, bytes);
    }

    method HandOver(outcome: Outcome, file: nat, bytes: nat)
      modifies this
      ensures Value() == Serve(old(Value()), outcome, file, bytes)
    {
      controller := Reading;
      if outcome == OpenFails { return; }
      source := Mapped(file);
      if outcome == ParseFails {
        source := Closed;
        return;
      }
      pending := bytes;
      if !createdFlag {
        if outcome == CreateFails {
          source := Closed;
          return;
        }
        log := log + [DeviceOpened];
        createdFlag := true;
      }
      if renderer == NotRunning { renderer := AtTop; }
      if state == StoppedWait || state == TimedWait { renderer := SignalRenderer(renderer); }
      state := Start;
    }

    // -------------------------------------------------------------- the renderer

    method Top()
      requires renderer == AtTop
      modifies this
      ensures forall period :: Value() == Step(old(Value()), Advance(period))
    {
      if state == Stopped {
        state := StoppedWait;
        renderer := WaitStopped;
        return;
      }
      TakeRequest();
    }

    method TopAfterWait()
      requires renderer == WokenStopped
      modifies this
      ensures forall period :: Value() == Step(old(Value()), Advance(period))
    {
      TakeRequest();
    }

    method TakeRequest()
      modifies this
      ensures Value() == TakeOver(old(Value()))
    {
      if state == Start {
        playing := source;
        size := pending;
        state := Started;
      }
      renderer := AtCheck;
    }

    /** Is there anything left to play, and may it be played? If not, the file is closed. */
    method Check()
      requires renderer == AtCheck
      modifies this
      ensures forall period :: Value() == Step(old(Value()), Advance(period))
    {
      if size == 0 || state == Stop {
        playing := Closed;
        renderer := AtFinish;
      } else {
        renderer := AtWrite;
      }
    }

    method Write(period: nat)
      requires renderer == AtWrite
      modifies this
      ensures Value() == Step(old(Value()), Advance(period))
    {
      if size < period {
        log := log + [DeviceWritten];
        log := log + [DeviceWritten];
        log := log + [DeviceWritten];
        size := 0;
      } else {
        log := log + [DeviceWritten];
        size := size - period;
      }
      renderer := AtCheck;
    }

    /** Answers a stop, or waits some time for the next request with the device open. */
    method Finish()
      requires renderer == AtFinish
      modifies this
      ensures forall period :: Value() == Step(old(Value()), Advance(period))
    {
      if state == Stop {
        state := Stopped;
        controller := SignalController(controller);
        renderer := AtTop;
      } else {
        state := TimedWait;
        renderer := WaitTimed;
      }
    }

    /** Signalled, or timed out: the device is closed unless a request came in between. */
    method AfterTimedWait()
      requires renderer.WokenTimed?
      modifies this
      ensures forall period :: Value() == Step(old(Value()), Advance(period))
    {
      if renderer.timedOut && state != Start {
        log := log + [DeviceClosed];
        createdFlag := false;
        state := Stopped;
      }
      renderer := AtTop;
    }

    method ExpireTimer()
      modifies this
      ensures Value() == Step(old(Value()), Timeout)
    {
      if renderer == WaitTimed { renderer := WokenTimed(true); }
    }

    // ------------------------------------------------------------- both threads

    /** Which critical section a move of a thread is, by where that thread stands. */
    method Act(a: Action)
      modifies this
      ensures Value() == Step(old(Value()), a)
    {
      match a {
        case Control(outcome, file, bytes) => MoveController(outcome, file, bytes);
        case Advance(period) => MoveRenderer(period);
        case Timeout => ExpireTimer();
      }
    }

    method MoveController(outcome: Outcome, file: nat, bytes: nat)
      modifies this
      ensures Value() == Step(old(Value()), Control(outcome, file, bytes))
    {
      match controller {
        case Reading => Request(outcome, file, bytes);
        case Woken => GoOn(outcome, file, bytes);
        case Waiting =>
      }
    }

    method MoveRenderer(period: nat)
      modifies this
      ensures Value() == Step(old(Value()), Advance(period))
    {
      match renderer {
        case AtTop => Top();
        case WokenStopped => TopAfterWait();
        case AtCheck => Check();
        case AtWrite => Write(period);
        case AtFinish => Finish();
        case WokenTimed(_) => AfterTimedWait();
        case _ =>
      }
    }

    /** Any schedule of the two threads: the shared record ends up as the protocol says,
        and whatever the schedule, the renderer plays only with an open device, the two
        never both wait, and a request handed over never meets a sleeping renderer. */
    method RunSchedule(actions: seq<Action>)
      requires Inv(Value())
      modifies this
      ensures Value() == KeytoneProtocol.Run(old(Value()), actions) && Inv(Value())
      ensures Playing(renderer) ==> (state == Started || state == Stop) && createdFlag
      ensures !(controller == Waiting && RendererWaits(renderer))
      ensures state == Start ==> createdFlag && !RendererWaits(renderer) && renderer != NotRunning
      ensures Legal(log) && IsOpen(log) == createdFlag
    {
      hide Step, Inv;
      var i := 0;
      while i < |actions|
        invariant i <= |actions| && Inv(Value())
        invariant Value() == KeytoneProtocol.Run(old(Value()), actions[..i])
      {
        assert actions[..i + 1][..i] == actions[..i];
        InvStep(Value(), actions[i]);
        Act(actions[i]);
        i := i + 1;
      }
      assert actions[..i] == actions;
      InvIsSafe(Value());
    }
  }
}
