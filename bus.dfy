/**
 * The CAN bus as the controller sees it: a capability that sends one frame
 * now, or starts a periodic send and hands back a stoppable handle. The
 * model records what was asked of it; the transport itself is not modelled.
 */
module CanBus {
  import opened Codec

  /**
   * A periodic send that was started: the frame it repeats, its period and
   * how many times stop() has been called on its handle.
   */
  datatype Task = Task(frame: Frame, period: real, stops: nat) {
    /** Still transmitting in the background. */
    predicate Live() {
      stops == 0
    }
  }

  /** `tasks` after stop() has been called once more on handle `h`. */
  function Stopped(tasks: seq<Task>, h: nat): (r: seq<Task>)
    requires h < |tasks|
    ensures |r| == |tasks| && r[h].stops == tasks[h].stops + 1
    ensures r[h].frame == tasks[h].frame && r[h].period == tasks[h].period
    ensures forall i :: 0 <= i < |tasks| && i != h ==> r[i] == tasks[i]
  {
    tasks[h := tasks[h].(stops := tasks[h].stops + 1)]
  }

  /**
   * A recording bus. `sent` is the trace of one-shot frames in order;
   * `tasks` holds every periodic send ever started, and a handle is the
   * index of its task there.
   */
  class Bus {
    var sent: seq<Frame>
    var tasks: seq<Task>

    constructor ()
      ensures sent == [] && tasks == []
    {
      sent := [];
      tasks := [];
    }

    method Send(f: Frame)
      modifies this
      ensures sent == old(sent) + [f]
      ensures tasks == old(tasks)
    {
      sent := sent + [f];
    }

    /** Starts repeating `f` every `period` seconds; the handle is new. */
    method SendPeriodic(f: Frame, period: real) returns (h: nat)
      modifies this
      ensures h == |old(tasks)|
      ensures tasks == old(tasks) + [Task(f, period, 0)]
      ensures sent == old(sent)
    {
      h := |tasks|;
      tasks := tasks + [Task(f, period, 0)];
    }

    /** Stops the periodic send behind handle `h`; nothing else changes. */
    method Stop(h: nat)
      requires h < |tasks|
      modifies this
      ensures tasks == Stopped(old(tasks), h)
      ensures sent == old(sent)
    {
      tasks := tasks[h := tasks[h].(stops := tasks[h].stops + 1)];
    }
  }
}
