/** What the gate assumes about an apply container, and why the processes that run in it keep it. */
module Handover {
  import opened Wrappers
  import opened Engines
  import opened Completion
  import opened Admission

  /** The container's exit is a step of the gate whatever the host makes of the report: where it accepts, no
      mutating request is in flight. Both processes end with an honest report. */
  lemma AcceptedExitIsOver(s: State, m: Id, lines: seq<Line>, log: seq<Entry>, n: nat, exit: int, host: Host)
    requires m in s.containers && s.containers[m] == Container.Running(InFlight(log))
    requires Honest(lines, log) && n <= |lines|
    ensures CanWork(s, m, ContainerExits(Accepts(lines[..n], exit, host)))
  {
  }
}
