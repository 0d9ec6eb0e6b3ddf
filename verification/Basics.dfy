/** The vocabulary shared by all components. */
module Basics {

  datatype Option<+T> = None | Some(value: T)

  function Max(a: real, b: real): real {
    if a > b then a else b
  }

  function Min(a: real, b: real): real {
    if a < b then a else b
  }

  /** Result codes, numbered so that taking the maximum keeps the worst outcome. */
  datatype Result =
    | Ok
    | R4XX
    | R5XX
    | QueueFull
    | RamCapacity
    | CpuShutdown
    | WorkerShutdown
    | NotSteady
    | InvalidScaling
    | DisabledQueue
    | InvalidIndex
  {
    function Code(): nat {
      match this
      case Ok => 0
      case R4XX => 1
      case R5XX => 2
      case QueueFull => 3
      case RamCapacity => 4
      case CpuShutdown => 5
      case WorkerShutdown => 6
      case NotSteady => 7
      case InvalidScaling => 8
      case DisabledQueue => 9
      case InvalidIndex => 10
    }

    predicate IsError() {
      Code() >= 2
    }

    /** What a worker answers its caller for an inner result. */
    function Response(): Result {
      if IsError() then R5XX else R4XX
    }
  }
}
