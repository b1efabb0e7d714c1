/** The traffic taxonomy: four classes and the constants every other module reads. */
module Traffic {
  datatype TrafficClass = Emergency | Telemetry | ScienceBulk | Media

  datatype ClassSpec = ClassSpec(
    rank: nat,
    utilityWeight: real,
    defaultTtl: real,
    queueBudget: real)

  function Spec(c: TrafficClass): ClassSpec {
    match c
    case Emergency => ClassSpec(0, 100.0, 300.0, 1.0)
    case Telemetry => ClassSpec(1, 10.0, 3600.0, 10.0)
    case ScienceBulk => ClassSpec(2, 1.0, 57600.0, 1.0)
    case Media => ClassSpec(3, 0.0, 3600.0, 1.0)
  }

  function Rank(c: TrafficClass): nat {
    Spec(c).rank
  }
}
