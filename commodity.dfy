/** The two monitored commodities and the run's configuration. */
module Commodity {

  datatype Kind = Electricity | Gas

  /** The alert threshold per commodity, fixed for a run. */
  datatype Config = Config(electricityTarget: real, gasTarget: real) {
    function Target(kind: Kind): real {
      match kind
      case Electricity => electricityTarget
      case Gas => gasTarget
    }
  }

  /** The thresholds used when the environment does not set them. */
  const DefaultConfig := Config(0.11, 0.85)

}
