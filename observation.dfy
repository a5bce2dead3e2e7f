/** The documented observation of a web client HTTP exchange: the single
    observation kind, and the key names it declares to the recording
    pipeline. */
module WebClientObservations {
  import opened Sequences
  import opened WebClientKeyNames

  /** The constants of the `WebClientObservation` enum. */
  datatype WebClientObservation = HttpRequest

  /** `getLowCardinalityKeyNames()`: the whole low-cardinality registry, in
      declaration order. */
  function GetLowCardinalityKeyNames(obs: WebClientObservation): (r: seq<LowCardinalityKeyName>)
    ensures LowKeys(r) == ["method", "uri", "status", "exception", "outcome"]
  {
    LowRegistryKeys();
    LowValues()
  }

  /** `getHighCardinalityKeyNames()`: the whole high-cardinality registry,
      in declaration order. */
  function GetHighCardinalityKeyNames(obs: WebClientObservation): (r: seq<HighCardinalityKeyName>)
    ensures HighKeys(r) == ["uri.expanded", "client.name"]
  {
    HighRegistryKeys();
    HighValues()
  }

  /** Every key an observation declares, low-cardinality first. */
  function AllKeys(obs: WebClientObservation): seq<string> {
    LowKeys(GetLowCardinalityKeyNames(obs)) + HighKeys(GetHighCardinalityKeyNames(obs))
  }

  /** No two tags an observation declares share a key, whichever registry
      they come from. */
  lemma AllKeysDistinct(obs: WebClientObservation)
    ensures PairwiseDistinct(AllKeys(obs))
  {
  }
}
