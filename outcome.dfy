/** The outcome of a web client exchange: a coarse bucket derived from the
    HTTP status code of the response, rendered as an `outcome` tag whose
    value is the bucket's constant name.

    The buckets are the status-code classes of section 15 of RFC 9110: the
    first digit of a three-digit code gives the class (1xx informational,
    2xx successful, 3xx redirection, 4xx client error, 5xx server error);
    every other integer is classified as unknown. */
module WebClientOutcome {
  import opened Sequences

  /** Java's `int`, the type of the status code handed to the classifier. */
  type Int32 = x: int | -0x8000_0000 <= x < 0x8000_0000

  /** The constants of the `Outcome` enum, in declaration order. */
  datatype Outcome = Informational | Success | Redirection | ClientError | ServerError | Unknown

  /** A tag: a key and its value. */
  datatype KeyValue = KeyValue(key: string, value: string)

  /** `Outcome.values()`: the constants in declaration order, each once. */
  function Values(): (r: seq<Outcome>)
    ensures |r| == 6 && PairwiseDistinct(r)
  {
    [Informational, Success, Redirection, ClientError, ServerError, Unknown]
  }

  /** `ordinal()`: the position of a constant in the declaration. */
  function Ordinal(o: Outcome): (n: nat)
    ensures n < |Values()| && Values()[n] == o
  {
    match o
    case Informational => 0
    case Success => 1
    case Redirection => 2
    case ClientError => 3
    case ServerError => 4
    case Unknown => 5
  }

  predicate IsConstantNameChar(c: char) {
    'A' <= c <= 'Z' || c == '_'
  }

  /** `name()`: the constant's identifier exactly as declared, an upper-case
      word or words joined by underscores. */
  function Name(o: Outcome): (r: string)
    ensures forall i :: 0 <= i < |r| ==> IsConstantNameChar(r[i])
  {
    match o
    case Informational => "INFORMATIONAL"
    case Success => "SUCCESS"
    case Redirection => "REDIRECTION"
    case ClientError => "CLIENT_ERROR"
    case ServerError => "SERVER_ERROR"
    case Unknown => "UNKNOWN"
  }

  /** `asKeyValue()`: the tag an outcome contributes to an observation. Its
      key is the outcome key name of the blocking HTTP client's registry,
      which is not part of this model and is passed in as `outcomeKey`; its
      value is the constant's name. */
  function AsKeyValue(o: Outcome, outcomeKey: string): (kv: KeyValue)
    ensures kv.key == outcomeKey
    ensures kv.value == Name(o)
    ensures kv.value ==
      ["INFORMATIONAL", "SUCCESS", "REDIRECTION", "CLIENT_ERROR", "SERVER_ERROR", "UNKNOWN"][Ordinal(o)]
  {
    KeyValue(outcomeKey, Name(o))
  }

  /** The names of a sequence of outcomes, in order. */
  function Names(os: seq<Outcome>): seq<string> {
    seq(|os|, i requires 0 <= i < |os| => Name(os[i]))
  }

  /** Read in declaration order, the constants render exactly as declared. */
  lemma DeclaredNames()
    ensures Names(Values()) ==
      ["INFORMATIONAL", "SUCCESS", "REDIRECTION", "CLIENT_ERROR", "SERVER_ERROR", "UNKNOWN"]
  {
  }

  /** `Outcome.forStatus(status)`: the bucket a status code falls in. */
  function ForStatus(status: Int32): (r: Outcome)
    ensures r == Unknown <==> status < 100 || 600 <= status
    ensures r != Unknown ==> Ordinal(r) == status / 100 - 1
  {
    if 100 <= status < 200 then Informational
    else if 200 <= status < 300 then Success
    else if 300 <= status < 400 then Redirection
    else if 400 <= status < 500 then ClientError
    else if 500 <= status < 600 then ServerError
    else Unknown
  }

  /** The class of a status code under section 15 of RFC 9110: the first
      digit of a three-digit code, and 0 for anything that is not one. */
  function ResponseClass(status: int): nat {
    if 100 <= status <= 999 then status / 100 else 0
  }

  /** The outcome that names each class RFC 9110 defines. */
  function ClassOutcome(c: nat): Outcome {
    match c
    case 1 => Informational
    case 2 => Success
    case 3 => Redirection
    case 4 => ClientError
    case 5 => ServerError
    case _ => Unknown
  }

  /** The classifier agrees with RFC 9110's classes: a code in one of the
      five defined classes gets that class's outcome, anything else
      (negative, below 100, a 6xx to 9xx code, four digits or more) gets
      `Unknown`. */
  lemma ForStatusFollowsRfc9110(status: Int32)
    ensures ForStatus(status) == ClassOutcome(ResponseClass(status))
  {
  }

  /** The lowest and one past the highest status of an outcome's band. */
  function BandStart(o: Outcome): int { 100 * (Ordinal(o) + 1) }
  function BandEnd(o: Outcome): int { 100 * (Ordinal(o) + 2) }

  /** Each of the five defined outcomes is produced by exactly the codes of
      its 100-wide band, and by no other. */
  lemma ForStatusBand(status: Int32, o: Outcome)
    requires o != Unknown
    ensures ForStatus(status) == o <==> BandStart(o) <= status < BandEnd(o)
  {
  }

  /** Inside [100, 600) the outcome depends only on the hundreds digit:
      two codes share an outcome exactly when they share that digit. */
  lemma ForStatusByHundreds(s: Int32, t: Int32)
    requires 100 <= s < 600 && 100 <= t < 600
    ensures ForStatus(s) == ForStatus(t) <==> s / 100 == t / 100
  {
  }

  /** Inside [100, 600) a larger code never gets an outcome declared earlier. */
  lemma ForStatusMonotone(s: Int32, t: Int32)
    requires 100 <= s <= t < 600
    ensures Ordinal(ForStatus(s)) <= Ordinal(ForStatus(t))
  {
  }

  /** Every outcome is produced by some status code. */
  lemma ForStatusOnto(o: Outcome)
    ensures exists status: Int32 :: ForStatus(status) == o
  {
    if o == Unknown {
      assert ForStatus(0) == o;
    } else {
      ForStatusBand(BandStart(o), o);
      assert ForStatus(BandStart(o)) == o;
    }
  }

  /** Distinct outcomes carry distinct tag values, so the `outcome` tag
      identifies the outcome. */
  lemma AsKeyValueInjective(o: Outcome, o': Outcome, outcomeKey: string)
    ensures AsKeyValue(o, outcomeKey) == AsKeyValue(o', outcomeKey) <==> o == o'
  {
  }
}
