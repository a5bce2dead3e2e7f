/** The two fixed registries of tag names attached to a web client
    observation: the low-cardinality keys, whose values come from a small
    bounded set and may serve as metric dimensions, and the high-cardinality
    keys, whose values are unbounded and only fit traces.

    Each registry is a Java enum whose constants override `asString()` with a
    string literal; `values()` lists the constants in declaration order. */
module WebClientKeyNames {
  import opened Sequences

  /** The constants of `LowCardinalityKeyNames`, in declaration order. */
  datatype LowCardinalityKeyName = Method | Uri | Status | Exception | Outcome

  /** The constants of `HighCardinalityKeyNames`, in declaration order. */
  datatype HighCardinalityKeyName = UriExpanded | ClientName

  predicate IsLowerAscii(c: char) {
    'a' <= c <= 'z'
  }

  /** The lookup key of a low-cardinality tag: a plain lower-case word. */
  function LowAsString(k: LowCardinalityKeyName): (r: string)
    ensures forall i :: 0 <= i < |r| ==> IsLowerAscii(r[i])
  {
    match k
    case Method => "method"
    case Uri => "uri"
    case Status => "status"
    case Exception => "exception"
    case Outcome => "outcome"
  }

  /** The lookup key of a high-cardinality tag: two lower-case words joined
      by one dot. */
  function HighAsString(k: HighCardinalityKeyName): (r: string)
    ensures exists d :: (0 < d < |r| - 1 && r[d] == '.' &&
      forall i :: 0 <= i < |r| && i != d ==> IsLowerAscii(r[i]))
  {
    match k
    case UriExpanded =>
      var r := "uri.expanded";
      assert r[3] == '.';
      r
    case ClientName =>
      var r := "client.name";
      assert r[6] == '.';
      r
  }

  /** `LowCardinalityKeyNames.values()`: every constant exactly once, in
      declaration order. */
  function LowValues(): (r: seq<LowCardinalityKeyName>)
    ensures |r| == 5 && PairwiseDistinct(r)
  {
    [Method, Uri, Status, Exception, Outcome]
  }

  /** `HighCardinalityKeyNames.values()`: every constant exactly once, in
      declaration order. */
  function HighValues(): (r: seq<HighCardinalityKeyName>)
    ensures |r| == 2 && PairwiseDistinct(r)
  {
    [UriExpanded, ClientName]
  }

  /** `values()` leaves no low-cardinality tag out. */
  lemma LowValuesComplete(k: LowCardinalityKeyName)
    ensures k in LowValues()
  {
  }

  /** `values()` leaves no high-cardinality tag out. */
  lemma HighValuesComplete(k: HighCardinalityKeyName)
    ensures k in HighValues()
  {
  }

  /** The rendered keys of a sequence of low-cardinality tags, in order. */
  function LowKeys(ks: seq<LowCardinalityKeyName>): seq<string> {
    seq(|ks|, i requires 0 <= i < |ks| => LowAsString(ks[i]))
  }

  /** The rendered keys of a sequence of high-cardinality tags, in order. */
  function HighKeys(ks: seq<HighCardinalityKeyName>): seq<string> {
    seq(|ks|, i requires 0 <= i < |ks| => HighAsString(ks[i]))
  }

  /** The low-cardinality registry renders, in order, exactly these keys. */
  lemma LowRegistryKeys()
    ensures LowKeys(LowValues()) == ["method", "uri", "status", "exception", "outcome"]
  {
  }

  /** The high-cardinality registry renders, in order, exactly these keys. */
  lemma HighRegistryKeys()
    ensures HighKeys(HighValues()) == ["uri.expanded", "client.name"]
  {
  }

  /** Two low-cardinality tags share a key only when they are the same tag. */
  lemma LowAsStringInjective(k: LowCardinalityKeyName, k': LowCardinalityKeyName)
    ensures LowAsString(k) == LowAsString(k') <==> k == k'
  {
  }

  /** Two high-cardinality tags share a key only when they are the same tag. */
  lemma HighAsStringInjective(k: HighCardinalityKeyName, k': HighCardinalityKeyName)
    ensures HighAsString(k) == HighAsString(k') <==> k == k'
  {
  }

  /** No key is used by both a low- and a high-cardinality tag. */
  lemma LowHighDisjoint(k: LowCardinalityKeyName, h: HighCardinalityKeyName)
    ensures LowAsString(k) != HighAsString(h)
  {
  }
}
