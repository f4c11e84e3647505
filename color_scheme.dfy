/** The colour chosen for a connector type: one of four theme colours, indexed by the type id. */
module ColorScheme {
  import opened Wrappers
  import opened IntText

  /** The four theme colours, kept as opaque tokens. */
  datatype Color = Primary | Secondary | Tertiary | Error

  const ColorsList: seq<Color> := [Primary, Secondary, Tertiary, Error]

  /** Kotlin's `%` on `Int`: the remainder takes the sign of the dividend. */
  function TruncatedRem(a: int, b: int): (r: int)
    requires b > 0
    ensures a >= 0 ==> 0 <= r < b
    ensures a < 0 ==> -b < r <= 0
  {
    if a >= 0 then a % b else -((-a) % b)
  }

  /** On a non-negative dividend the truncating remainder is the Euclidean one. */
  lemma TruncatedRemNonNegative(a: int, b: int)
    requires b > 0 && a >= 0
    ensures TruncatedRem(a, b) == a % b
  {
  }

  /** The truncating remainder is odd in its dividend. */
  lemma TruncatedRemNegated(a: int, b: int)
    requires b > 0
    ensures TruncatedRem(-a, b) == -TruncatedRem(a, b)
  {
  }

  /**
   * `colorsList[id % colorsList.size]`. A negative remainder is an index out of
   * bounds, which the list access reports by throwing; that is `None` here.
   */
  function ForId(id: Int32): (r: Option<Color>)
    ensures r.Some? <==> id >= 0 || id % 4 == 0
    ensures r.Some? ==> r.value == ColorsList[TruncatedRem(id, |ColorsList|)]
  {
    var index := TruncatedRem(id, |ColorsList|);
    if 0 <= index < |ColorsList| then Some(ColorsList[index]) else None
  }

  /** Ids 0 to 3 pick primary, secondary, tertiary and error, in that order. */
  lemma ForIdFirstFour()
    ensures ForId(0) == Some(Primary)
    ensures ForId(1) == Some(Secondary)
    ensures ForId(2) == Some(Tertiary)
    ensures ForId(3) == Some(Error)
  {
  }

  /** For non-negative ids the colour repeats with period four. */
  lemma ForIdPeriodic(id: Int32)
    requires id >= 0 && id + 4 <= MaxInt32
    ensures ForId(id).Some?
    ensures ForId(id) == ForId(id + 4)
  {
    assert TruncatedRem(id + 4, 4) == TruncatedRem(id, 4);
  }

  /** A negative id that is not a multiple of four has no colour. */
  lemma ForIdNegative(id: Int32)
    requires id < 0 && id % 4 != 0
    ensures ForId(id) == None
  {
  }
}
