/**
 * The statistics an `AudioManager` publishes, as values: the state a tick and a stop
 * move between, how a reading updates the extremes, and the invariant that ties
 * `decibels`, `avgDecibels`, `minimum` and `maximum` to the readings taken so far.
 */
module Meter {
  import opened Wrappers
  import Stats

  /**
   * The published statistics together with the levels behind them: `previous` holds the
   * levels of the sessions already stopped, `history` those of the current one
   * (`decibelValues`).
   */
  datatype State = State(previous: seq<real>, history: seq<real>, decibels: real,
                         avgDecibels: real, minimum: Option<real>, maximum: Option<real>)
  {
    /** Every level recorded since construction, across stops, oldest first. */
    function Readings(): seq<real>
    {
      previous + history
    }
  }

  /** The statistics of a fresh manager: no reading, both numbers 0, both extremes nil. */
  const Initial: State := State([], [], 0.0, 0.0, None, None)

  /**
   * `minimum` after a reading `x`: replaced when it is nil or `x` is below it.
   * The result is the smaller of the two, and never nil.
   */
  function LowerOf(m: Option<real>, x: real): (r: Option<real>)
    ensures r.Some? && r.value <= x
    ensures m.Some? ==> r.value <= m.value
    ensures r.value == x || (m.Some? && r.value == m.value)
  {
    if m.None? || x < m.value then Some(x) else m
  }

  /**
   * `maximum` after a reading `x`: replaced when it is nil or `x` is above it.
   * The result is the larger of the two, and never nil.
   */
  function HigherOf(m: Option<real>, x: real): (r: Option<real>)
    ensures r.Some? && x <= r.value
    ensures m.Some? ==> m.value <= r.value
    ensures r.value == x || (m.Some? && r.value == m.value)
  {
    if m.None? || x > m.value then Some(x) else m
  }

  /**
   * The statistics after one reading `x`: it becomes `decibels` and joins the history,
   * the average is taken again over the whole history, and the extremes move.
   */
  function Record(s: State, x: real): State
  {
    var values := s.history + [x];
    State(s.previous, values, x, Stats.Mean(values), LowerOf(s.minimum, x), HigherOf(s.maximum, x))
  }

  /**
   * The statistics after a stop: the history is emptied (its levels move to `previous`),
   * and `decibels`, `avgDecibels`, `minimum` and `maximum` keep their values.
   */
  function Close(s: State): State
  {
    State(s.previous + s.history, [], s.decibels, s.avgDecibels, s.minimum, s.maximum)
  }

  /**
   * The statistics invariant. Before the first reading all statistics keep their
   * initial values; afterwards `minimum` and `maximum` are the extremes of all readings,
   * `decibels` is the last one, and `avgDecibels` lies between the extremes and is the
   * mean of the current session while that has readings.
   */
  ghost predicate Consistent(s: State)
  {
    && Extremes(s.Readings(), s.minimum, s.maximum)
    && LastReading(s.Readings(), s.decibels)
    && AverageValid(s.Readings(), s.history, s.avgDecibels, s.minimum, s.maximum)
  }

  /**
   * `minimum` and `maximum` are absent before the first reading, then the least and
   * greatest reading, which are never negative.
   */
  ghost predicate Extremes(readings: seq<real>, minimum: Option<real>, maximum: Option<real>)
  {
    && (readings == [] <==> minimum.None?)
    && (readings == [] <==> maximum.None?)
    && (readings != [] ==>
          && minimum.value == Stats.Least(readings)
          && maximum.value == Stats.Greatest(readings)
          && 0.0 <= minimum.value)
  }

  /** `decibels` is 0 before the first reading, then the last one. */
  ghost predicate LastReading(readings: seq<real>, decibels: real)
  {
    if readings == [] then decibels == 0.0 else decibels == readings[|readings| - 1]
  }

  /**
   * `avgDecibels` is 0 before the first reading, then between the extremes; while the
   * current session has readings it is their mean.
   */
  ghost predicate AverageValid(readings: seq<real>, history: seq<real>, avgDecibels: real,
                               minimum: Option<real>, maximum: Option<real>)
  {
    && (readings == [] ==> avgDecibels == 0.0)
    && (readings != [] && minimum.Some? && maximum.Some? ==> minimum.value <= avgDecibels <= maximum.value)
    && (history != [] ==> avgDecibels == Stats.Mean(history))
  }

  lemma InitialConsistent()
    ensures Consistent(Initial) && Initial.Readings() == []
  {
  }

  /** A stop keeps the invariant and loses no reading. */
  lemma CloseKeeps(s: State)
    requires Consistent(s)
    ensures Consistent(Close(s))
    ensures Close(s).Readings() == s.Readings()
  {
    assert (s.previous + s.history) + [] == s.previous + s.history;
  }

  /** A reading `x >= 0` moves the extremes to `LowerOf`/`HigherOf` and keeps them the extremes. */
  lemma ExtremesAfterReading(readings: seq<real>, minimum: Option<real>, maximum: Option<real>, x: real)
    requires Extremes(readings, minimum, maximum) && x >= 0.0
    ensures Extremes(readings + [x], LowerOf(minimum, x), HigherOf(maximum, x))
  {
    if readings != [] {
      Stats.ExtremesAppend(readings, x);
    }
  }

  /**
   * A reading `x >= 0` keeps the invariant and is appended to the readings; the new
   * extremes bound `x`, the whole current session and the new average.
   */
  lemma RecordKeeps(s: State, x: real)
    requires Consistent(s) && x >= 0.0
    ensures Consistent(Record(s, x))
    ensures Record(s, x).Readings() == s.Readings() + [x]
    ensures var r := Record(s, x);
              && r.minimum.value <= x <= r.maximum.value
              && Stats.Within(r.history, r.minimum.value, r.maximum.value)
              && r.minimum.value <= r.avgDecibels <= r.maximum.value
  {
    var r := Record(s, x);
    var lo, hi := r.minimum.value, r.maximum.value;
    assert r.Readings() == s.Readings() + [x];
    ExtremesAfterReading(s.Readings(), s.minimum, s.maximum, x);
    Stats.ExtremesOfSeq(r.Readings());
    Stats.WithinSuffix(s.previous, r.history, lo, hi);
    Stats.MeanBounds(r.history, lo, hi);
  }

  /**
   * In a consistent state with readings, `minimum` and `maximum` are readings that
   * bound every reading, those of the current session included, and `decibels` and
   * `avgDecibels` lie between them.
   */
  lemma ExtremesBound(s: State)
    requires Consistent(s) && s.Readings() != []
    ensures s.minimum.Some? && s.maximum.Some?
    ensures s.minimum.value in s.Readings() && s.maximum.value in s.Readings()
    ensures Stats.Within(s.Readings(), s.minimum.value, s.maximum.value)
    ensures Stats.Within(s.history, s.minimum.value, s.maximum.value)
    ensures s.minimum.value <= s.decibels <= s.maximum.value
    ensures s.minimum.value <= s.avgDecibels <= s.maximum.value
  {
    var rs := s.Readings();
    Stats.ExtremesOfSeq(rs);
    Stats.WithinSuffix(s.previous, s.history, s.minimum.value, s.maximum.value);
    assert rs[|rs| - 1] == s.decibels;
  }
}
