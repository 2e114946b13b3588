/**
 * The parameters of a query. Before a query runs, execute_query rewrites
 * its parameter dictionary in place: every date or datetime value becomes
 * its 'YYYY-MM-DD' text, every other value is left as it is.
 */
module Params {
  import opened Wrappers
  import opened Calendar

  /** A value of the parameter dictionary. */
  datatype Param =
    | DateParam(date: Date)
    | DateTimeParam(stamp: DateTime)
    | TextParam(text: string)
    | IntParam(number: int)

  predicate IsDateLike(p: Param)
  {
    p.DateParam? || p.DateTimeParam?
  }

  /** Python holds only real dates: every date in a parameter is a valid one. */
  predicate ValidParam(p: Param)
  {
    match p
    case DateParam(d) => ValidDate(d)
    case DateTimeParam(t) => ValidDate(t.date)
    case _ => true
  }

  /**
   * The value the query receives for one parameter: value.strftime('%Y-%m-%d')
   * for a date or a datetime (isinstance(value, (date, datetime))), the
   * value itself otherwise.
   */
  function Bound(p: Param): (r: Param)
    requires ValidParam(p)
    ensures !IsDateLike(r) && ValidParam(r)
    ensures !IsDateLike(p) ==> r == p
  {
    match p
    case DateParam(d) => TextParam(IsoText(d))
    case DateTimeParam(t) => TextParam(IsoText(t.date))
    case _ => p
  }

  /** The text a date is bound as reads back as that date; a datetime's, as its day. */
  lemma BoundReadsBack(p: Param)
    requires ValidParam(p)
    ensures p.DateParam? ==> Bound(p).TextParam? && ParseIso(Bound(p).text) == Some(p.date)
    ensures p.DateTimeParam? ==> Bound(p).TextParam? && ParseIso(Bound(p).text) == Some(p.stamp.date)
  {
    match p
    case DateParam(d) => IsoTextRoundTrip(d);
    case DateTimeParam(t) => IsoTextRoundTrip(t.date);
    case _ =>
  }

  /** The whole dictionary after the rewriting loop: same keys, each value bound. */
  function Formatted(m: map<string, Param>): (r: map<string, Param>)
    requires forall k :: k in m ==> ValidParam(m[k])
    ensures r.Keys == m.Keys
    ensures forall k :: k in r ==> !IsDateLike(r[k]) && ValidParam(r[k])
  {
    map k | k in m :: Bound(m[k])
  }

  /** A second pass changes nothing: after the rewriting no value is a date any more. */
  lemma FormattedIdempotent(m: map<string, Param>)
    requires forall k :: k in m ==> ValidParam(m[k])
    ensures Formatted(Formatted(m)) == Formatted(m)
  {
  }

  /**
   * The database reads back exactly the chosen date; a datetime reaches
   * it truncated to its day, the same text as the date alone.
   */
  lemma FormattedDates(m: map<string, Param>, k: string)
    requires forall k :: k in m ==> ValidParam(m[k])
    requires k in m && IsDateLike(m[k])
    ensures Formatted(m)[k].TextParam?
    ensures m[k].DateParam? ==> ParseIso(Formatted(m)[k].text) == Some(m[k].date)
    ensures m[k].DateTimeParam? ==> Formatted(m)[k] == Bound(DateParam(m[k].stamp.date))
  {
    BoundReadsBack(m[k]);
  }

  /**
   * Part-way through a loop that rewrites a dictionary from `m` to
   * `target` one key at a time: the keys in `todo` still hold their old
   * values, the others their new ones.
   */
  ghost predicate Midway<V>(m: map<string, V>, target: map<string, V>, values: map<string, V>, todo: set<string>)
  {
    && values.Keys == m.Keys && target.Keys == m.Keys && todo <= m.Keys
    && forall k :: k in values ==> values[k] == if k in todo then m[k] else target[k]
  }

  /** Visiting one more key and giving it its new value keeps the loop on course. */
  lemma Visit<V>(m: map<string, V>, target: map<string, V>, values: map<string, V>, todo: set<string>, key: string)
    requires Midway(m, target, values, todo) && key in todo
    ensures values[key] == m[key]
    ensures Midway(m, target, values[key := target[key]], todo - {key})
    ensures target[key] == m[key] ==> Midway(m, target, values, todo - {key})
  {
    var v := values[key := target[key]];
    forall k | k in v ensures v[k] == if k in todo - {key} then m[k] else target[k] {
      if k != key {
        assert v[k] == values[k];
      }
    }
  }

  /** One turn of the rewriting loop: the visited value is bound if it is a date, and one key fewer is left. */
  lemma Advance(m: map<string, Param>, values: map<string, Param>, todo: set<string>, key: string)
    requires forall k :: k in m ==> ValidParam(m[k])
    requires Midway(m, Formatted(m), values, todo) && key in todo
    ensures var v := values[key];
      Midway(m, Formatted(m), if IsDateLike(v) then values[key := Bound(v)] else values, todo - {key})
    ensures |todo - {key}| < |todo|
  {
    var target := Formatted(m);
    Visit(m, target, values, todo, key);
    if IsDateLike(values[key]) {
      assert target[key] == Bound(values[key]);
    } else {
      assert target[key] == values[key];
    }
    Fewer(todo, key);
  }

  lemma Fewer<T>(s: set<T>, x: T)
    requires x in s
    ensures |s - {x}| < |s|
  {
    assert s == (s - {x}) + {x};
  }

  /** Once every key is visited, the dictionary is the target. */
  lemma Finish<V>(m: map<string, V>, target: map<string, V>, values: map<string, V>)
    requires Midway(m, target, values, {})
    ensures values == target
  {
  }

  /** The dictionary of parameters a report query is called with, rewritten in place by execute_query. */
  class QueryParams {
    var values: map<string, Param>

    ghost predicate Valid()
      reads this
    {
      forall k :: k in values ==> ValidParam(values[k])
    }

    /** {'start_date': start_date, 'end_date': end_date}, as every rollup query builds it. */
    constructor (start: Date, end: Date)
      requires ValidDate(start) && ValidDate(end)
      ensures Valid()
      ensures values == map["start_date" := DateParam(start), "end_date" := DateParam(end)]
    {
      values := map["start_date" := DateParam(start), "end_date" := DateParam(end)];
    }

    /**
     * The loop of execute_query: for each key, a date or datetime value
     * is replaced by its text. Dictionary order does not matter, so the
     * keys are visited in any order.
     */
    method FormatDates()
      requires Valid()
      modifies this
      ensures Valid()
      ensures values == Formatted(old(values))
    {
      ghost var m, target := values, Formatted(values);
      var todo := values.Keys;
      while todo != {}
        invariant Midway(m, target, values, todo)
        decreases |todo|
      {
        var key :| key in todo;
        var value := values[key];
        Advance(m, values, todo, key);
        if IsDateLike(value) {
          values := values[key := Bound(value)];
        }
        todo := todo - {key};
      }
      Finish(m, target, values);
    }
  }
}
