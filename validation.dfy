/** The building blocks of the uniqueness validators: repository lookups by one
    column, guard clauses that throw, and the first guard that throws. */
module Validation {

  import opened Wrappers
  import opened Text
  import opened JsonValues
  import opened ExceptionHandling

  /** A derived query `findByX(v)`: a stored record for which `holds` is true, or
      None when there is none. */
  function FindFirst<T>(rows: seq<T>, holds: T -> bool): (r: Option<T>)
    ensures r.None? <==> forall i :: 0 <= i < |rows| ==> !holds(rows[i])
    ensures r.Some? ==> r.value in rows && holds(r.value)
  {
    if |rows| == 0 then None
    else if holds(rows[0]) then Some(rows[0])
    else FindFirst(rows[1..], holds)
  }

  /** `if (cond) throw e;` */
  function Guard(cond: bool, e: Exception): Outcome<Exception> {
    if cond then Fail(e) else Pass
  }

  predicate FirstFailAt<E>(checks: seq<Outcome<E>>, i: int) {
    && 0 <= i < |checks|
    && checks[i].Fail?
    && forall j :: 0 <= j < i ==> checks[j].Pass?
  }

  /** A run of guard clauses: the first one that throws decides; none throwing passes. */
  function FirstFailure<E(==)>(checks: seq<Outcome<E>>): (o: Outcome<E>)
    ensures o.Pass? <==> forall i :: 0 <= i < |checks| ==> checks[i].Pass?
    ensures o.Fail? ==> exists i :: FirstFailAt(checks, i) && checks[i] == o
  {
    if |checks| == 0 then Pass
    else if checks[0].Fail? then
      assert FirstFailAt(checks, 0);
      checks[0]
    else
      var o := FirstFailure(checks[1..]);
      if o.Fail? then
        var i :| FirstFailAt(checks[1..], i) && checks[1..][i] == o;
        assert FirstFailAt(checks, i + 1);
        o
      else
        o
  }

  /** Four guard clauses in a row, as they are written in the validators. */
  lemma FirstOfFour<E>(a: Outcome<E>, b: Outcome<E>, c: Outcome<E>, d: Outcome<E>)
    ensures FirstFailure([a, b, c, d]) ==
      if a.Fail? then a else if b.Fail? then b else if c.Fail? then c else d
  {
    FirstOfThree(b, c, d);
    assert [a, b, c, d][1..] == [b, c, d];
  }

  /** Three guard clauses in a row. */
  lemma FirstOfThree<E>(a: Outcome<E>, b: Outcome<E>, c: Outcome<E>)
    ensures FirstFailure([a, b, c]) == if a.Fail? then a else if b.Fail? then b else c
  {
    assert [c][1..] == [];
    assert FirstFailure([c]) == c;
    assert [b, c][1..] == [c];
    assert FirstFailure([b, c]) == if b.Fail? then b else c;
    assert [a, b, c][1..] == [b, c];
  }

  /** The exception `toString()` throws on a null value of the map. */
  const NullValue: Exception := Other("NullPointerException")

  /** One guard of a partial-update validation. Only a key present in the map is
      checked; its value's text (lower-cased when `lower`) is looked up with `find`,
      and a record found there that is not the caller's own (`mine`) is a conflict. */
  function KeyGuard<T>(updates: map<string, Value>, key: string, lower: bool,
                       find: string -> Option<T>, mine: T -> bool, e: Exception): (o: Outcome<Exception>)
    ensures key !in updates ==> o == Pass
    ensures key in updates && updates[key] == Null ==> o == Fail(NullValue)
    ensures key in updates && updates[key].Str? ==>
      var h := find(if lower then ToLower(updates[key].s) else updates[key].s);
      o == Guard(h.Some? && !mine(h.value), e)
  {
    if key !in updates then Pass
    else
      match updates[key]
      case Null => Fail(NullValue)
      case Obj(_) => Pass
      case Str(s) =>
        var h := find(if lower then ToLower(s) else s);
        Guard(h.Some? && !mine(h.value), e)
  }
}
