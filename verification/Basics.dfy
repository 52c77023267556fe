/** Option and Result, and the arithmetic of Go's time.Time as the store uses it. */
module Basics {

  datatype Option<+T> = None | Some(value: T)

  datatype Result<+T, +E> = Ok(value: T) | Err(error: E)

  type Id = string

  /** Instants are nanoseconds since the Unix epoch; columns hold whole seconds. */
  type Instant = int

  const SECOND: int := 1_000_000_000

  /** The instant of a zero time.Time: 1 January of year 1. */
  const ZERO_TIME: Instant := -62_135_596_800_000_000_000

  /** time.Time.Unix: rounds towards the past, before the epoch too. */
  function UnixSecond(t: Instant): int {
    t / 1_000_000_000
  }

  /** time.Unix(second, 0). */
  function UnixTime(second: int): Instant {
    second * 1_000_000_000
  }

  lemma UnixSecondFloors(t: Instant)
    ensures UnixSecond(t) * SECOND <= t < (UnixSecond(t) + 1) * SECOND
    ensures UnixTime(UnixSecond(t)) <= t < UnixTime(UnixSecond(t)) + SECOND
    ensures forall second :: UnixSecond(t) <= second <==> t < UnixTime(second) + SECOND
    ensures UnixSecond(UnixTime(UnixSecond(t))) == UnixSecond(t)
  {
  }

  lemma {:induction false} LongerThanAll(ids: set<Id>) returns (n: nat)
    ensures forall id :: id in ids ==> |id| < n
  {
    if ids == {} {
      n := 0;
    } else {
      var id :| id in ids;
      var m := LongerThanAll(ids - {id});
      n := if |id| < m then m else |id| + 1;
    }
  }

  /** There is always an id that is not in use. */
  lemma UnusedId(ids: set<Id>) returns (id: Id)
    ensures id !in ids
  {
    var n := LongerThanAll(ids);
    id := seq(n, _ => 'a');
  }
}
