/**
 Breadcrumb records: the clock reading in whole seconds and the record that
 `addBreadcrumb` stores, `{ timestamp, ...crumb }`.
 */
module Breadcrumbs {
  import opened Values

  const TimestampKey: string := "timestamp"

  /** `Math.floor(Date.now() / 1000)`: the clock reading `nowMillis` in whole
      seconds, rounded down (also before the epoch). */
  function Seconds(nowMillis: int): (t: int)
    ensures t * 1000 <= nowMillis < t * 1000 + 1000
  {
    nowMillis / 1000
  }

  /** `{ timestamp: t, ...crumb }`: the record keeps every property of `crumb`
      as given, including its own `timestamp`, and receives `t` only when it
      has no `timestamp` property. */
  function Stamp(crumb: Fields, t: int): (r: Fields)
    ensures r.Keys == crumb.Keys + {TimestampKey}
    ensures forall k :: k in crumb ==> r[k] == crumb[k]
    ensures TimestampKey !in crumb ==> r[TimestampKey] == Num(t)
  {
    Merge(map[TimestampKey := Num(t)], crumb)
  }

  /** A caller-supplied `timestamp` wins: the record is the crumb itself. */
  lemma OwnTimestampKept(crumb: Fields, t: int)
    requires TimestampKey in crumb
    ensures Stamp(crumb, t) == crumb
  {
  }

  /** Without one, the record is the crumb plus the clock reading. */
  lemma ClockTimestampAdded(crumb: Fields, t: int)
    requires TimestampKey !in crumb
    ensures Stamp(crumb, t) == crumb[TimestampKey := Num(t)]
  {
  }

}
