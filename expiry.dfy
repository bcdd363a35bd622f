/** The expiring set of recently seen ids (webhook event ids, token nonces). Two generations
    of entries, `cur` and `prev`, each mapping a key to the time (in seconds) until which it
    counts as seen; on every access the generations rotate when more than `ttl` seconds have
    passed since the last rotation. The wall clock is the parameter `now`. */
module Expiry {

  /** The three fields of the set that change. */
  datatype Epochs<K> = Epochs(cur: map<K, int>, prev: map<K, int>, lastUpdate: int)

  /** The empty set created at time `now`. */
  function Fresh<K>(now: int): Epochs<K> {
    Epochs(map[], map[], now)
  }

  /** Seconds since the last rotation; a clock that went backwards counts as no time. */
  function Elapsed<K>(e: Epochs<K>, now: int): (d: int)
    ensures d >= 0
    ensures d >= now - e.lastUpdate
  {
    if now - e.lastUpdate > 0 then now - e.lastUpdate else 0
  }

  /** `updateIfNeeded`: after more than `ttl` seconds the current generation becomes the
      previous one; after more than `2 * ttl` both are dropped. */
  function Rotate<K>(e: Epochs<K>, ttl: int, now: int): Epochs<K> {
    var diff := Elapsed(e, now);
    if diff > ttl then
      if diff <= 2 * ttl then Epochs(map[], e.cur, now) else Epochs(map[], map[], now)
    else e
  }

  /** The answer of `has` once the generations are up to date: a truthy (non-zero) entry in
      `cur`, or a truthy entry in `prev` that has not yet expired. */
  predicate Found<K>(e: Epochs<K>, key: K, now: int) {
    (key in e.cur && e.cur[key] != 0)
    || (key in e.prev && e.prev[key] != 0 && e.prev[key] - now >= 0)
  }

  /** `has(key)` at time `now`. */
  predicate HasAt<K>(e: Epochs<K>, ttl: int, key: K, now: int) {
    Found(Rotate(e, ttl, now), key, now)
  }

  /** `insert(key)` at time `now`: rotate, then record the key as seen until `now + ttl`. */
  function Add<K>(e: Epochs<K>, ttl: int, key: K, now: int): Epochs<K> {
    var r := Rotate(e, ttl, now);
    r.(cur := r.cur[key := now + ttl])
  }

  /** Within `ttl` seconds of the last rotation, an access changes nothing. */
  lemma QuietWithinTtl<K>(e: Epochs<K>, ttl: int, now: int)
    requires now - e.lastUpdate <= ttl
    requires ttl >= 0
    ensures Rotate(e, ttl, now) == e
  {
  }

  /** Between `ttl` and `2 * ttl` seconds the current generation becomes the previous one;
      beyond that both are emptied; either way the rotation time becomes `now`. */
  lemma RotationShape<K>(e: Epochs<K>, ttl: int, now: int)
    requires now - e.lastUpdate > ttl >= 0
    ensures var r := Rotate(e, ttl, now);
      r.cur == map[] && r.lastUpdate == now
      && r.prev == (if now - e.lastUpdate <= 2 * ttl then e.cur else map[])
  {
  }

  /** A clock that reads earlier than the last rotation never rotates. */
  lemma BackwardsClockNeverRotates<K>(e: Epochs<K>, ttl: int, now: int)
    requires now <= e.lastUpdate
    requires ttl >= 0
    ensures Rotate(e, ttl, now) == e
  {
  }

  /** Rotating twice at the same time is rotating once. */
  lemma RotateIdempotent<K>(e: Epochs<K>, ttl: int, now: int)
    requires ttl >= 0
    ensures Rotate(Rotate(e, ttl, now), ttl, now) == Rotate(e, ttl, now)
  {
  }

  /** Rotation only forgets: every key present afterwards was present before, with the
      same expiry. */
  lemma RotateNeverAdds<K>(e: Epochs<K>, ttl: int, now: int, key: K)
    ensures var r := Rotate(e, ttl, now);
      (key in r.cur ==> key in e.cur && r.cur[key] == e.cur[key])
      && (key in r.prev ==> (key in e.cur && r.prev[key] == e.cur[key])
                             || (key in e.prev && r.prev[key] == e.prev[key]))
  {
  }

  /** A key just inserted is reported present at the same instant (its expiry
      `now + ttl` must be truthy, i.e. non-zero). */
  lemma InsertThenHas<K>(e: Epochs<K>, ttl: int, key: K, now: int)
    requires ttl >= 0
    requires now + ttl != 0
    ensures HasAt(Add(e, ttl, key, now), ttl, key, now)
  {
    var a := Add(e, ttl, key, now);
    assert Rotate(a, ttl, now) == a by {
      RotateIdempotent(e, ttl, now);
    }
  }

  /** One access of the set: a `has` query or an `insert`, each with its clock reading. */
  datatype Access<K> = Lookup(key: K, at: int) | Record(key: K, at: int)

  function Apply<K>(e: Epochs<K>, ttl: int, a: Access<K>): Epochs<K> {
    match a
    case Lookup(_, at) => Rotate(e, ttl, at)
    case Record(key, at) => Add(e, ttl, key, at)
  }

  /** The state after a sequence of accesses, in order. */
  function Replay<K>(e: Epochs<K>, ttl: int, trace: seq<Access<K>>): Epochs<K>
    decreases |trace|
  {
    if trace == [] then e else Replay(Apply(e, ttl, trace[0]), ttl, trace[1..])
  }

  /** Clock readings that never go backwards, none earlier than `from`, none later than `to`. */
  predicate Chronological<K>(trace: seq<Access<K>>, from: int, to: int) {
    (forall i :: 0 <= i < |trace| ==> from <= trace[i].at <= to)
    && (forall i, j :: 0 <= i < j < |trace| ==> trace[i].at <= trace[j].at)
  }

  predicate NeverRecords<K(==)>(trace: seq<Access<K>>, key: K) {
    forall i :: 0 <= i < |trace| ==> !(trace[i].Record? && trace[i].key == key)
  }

  /** Where a key inserted at `t` can be, given that the last access happened at `now`:
      still in `cur` (then the last rotation was at most `ttl` before `t`), moved to
      `prev` (then the last rotation was at or after `t`), or gone (then it has expired). */
  predicate Tracking<K>(e: Epochs<K>, ttl: int, key: K, t: int, now: int) {
    e.lastUpdate <= now && t <= now
    && (
      (key in e.cur && e.cur[key] == t + ttl && t - ttl <= e.lastUpdate <= t)
      || (key !in e.cur && key in e.prev && e.prev[key] == t + ttl && t <= e.lastUpdate)
      || (key !in e.cur && key !in e.prev && now > t + ttl))
  }

  lemma TrackingStarts<K>(e: Epochs<K>, ttl: int, key: K, t: int)
    requires ttl > 0 && e.lastUpdate <= t
    ensures Tracking(Add(e, ttl, key, t), ttl, key, t, t)
  {
  }

  lemma TrackingRotate<K>(e: Epochs<K>, ttl: int, key: K, t: int, now: int, later: int)
    requires ttl > 0 && Tracking(e, ttl, key, t, now) && now <= later
    ensures Tracking(Rotate(e, ttl, later), ttl, key, t, later)
  {
  }

  lemma TrackingStep<K>(e: Epochs<K>, ttl: int, key: K, t: int, now: int, a: Access<K>)
    requires ttl > 0 && Tracking(e, ttl, key, t, now) && now <= a.at
    requires !(a.Record? && a.key == key)
    ensures Tracking(Apply(e, ttl, a), ttl, key, t, a.at)
  {
    TrackingRotate(e, ttl, key, t, now, a.at);
  }

  lemma {:induction false} TrackingReplay<K>(e: Epochs<K>, ttl: int, key: K, t: int, now: int,
                                             trace: seq<Access<K>>, to: int)
    requires ttl > 0 && Tracking(e, ttl, key, t, now)
    requires Chronological(trace, now, to) && NeverRecords(trace, key) && now <= to
    ensures Tracking(Replay(e, ttl, trace), ttl, key, t, if trace == [] then now else trace[|trace| - 1].at)
    decreases |trace|
  {
    if trace != [] {
      TrackingStep(e, ttl, key, t, now, trace[0]);
      var rest := trace[1..];
      assert Chronological(rest, trace[0].at, to);
      assert NeverRecords(rest, key);
      TrackingReplay(Apply(e, ttl, trace[0]), ttl, key, t, trace[0].at, rest, to);
      if rest != [] {
        assert rest[|rest| - 1] == trace[|trace| - 1];
      }
    }
  }

  lemma TrackingAnswer<K>(e: Epochs<K>, ttl: int, key: K, t: int, now: int, u: int)
    requires ttl > 0 && t >= 0 && Tracking(e, ttl, key, t, now) && now <= u
    ensures HasAt(e, ttl, key, u) <==> u <= t + ttl
  {
    TrackingRotate(e, ttl, key, t, now, u);
  }

  /** The lifetime of an id: inserted at time `t` (by a clock that then never goes
      backwards) and not inserted again, it is reported present by every later query at a
      time `u` in `[t, t + ttl]` and absent at every time after `t + ttl`, whatever other
      keys are queried or inserted in between. */
  lemma KeyLifetime<K>(e: Epochs<K>, ttl: int, key: K, t: int, trace: seq<Access<K>>, u: int)
    requires ttl > 0 && t >= 0 && e.lastUpdate <= t && t <= u
    requires Chronological(trace, t, u) && NeverRecords(trace, key)
    ensures HasAt(Replay(Add(e, ttl, key, t), ttl, trace), ttl, key, u) <==> u <= t + ttl
  {
    TrackingStarts(e, ttl, key, t);
    TrackingReplay(Add(e, ttl, key, t), ttl, key, t, t, trace, u);
    var last := if trace == [] then t else trace[|trace| - 1].at;
    TrackingAnswer(Replay(Add(e, ttl, key, t), ttl, trace), ttl, key, t, last, u);
  }

  /** A key that no lookup at or after `now` can find: any entry it has is falsy or has
      expired before `now`. */
  predicate Missing<K>(e: Epochs<K>, key: K, now: int) {
    (key !in e.cur || e.cur[key] == 0)
    && (key !in e.prev || e.prev[key] == 0 || e.prev[key] < now)
  }

  lemma MissingStep<K>(e: Epochs<K>, ttl: int, key: K, now: int, a: Access<K>)
    requires Missing(e, key, now) && now <= a.at
    requires !(a.Record? && a.key == key)
    ensures Missing(Apply(e, ttl, a), key, a.at)
  {
  }

  lemma {:induction false} MissingReplay<K>(e: Epochs<K>, ttl: int, key: K, now: int,
                                            trace: seq<Access<K>>, u: int)
    requires Missing(e, key, now) && now <= u
    requires Chronological(trace, now, u) && NeverRecords(trace, key)
    ensures Missing(Replay(e, ttl, trace), key, u)
    decreases |trace|
  {
    if trace != [] {
      MissingStep(e, ttl, key, now, trace[0]);
      assert Chronological(trace[1..], trace[0].at, u);
      assert NeverRecords(trace[1..], key);
      MissingReplay(Apply(e, ttl, trace[0]), ttl, key, trace[0].at, trace[1..], u);
    }
  }

  /** An absent key stays absent: once a query at `now` misses, every later query misses
      too, whatever else is queried or inserted, until the key itself is inserted again. */
  lemma AbsenceIsPermanent<K>(e: Epochs<K>, ttl: int, key: K, now: int, trace: seq<Access<K>>, u: int)
    requires now <= u && !HasAt(e, ttl, key, now)
    requires Chronological(trace, now, u) && NeverRecords(trace, key)
    ensures !HasAt(Replay(Rotate(e, ttl, now), ttl, trace), ttl, key, u)
  {
    MissingReplay(Rotate(e, ttl, now), ttl, key, now, trace, u);
    MissingStep(Replay(Rotate(e, ttl, now), ttl, trace), ttl, key, u, Lookup(key, u));
  }

  /** The expiring set object. */
  class ExpireSet<K(==)> {
    var cur: map<K, int>
    var prev: map<K, int>
    const ttl: int
    var lastUpdate: int

    function State(): Epochs<K>
      reads this
    {
      Epochs(cur, prev, lastUpdate)
    }

    constructor (ttlSeconds: int, now: int)
      ensures ttl == ttlSeconds && State() == Fresh(now)
    {
      cur := map[];
      prev := map[];
      ttl := ttlSeconds;
      lastUpdate := now;
    }

    method UpdateIfNeeded(now: int) returns (r: int)
      modifies this
      ensures r == now && State() == Rotate(old(State()), ttl, now)
    {
      var diff := if now - lastUpdate > 0 then now - lastUpdate else 0;
      if diff > ttl {
        if diff <= 2 * ttl {
          prev := cur;
          cur := map[];
        } else {
          prev := map[];
          cur := map[];
        }
        lastUpdate := now;
      }
      r := now;
    }

    method Has(key: K, now: int) returns (found: bool)
      modifies this
      ensures found == HasAt(old(State()), ttl, key, now)
      ensures State() == Rotate(old(State()), ttl, now)
    {
      var at := UpdateIfNeeded(now);
      if key in cur && cur[key] != 0 {
        return true;
      }
      if key in prev && prev[key] != 0 {
        var left := prev[key] - at;
        if left >= 0 {
          return true;
        }
      }
      return false;
    }

    method Insert(key: K, now: int)
      modifies this
      ensures State() == Add(old(State()), ttl, key, now)
    {
      var _ := UpdateIfNeeded(now);
      cur := cur[key := now + ttl];
    }
  }

  /** The expiry scenario of the original test suite, with a five-second lifetime: `a`
      inserted at 0 is present at once, `b` inserted at 3; at 6 `a` has expired and `b`
      is still present. */
  lemma ExpiryScenario(start: Epochs<string>)
    requires start == Fresh(0)
    ensures var s1 := Add(start, 5, "a", 0);
      HasAt(s1, 5, "a", 0)
      && var s2 := Add(Rotate(s1, 5, 0), 5, "b", 3);
      !HasAt(s2, 5, "a", 6) && HasAt(Rotate(s2, 5, 6), 5, "b", 6)
  {
  }
}
