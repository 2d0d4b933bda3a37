/** Which blobs each store reports as older than the grace period, in milliseconds since the epoch. */
module BlobAge {

  datatype Store = Fs | S3 | Redis

  /**
   * Files compare the exact age. S3 keeps the whole second of the upload and compares it with the exact
   * clock. Redis compares whole seconds on both sides.
   */
  predicate Lists(store: Store, now: nat, putAt: nat, graceMs: nat) {
    match store
    case Fs => Elapsed(now, putAt) >= graceMs
    case S3 => Elapsed(now, putAt / 1000 * 1000) >= graceMs
    case Redis => putAt / 1000 <= Elapsed(now / 1000, graceMs / 1000)
  }

  /** Saturating subtraction: a timestamp in the future counts as brand-new. */
  function Elapsed(now: nat, since: nat): nat {
    if now >= since then now - since else 0
  }

  /** How much younger than the grace period a listed blob can be. */
  function Slack(store: Store): nat {
    if store.Fs? then 0 else 999
  }

  /** With a grace period of whole seconds, as configured, a listed blob is old enough up to the slack. */
  lemma ListedIsOld(store: Store, now: nat, putAt: nat, graceMs: nat)
    requires graceMs % 1000 == 0 && putAt <= now && graceMs <= now
    requires Lists(store, now, putAt, graceMs)
    ensures now - putAt + Slack(store) >= graceMs
  {
  }

  /** That the Redis rule never lists a blob more than 999 ms too young. */
  ghost predicate RedisSlackHolds(graceMs: nat) {
    forall now: nat, putAt: nat :: putAt <= now && graceMs <= now && Lists(Redis, now, putAt, graceMs) ==>
      now - putAt + Slack(Redis) >= graceMs
  }

  /** It holds for grace periods of whole seconds, or below one second, and for no others. */
  lemma RedisSlackExact(graceMs: nat)
    ensures RedisSlackHolds(graceMs) <==> graceMs % 1000 == 0 || graceMs < 1000
  {
    if graceMs % 1000 == 0 || graceMs < 1000 {
      forall now: nat, putAt: nat | putAt <= now && graceMs <= now && Lists(Redis, now, putAt, graceMs)
        ensures now - putAt + Slack(Redis) >= graceMs
      {
        if graceMs % 1000 == 0 {
          ListedIsOld(Redis, now, putAt, graceMs);
        }
      }
    } else {
      var q := graceMs / 1000;
      var now, putAt := 1000 * (q + 1), 1999;
      assert now / 1000 == q + 1 && putAt / 1000 == 1;
      assert Lists(Redis, now, putAt, graceMs) && now - putAt + Slack(Redis) < graceMs;
    }
  }
}
