/** The login-status cache of `checkUserStatus()` (the same logic in
    `background.js` and `src/utils/api.js`): two storage keys, a cooldown
    armed by a 429 and a five-minute time-to-live that covers logged-in and
    logged-out results alike.  The live session request is an input: its
    reply is consulted only when the check goes to the network. */
module SessionCache {
  import opened Wrappers
  import opened Gateway

  const CachedStatusKey := "cachedUserStatus"
  const RateLimitKey := "rateLimitUntil"

  /** `USER_CACHE_TTL` / `USER_STATUS_TTL`: five minutes. */
  const StatusTtl: int := 300000

  /** `RATE_LIMIT_COOLDOWN`: one minute in the background worker, five
      seconds in `api.js`. */
  function Cooldown(v: Variant): (ms: int)
    ensures 0 < ms < StatusTtl
  {
    if v == Background then 60000 else 5000
  }

  /** A value under one of the two keys. */
  datatype Stored = StatusValue(status: SessionStatus) | TimeValue(ms: int)

  /** `Math.ceil(d / 1000)` for a positive number of milliseconds. */
  function CeilSeconds(d: int): (r: int)
    requires d > 0
    ensures r >= 1 && (r - 1) * 1000 < d <= r * 1000
  {
    (d + 999) / 1000
  }

  /** The end of the cooldown, when a truthy time is stored. */
  function CooldownUntil(store: map<string, Stored>): Option<int> {
    if RateLimitKey in store && store[RateLimitKey].TimeValue? && store[RateLimitKey].ms != 0
    then Some(store[RateLimitKey].ms) else None
  }

  /** `rateLimitUntil && now < rateLimitUntil`. */
  predicate InCooldown(store: map<string, Stored>, now: int) {
    CooldownUntil(store).Some? && now < CooldownUntil(store).value
  }

  /** The cached status when it is younger than the time-to-live; a status
      without a timestamp has age `NaN`, which is never young. */
  function FreshCache(store: map<string, Stored>, now: int): Option<SessionStatus> {
    if CachedStatusKey in store && store[CachedStatusKey].StatusValue? then
      var cache := store[CachedStatusKey].status;
      if cache.timestamp.Some? && now - cache.timestamp.value < StatusTtl then Some(cache) else None
    else None
  }

  /** One check: what it returns, the store afterwards, and whether it went
      to the network. */
  datatype Check = Check(reply: SessionStatus, store: map<string, Stored>, live: bool)

  /** `checkUserStatus()` at time `now` against `store`; `net` is what the
      session request would answer. */
  function CheckStatus(v: Variant, store: map<string, Stored>, now: int, net: SessionReply): (c: Check)
    ensures c.live <==> !InCooldown(store, now) && FreshCache(store, now).None?
    ensures !c.live ==> c.store == store
    ensures c.live ==> c.reply == ClassifySession(v, net) &&
                       CachedStatusKey in c.store && c.store[CachedStatusKey] == StatusValue(c.reply.(timestamp := Some(now)))
  {
    if InCooldown(store, now) then
      var remaining := CeilSeconds(CooldownUntil(store).value - now);
      Check(SessionStatus(false, None, true, Some(remaining), None, None), store, false)
    else if FreshCache(store, now).Some? then
      Check(FreshCache(store, now).value, store, false)
    else
      var result := ClassifySession(v, net);
      var saved := store[CachedStatusKey := StatusValue(result.(timestamp := Some(now)))];
      var after := if result.rateLimited then saved[RateLimitKey := TimeValue(now + Cooldown(v))] else saved;
      Check(result, after, true)
  }

  /** Inside the cooldown the check answers rate-limited with the seconds
      left, rounded up, and touches neither the network nor the store. */
  lemma CooldownShortCircuits(v: Variant, store: map<string, Stored>, now: int, net: SessionReply)
    requires InCooldown(store, now)
    ensures var c := CheckStatus(v, store, now, net);
            var until := CooldownUntil(store).value;
            !c.live && c.store == store &&
            c.reply.rateLimited && !c.reply.loggedIn && c.reply.retryAfter.Some? &&
            c.reply.retryAfter.value >= 1 &&
            (c.reply.retryAfter.value - 1) * 1000 < until - now <= c.reply.retryAfter.value * 1000
  {
  }

  /** Outside the cooldown, a cached status younger than the time-to-live is
      returned exactly as stored, logged in or not. */
  lemma FreshCacheReturnedVerbatim(v: Variant, store: map<string, Stored>, now: int, net: SessionReply)
    requires !InCooldown(store, now) && FreshCache(store, now).Some?
    ensures var c := CheckStatus(v, store, now, net);
            !c.live && c.store == store && c.reply == store[CachedStatusKey].status
  {
  }

  /** A live check overwrites the cache with the classified reply stamped
      with `now`, and arms the variant's cooldown exactly when the reply is
      rate-limited; no other key changes. */
  lemma LiveCheckOverwrites(v: Variant, store: map<string, Stored>, now: int, net: SessionReply)
    requires !InCooldown(store, now) && FreshCache(store, now).None?
    ensures var c := CheckStatus(v, store, now, net);
            c.live &&
            c.store.Keys == store.Keys + {CachedStatusKey} + (if c.reply.rateLimited then {RateLimitKey} else {}) &&
            (c.reply.rateLimited <==> net.SessionResponse? && net.status == 429) &&
            (c.reply.rateLimited ==> c.store[RateLimitKey] == TimeValue(now + Cooldown(v))) &&
            (!c.reply.rateLimited && RateLimitKey in store ==> c.store[RateLimitKey] == store[RateLimitKey]) &&
            forall k :: k in store && k != CachedStatusKey && k != RateLimitKey ==> c.store[k] == store[k]
  {
  }

  /** After a live check, no check goes live again for the whole
      time-to-live, whatever the clock does in between; if the live reply was
      rate-limited, every answer in that window is rate-limited too (first
      from the cooldown, then from the cached reply). */
  lemma QuietAfterLiveCheck(v: Variant, store: map<string, Stored>, t: int, net: SessionReply,
                            t2: int, net2: SessionReply)
    requires CheckStatus(v, store, t, net).live
    requires t2 < t + StatusTtl
    ensures var c2 := CheckStatus(v, CheckStatus(v, store, t, net).store, t2, net2);
            !c2.live &&
            (CheckStatus(v, store, t, net).reply.rateLimited ==> c2.reply.rateLimited)
  {
    var c := CheckStatus(v, store, t, net);
    assert FreshCache(c.store, t2) == Some(c.reply.(timestamp := Some(t)));
  }

  /** With both keys removed, the next check always goes live. */
  lemma ClearedCheckGoesLive(v: Variant, store: map<string, Stored>, now: int, net: SessionReply)
    ensures CheckStatus(v, store - {CachedStatusKey, RateLimitKey}, now, net).live
  {
  }

  /** The cooldowns differ: five seconds after a 429 the background worker
      is still cooling down and `api.js` is not, but both answer from the
      cache and stay off the network. */
  lemma CooldownLengthsDiffer(store: map<string, Stored>, t: int, net: SessionReply, net2: SessionReply)
    requires t > 0 && !InCooldown(store, t) && FreshCache(store, t).None?
    requires net.SessionResponse? && net.status == 429
    ensures InCooldown(CheckStatus(Background, store, t, net).store, t + 5000)
    ensures !InCooldown(CheckStatus(Api, store, t, net).store, t + 5000)
    ensures !CheckStatus(Api, CheckStatus(Api, store, t, net).store, t + 5000, net2).live
  {
    QuietAfterLiveCheck(Api, store, t, net, t + 5000, net2);
  }

  /** The two storage keys as a `chrome.storage.local` area holds them, and
      the number of session requests made so far. */
  class StatusCache {
    const variant: Variant
    var store: map<string, Stored>
    var liveChecks: nat

    constructor(v: Variant, initial: map<string, Stored>)
      ensures variant == v && store == initial && liveChecks == 0
    {
      variant := v;
      store := initial;
      liveChecks := 0;
    }

    /** `checkUserStatus()`: reads the cooldown key, then the cache key, and
        only then asks the network, writing the cache and possibly the
        cooldown key. */
    method CheckUserStatus(now: int, net: SessionReply) returns (r: SessionStatus)
      modifies this
      ensures var c := CheckStatus(variant, old(store), now, net);
              r == c.reply && store == c.store &&
              liveChecks == old(liveChecks) + (if c.live then 1 else 0)
    {
      if RateLimitKey in store && store[RateLimitKey].TimeValue? && store[RateLimitKey].ms != 0
         && now < store[RateLimitKey].ms {
        var remaining := CeilSeconds(store[RateLimitKey].ms - now);
        return SessionStatus(false, None, true, Some(remaining), None, None);
      }
      if CachedStatusKey in store && store[CachedStatusKey].StatusValue? {
        var cache := store[CachedStatusKey].status;
        if cache.timestamp.Some? && now - cache.timestamp.value < StatusTtl && cache.user.Some? {
          return cache;
        } else if cache.timestamp.Some? && now - cache.timestamp.value < StatusTtl && cache.user.None? {
          return cache;
        }
      }
      var result := ClassifySession(variant, net);
      liveChecks := liveChecks + 1;
      store := store[CachedStatusKey := StatusValue(result.(timestamp := Some(now)))];
      if result.rateLimited {
        store := store[RateLimitKey := TimeValue(now + Cooldown(variant))];
      }
      return result;
    }

    /** `clearUserCache()`: removes both keys and nothing else. */
    method ClearUserCache()
      modifies this
      ensures store == old(store) - {CachedStatusKey, RateLimitKey}
      ensures liveChecks == old(liveChecks)
    {
      store := store - {CachedStatusKey, RateLimitKey};
    }
  }
}
