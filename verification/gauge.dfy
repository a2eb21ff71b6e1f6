/** The SSL provisioning gauge: one series per zone, hostname and method, and the TTL cache
    that removes them. Setting a series and entering it into the cache are two separate
    atomic actions, so other actions may come in between. */
module SSLGauge {
  import opened Types

  const TTL: Time := 180

  datatype Series = Series(zone: string, hostname: string, dcvMethod: string)
  datatype Entry = Entry(series: Series, expiresAt: Time)

  function Key(s: Series): string {
    s.zone + "/" + s.hostname
  }

  predicate NoSlash(name: string) {
    '/' !in name
  }

  // In a key the first slash ends the zone name.
  lemma FirstSlash(s: Series, i: nat)
    requires NoSlash(s.zone) && i <= |s.zone|
    ensures Key(s)[i] == '/' <==> i == |s.zone|
  {
  }

  /** Distinct zone and hostname pairs have distinct keys, as zone names hold no slash. */
  lemma KeyIsInjective(s: Series, t: Series)
    requires NoSlash(s.zone) && NoSlash(t.zone)
    ensures Key(s) == Key(t) <==> s.zone == t.zone && s.hostname == t.hostname
  {
    if Key(s) == Key(t) {
      var shorter := if |s.zone| < |t.zone| then |s.zone| else |t.zone|;
      FirstSlash(s, shorter);
      FirstSlash(t, shorter);
      assert s.zone == Key(s)[..shorter] == Key(t)[..shorter] == t.zone;
      assert s.hostname == Key(s)[shorter + 1..] == Key(t)[shorter + 1..] == t.hostname;
    }
  }

  /** Keys need that: every series whose zone name holds a slash shares its key with a series
      of another zone. */
  lemma SlashCollides(s: Series) returns (t: Series)
    requires !NoSlash(s.zone)
    ensures t.zone != s.zone && NoSlash(t.zone) && Key(t) == Key(s)
  {
    var i := SlashIn(s.zone);
    t := Series(s.zone[..i], s.zone[i + 1..] + "/" + s.hostname, s.dcvMethod);
    assert s.zone == s.zone[..i] + "/" + s.zone[i + 1..];
  }

  // The first slash of a name.
  lemma {:induction false} SlashIn(name: string) returns (i: nat)
    requires !NoSlash(name)
    ensures i < |name| && name[i] == '/' && NoSlash(name[..i])
  {
    if name[0] == '/' {
      i := 0;
    } else {
      var k := SlashIn(name[1..]);
      i := k + 1;
      assert name[..i] == [name[0]] + name[1..][..k];
    }
  }

  // Every series has just been set and is about to be entered, or matches the cache entry
  // of its zone and hostname.
  ghost predicate Consistent(series: map<Series, int>, cache: map<string, Entry>, inFlight: multiset<Series>) {
    && (forall s :: s in series || s in inFlight ==> NoSlash(s.zone))
    && (forall key :: key in cache ==> Key(cache[key].series) == key && NoSlash(cache[key].series.zone))
    && (forall s :: s in series ==> s in inFlight || (Key(s) in cache && cache[Key(s)].series == s))
  }

  /** At rest there is at most one method per zone and hostname. */
  lemma OneMethodAtRest(series: map<Series, int>, cache: map<string, Entry>, s: Series, t: Series)
    requires Consistent(series, cache, multiset{})
    requires s in series && t in series && s.zone == t.zone && s.hostname == t.hostname
    ensures s == t
  {
    assert Key(s) == Key(t);
  }

  // A clean-up in progress: the entries under keys are still to be looked at.
  ghost predicate Cleaning(series0: map<Series, int>, cache0: map<string, Entry>, inFlight: multiset<Series>, now: Time,
                           series: map<Series, int>, cache: map<string, Entry>, keys: set<string>)
  {
    && Consistent(series, cache, inFlight)
    && keys <= cache.Keys <= cache0.Keys
    && (forall key :: key in cache ==> cache[key] == cache0[key])
    && (forall key :: key in cache0 && key !in keys ==> (key in cache <==> now <= cache0[key].expiresAt))
    && (forall s :: s in series ==> s in series0 && series[s] == series0[s])
    && (forall s :: s in series0 && Key(s) in cache && cache[Key(s)].series == s ==> s in series)
  }

  // Looking at one entry, and removing it with its series if it has expired.
  lemma CleanOne(series0: map<Series, int>, cache0: map<string, Entry>, inFlight: multiset<Series>, now: Time,
                 series: map<Series, int>, cache: map<string, Entry>, rest: set<string>, key: string)
    requires key !in rest && Cleaning(series0, cache0, inFlight, now, series, cache, rest + {key})
    ensures var expired := now > cache[key].expiresAt;
            Cleaning(series0, cache0, inFlight, now,
                     if expired then series - {cache[key].series} else series,
                     if expired then cache - {key} else cache, rest)
  {
  }

  class SSLProvisioning {
    var series: map<Series, int>
    var cache: map<string, Entry>
    // The series set by setSSLProvisioningDuration calls that have not yet taken the lock.
    ghost var inFlight: multiset<Series>

    ghost predicate Valid()
      reads this
    {
      Consistent(series, cache, inFlight)
    }

    constructor ()
      ensures Valid() && series == map[] && cache == map[] && inFlight == multiset{}
    {
      series, cache, inFlight := map[], map[], multiset{};
    }

    /** First action of setSSLProvisioningDuration: the gauge is set. */
    method SetGauge(s: Series, duration: int)
      requires Valid() && NoSlash(s.zone)
      modifies this
      ensures Valid()
      ensures series == old(series)[s := duration] && cache == old(cache)
      ensures inFlight == old(inFlight) + multiset{s}
    {
      series := series[s := duration];
      inFlight := inFlight + multiset{s};
    }

    /** Second action, under the lock: the series is entered into the cache, and a series of
        the hostname with another method goes. */
    method Register(s: Series, now: Time)
      requires Valid() && s in inFlight
      modifies this
      ensures Valid()
      ensures inFlight == old(inFlight) - multiset{s}
      ensures cache == old(cache)[Key(s) := Entry(s, now + 180)]
      ensures forall t :: t in series <==>
                t in old(series)
                && !(Key(s) in old(cache) && t == old(cache)[Key(s)].series && t.dcvMethod != s.dcvMethod)
      ensures forall t :: t in series ==> series[t] == old(series)[t]
    {
      var key := Key(s);
      if key in cache && cache[key].series.dcvMethod != s.dcvMethod {
        series := series - {cache[key].series};
      }
      cache := cache[key := Entry(s, now + TTL)];
      inFlight := inFlight - multiset{s};
      forall t | t in series
        ensures t in inFlight || (Key(t) in cache && cache[Key(t)].series == t)
      {
        if t !in inFlight && t != s {
          KeyIsInjective(s, t);
        }
      }
    }

    /** setSSLProvisioningDuration, with nothing in between. */
    method SetSSLProvisioningDuration(s: Series, duration: int, now: Time)
      requires Valid() && NoSlash(s.zone)
      modifies this
      ensures Valid() && inFlight == old(inFlight)
      ensures cache == old(cache)[Key(s) := Entry(s, now + 180)]
      ensures s in series && series[s] == duration
    {
      SetGauge(s, duration);
      Register(s, now);
    }

    /** cleanExpiredSSLProvisioning: afterwards no expired entry is left, and no series of
        one but those just being set. */
    method CleanExpired(now: Time)
      requires Valid()
      modifies this
      ensures Valid() && inFlight == old(inFlight)
      ensures cache == map key | key in old(cache) && now <= old(cache)[key].expiresAt :: old(cache)[key]
      ensures forall s :: s in series ==>
                && s in old(series) && series[s] == old(series)[s]
                && (s in inFlight || (Key(s) in cache && cache[Key(s)].series == s && now <= cache[Key(s)].expiresAt))
      ensures forall s :: s in old(series) && Key(s) in cache && cache[Key(s)].series == s ==> s in series
    {
      ghost var series0, cache0 := series, cache;
      var keys := cache.Keys;
      while keys != {}
        invariant inFlight == old(inFlight)
        invariant Cleaning(series0, cache0, inFlight, now, series, cache, keys)
        decreases keys
      {
        var key :| key in keys;
        keys := keys - {key};
        assert keys + {key} <= cache.Keys;
        CleanOne(series0, cache0, inFlight, now, series, cache, keys, key);
        var entry := cache[key];
        if now > entry.expiresAt {
          series := series - {entry.series};
          cache := cache - {key};
        }
      }
    }

    /** The Zone is gone: its series go, its cache entries stay until they expire. */
    method RemoveZone(zone: string)
      requires Valid()
      modifies this`series
      ensures Valid()
      ensures series == map s | s in old(series) && s.zone != zone :: old(series)[s]
    {
      series := map s | s in series && s.zone != zone :: series[s];
    }
  }
}
