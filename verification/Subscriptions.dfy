/** The subscription registry of one connection: a map from keys to open channels, a wait
    group and a counter. */
module Subscriptions {
  /** What the registry holds. `closed` remembers every channel ever closed, and `panicked`
      whether a channel was closed twice or the wait group would have gone negative. */
  datatype Registry<C(==)> = Registry(
    subs: map<string, C>, wg: int, count: int, closed: set<C>, panicked: bool)

  function Empty<C(==)>(): Registry<C> {
    Registry(map[], 0, 0, {}, false)
  }

  /** Subscribing offers a new channel; a channel already stored for the key wins. */
  function AfterSubscribe<C(==)>(r: Registry<C>, key: string, made: C): Registry<C> {
    r.(wg := r.wg + 1, count := r.count + 1,
       subs := if key in r.subs then r.subs else r.subs[key := made])
  }

  function AfterUnsubscribe<C(==)>(r: Registry<C>, key: string): Registry<C> {
    if key !in r.subs then r
    else
      var ch := r.subs[key];
      Registry(r.subs - {key}, r.wg - 1, r.count - 1, r.closed + {ch},
               r.panicked || ch in r.closed || r.wg <= 0)
  }

  lemma RemoveCounts<C>(m: map<string, C>, key: string)
    requires key in m
    ensures |m - {key}| == |m| - 1
  {
    assert (m - {key}).Keys == m.Keys - {key};
  }

  lemma AddCounts<C>(m: map<string, C>, key: string, c: C)
    requires key !in m
    ensures |m[key := c]| == |m| + 1
  {
    assert m[key := c].Keys == m.Keys + {key};
  }

  /** A Go channel, as far as subscriptions use it: it carries nothing and is closed once. */
  class Channel {
    var closed: bool

    constructor ()
      ensures !closed
    {
      closed := false;
    }

    /** Closing a closed channel panics. */
    method Close()
      requires !closed
      modifies this
      ensures closed
    {
      closed := true;
    }
  }

  class Manager {
    var s: map<string, Channel>
    var wg: int
    var count: int
    ghost var everClosed: set<Channel>

    ghost predicate Valid()
      reads this, s.Values, everClosed
    {
      && wg == count && wg >= |s|
      && (forall k | k in s :: !s[k].closed && s[k] !in everClosed)
      && (forall k1, k2 | k1 in s && k2 in s && s[k1] == s[k2] :: k1 == k2)
      && (forall c | c in everClosed :: c.closed)
    }

    ghost function Contents(): Registry<Channel>
      reads this
    {
      Registry(s, wg, count, everClosed, false)
    }

    constructor ()
      ensures Valid() && Contents() == Empty()
    {
      s, wg, count, everClosed := map[], 0, 0, {};
    }

    method Subscribe(key: string) returns (ch: Channel)
      requires Valid()
      modifies this
      ensures Valid() && !ch.closed
      ensures Contents() == AfterSubscribe(old(Contents()), key, ch)
      ensures ch == s[key] && (key in old(s) || fresh(ch))
    {
      wg := wg + 1;
      count := count + 1;
      var made := new Channel();
      if key !in s {
        AddCounts(s, key, made);
        s := s[key := made];
      }
      ch := s[key];
    }

    method Subscribed(key: string) returns (ok: bool)
      ensures ok <==> key in s
    {
      ok := key in s;
    }

    /** `Valid()` rules out both panics: the channel is still open and the wait group positive. */
    method Unsubscribe(key: string) returns (ok: bool)
      requires Valid()
      modifies this, s.Values
      ensures Valid() && ok == (key in old(s))
      ensures Contents() == AfterUnsubscribe(old(Contents()), key)
      ensures ok ==> old(s)[key].closed
      ensures forall k | k in s :: s[k].closed == old(s[k].closed)
    {
      if key !in s {
        return false;
      }
      RemoveCounts(s, key);
      count := count - 1;
      var ch := s[key];
      ch.Close();
      everClosed := everClosed + {ch};
      s := s - {key};
      wg := wg - 1;
      return true;
    }
  }
}
