/** The in-memory session store (koraku/core/session_store.py): idle sessions expire, the oldest are
    evicted, and a session is resumed only by its owner. Times are clock ticks. */
module SessionStore {
  import opened Wrappers
  import opened Text

  class SessionState {
    const sessionId: string
    const ownerSub: Option<string>
    const ownerOrgId: Option<string>
    var updatedAt: int

    constructor (sessionId: string, ownerSub: Option<string>, ownerOrgId: Option<string>, now: int)
      ensures this.sessionId == sessionId && this.ownerSub == ownerSub && this.ownerOrgId == ownerOrgId
      ensures updatedAt == now
    {
      this.sessionId, this.ownerSub, this.ownerOrgId := sessionId, ownerSub, ownerOrgId;
      updatedAt := now;
    }

    method Touch(now: int)
      modifies this
      ensures updatedAt == now
    {
      updatedAt := now;
    }
  }

  predicate Unexpired(s: SessionState, now: int, ttl: int)
    reads s
  {
    now - s.updatedAt <= ttl
  }

  lemma HasKey<T>(s: set<string>, m: map<string, T>)
    requires s != {} && s <= m.Keys
    ensures exists k :: k in s
  {
    if forall k :: k !in s {
      assert false;
    }
  }

  lemma NotEmpty<T>(m: map<string, T>)
    ensures m == map[] <==> m.Keys == {}
  {
  }

  lemma FewerKeys<T>(m: map<string, T>, n: map<string, T>)
    requires n.Keys <= m.Keys
    ensures |n| <= |m|
    ensures |n| == |m| ==> n.Keys == m.Keys
  {
    assert |n| == |n.Keys| && |m| == |m.Keys|;
    Subset(n.Keys, m.Keys);
  }

  lemma {:induction false} Subset(a: set<string>, b: set<string>)
    requires a <= b
    ensures |a| <= |b| && (|a| == |b| ==> a == b)
  {
    assert b == a + (b - a);
    assert |b| == |a| + |b - a|;
  }

  lemma OneMoreKey<T>(m: map<string, T>, k: string, v: T)
    ensures |m[k := v]| <= |m| + 1
  {
    assert m[k := v].Keys == m.Keys + {k};
    assert |m[k := v]| == |m.Keys + {k}|;
  }

  lemma OneLess<T>(sessions: map<string, T>, id: string)
    requires id in sessions
    ensures |sessions - {id}| == |sessions| - 1
  {
    assert (sessions - {id}).Keys == sessions.Keys - {id};
  }

  /** The keys of a dictionary in the order of their insertion, once only those of `keys` are left. */
  function Only(order: seq<string>, keys: set<string>): (r: seq<string>)
    ensures |r| <= |order|
  {
    if order == [] then [] else (if order[0] in keys then [order[0]] else []) + Only(order[1..], keys)
  }

  predicate Unrepeated(order: seq<string>) {
    forall i, j :: 0 <= i < j < |order| ==> order[i] != order[j]
  }

  lemma {:induction false} OnlyKeeps(order: seq<string>, keys: set<string>)
    ensures forall k :: k in Only(order, keys) <==> k in order && k in keys
    ensures Unrepeated(order) ==> Unrepeated(Only(order, keys))
  {
    if order != [] {
      OnlyKeeps(order[1..], keys);
      var later := Only(order[1..], keys);
      assert forall k :: k in order <==> k == order[0] || k in order[1..];
      if Unrepeated(order) {
        assert order[0] !in order[1..];
      }
    }
  }

  lemma {:induction false} OnlyTwice(order: seq<string>, a: set<string>, b: set<string>)
    requires b <= a
    ensures Only(Only(order, a), b) == Only(order, b)
  {
    if order != [] {
      hide Only;
      OnlyTwice(order[1..], a, b);
      OnlyNext(order, a);
      OnlyNext(order, b);
      var later := Only(order[1..], a);
      if order[0] in a {
        assert ([order[0]] + later)[1..] == later;
        OnlyNext([order[0]] + later, b);
      } else {
        assert [] + later == later && [] + Only(order[1..], b) == Only(order[1..], b);
      }
    }
  }

  lemma OnlyNext(order: seq<string>, keys: set<string>)
    requires order != []
    ensures Only(order, keys) == (if order[0] in keys then [order[0]] else []) + Only(order[1..], keys)
  {
  }

  lemma {:induction false} OnlyAll(order: seq<string>, keys: set<string>)
    requires forall k :: k in order ==> k in keys
    ensures Only(order, keys) == order
  {
    if order != [] {
      OnlyAll(order[1..], keys);
    }
  }

  /** `a` stands before `b`. */
  predicate Before(order: seq<string>, a: string, b: string) {
    exists i, j :: 0 <= i < j < |order| && order[i] == a && order[j] == b
  }

  lemma {:induction false} OnlyOrdered(order: seq<string>, keys: set<string>, a: string, b: string)
    requires Before(Only(order, keys), a, b)
    ensures Before(order, a, b)
  {
    hide Before;
    BeforeIsTwo(Only(order, keys), a, b);
    var rest := order[1..];
    OnlyKeeps(rest, keys);
    if order[0] in keys {
      if Before(Only(rest, keys), a, b) {
        OnlyOrdered(rest, keys, a, b);
        BeforeLater(order, a, b);
      } else {
        FirstBefore(order[0], Only(rest, keys), a, b);
        BeforeIn(order, b);
      }
    } else {
      assert [] + Only(rest, keys) == Only(rest, keys);
      OnlyOrdered(rest, keys, a, b);
      BeforeLater(order, a, b);
    }
  }

  lemma BeforeIsTwo(order: seq<string>, a: string, b: string)
    requires Before(order, a, b)
    ensures |order| >= 2
  {
  }

  lemma BeforeLater(order: seq<string>, a: string, b: string)
    requires order != [] && Before(order[1..], a, b)
    ensures Before(order, a, b)
  {
    var i, j :| 0 <= i < j < |order[1..]| && order[1..][i] == a && order[1..][j] == b;
    assert order[i + 1] == a && order[j + 1] == b;
  }

  lemma FirstBefore(first: string, later: seq<string>, a: string, b: string)
    requires Before([first] + later, a, b) && !Before(later, a, b)
    ensures a == first && b in later
  {
    var order := [first] + later;
    var i, j :| 0 <= i < j < |order| && order[i] == a && order[j] == b;
    assert order[j] == later[j - 1];
    assert forall k :: 1 <= k < |order| ==> order[k] == later[k - 1];
  }

  lemma BeforeIn(order: seq<string>, b: string)
    requires order != [] && b in order[1..]
    ensures Before(order, order[0], b)
  {
    var j :| 0 <= j < |order[1..]| && order[1..][j] == b;
    assert order[j + 1] == b;
  }

  /** Of the keys with these ages only `left` are there still: those gone are no newer than those left, and
      stand before those of the same age. */
  ghost predicate OldestGone(ages: map<string, int>, before: seq<string>, left: set<string>) {
    && left <= ages.Keys
    && (forall k, j :: k in ages && k !in left && j in left ==>
          ages[k] <= ages[j] && (ages[k] == ages[j] ==> Before(before, k, j)))
  }

  lemma GoneFromAll(ages: map<string, int>, before: seq<string>, young: set<string>, left: set<string>)
    requires ages.Keys == young && OldestGone(ages, Only(before, young), left)
    ensures left <= young
    ensures forall k, j :: k in young && k !in left && j in left ==>
              ages[k] <= ages[j] && (ages[k] == ages[j] ==> Before(before, k, j))
  {
    hide Only, Before;
    forall k, j | k in young && k !in left && j in left && ages[k] == ages[j]
      ensures Before(before, k, j)
    {
      OnlyOrdered(before, young, k, j);
    }
  }

  lemma NoneGone(ages: map<string, int>, before: seq<string>)
    ensures OldestGone(ages, before, ages.Keys)
  {
  }

  lemma OneMoreGone(ages: map<string, int>, before: seq<string>, left: set<string>, oldest: string)
    requires OldestGone(ages, before, left) && oldest in left
    requires forall k :: k in left ==> ages[oldest] <= ages[k]
    requires forall k :: k in left && k != oldest && ages[k] == ages[oldest] ==> Before(Only(before, left), oldest, k)
    ensures OldestGone(ages, before, left - {oldest})
  {
    hide Only, Before;
    forall k | k in left && k != oldest && ages[k] == ages[oldest]
      ensures Before(before, oldest, k)
    {
      OnlyOrdered(before, left, oldest, k);
    }
  }

  class MemorySessionStore {
    var sessions: map<string, SessionState>
    /** The keys of the dictionary in the order in which it yields them. */
    var order: seq<string>

    /** Every session is stored under its own id. */
    ghost predicate Valid()
      reads this
    {
      && (forall k :: k in sessions ==> sessions[k].sessionId == k)
      && Unrepeated(order)
      && (forall k :: k in order <==> k in sessions)
    }

    constructor ()
      ensures Valid() && sessions == map[]
    {
      sessions, order := map[], [];
    }

    method Save(session: SessionState)
      requires Valid()
      modifies this
      ensures Valid() && sessions == old(sessions)[session.sessionId := session]
      ensures order == old(order) + if session.sessionId in old(sessions) then [] else [session.sessionId]
    {
      if session.sessionId !in sessions {
        order := order + [session.sessionId];
      }
      sessions := sessions[session.sessionId := session];
    }

    method Delete(id: string)
      requires Valid()
      modifies this
      ensures Valid() && sessions == old(sessions) - {id} && order == Only(old(order), sessions.Keys)
    {
      sessions := sessions - {id};
      OnlyKeeps(order, sessions.Keys);
      order := Only(order, sessions.Keys);
    }

    /** `min(self.sessions.keys(), key=...)`: of several oldest sessions the first one in the dictionary's order. */
    method Oldest() returns (oldest: string)
      requires Valid() && sessions != map[]
      ensures oldest in sessions
      ensures forall k :: k in sessions ==> sessions[oldest].updatedAt <= sessions[k].updatedAt
      ensures forall k :: k in sessions && k != oldest && sessions[k].updatedAt == sessions[oldest].updatedAt ==>
                Before(order, oldest, k)
    {
      NotEmpty(sessions);
      HasKey(sessions.Keys, sessions);
      var least := 0;
      for i := 1 to |order|
        invariant least < i <= |order|
        invariant forall j :: 0 <= j < i ==>
                    sessions[order[least]].updatedAt <= sessions[order[j]].updatedAt
        invariant forall j :: 0 <= j < least ==>
                    sessions[order[least]].updatedAt < sessions[order[j]].updatedAt
      {
        if sessions[order[i]].updatedAt < sessions[order[least]].updatedAt {
          least := i;
        }
      }
      oldest := order[least];
      forall k | k in sessions && k != oldest && sessions[k].updatedAt == sessions[oldest].updatedAt
        ensures Before(order, oldest, k)
      {
        var j :| 0 <= j < |order| && order[j] == k;
        assert least < j;
      }
    }

    method DropExpired(now: int, ttl: int)
      requires Valid()
      modifies this
      ensures Valid() && sessions.Keys <= old(sessions.Keys) && order == Only(old(order), sessions.Keys)
      ensures forall k :: k in sessions ==> sessions[k] == old(sessions)[k]
      ensures forall k :: k in old(sessions) ==> (k in sessions <==> Unexpired(old(sessions)[k], now, ttl))
    {
      hide Only;
      var keys := order;
      OnlyAll(keys, sessions.Keys);
      for i := 0 to |keys|
        invariant Valid() && sessions.Keys <= old(sessions.Keys) && order == Only(keys, sessions.Keys)
        invariant forall k :: k in sessions ==> sessions[k] == old(sessions)[k]
        invariant forall j :: 0 <= j < |keys| ==>
                    (keys[j] in sessions <==> j >= i || Unexpired(old(sessions)[keys[j]], now, ttl))
      {
        if now - sessions[keys[i]].updatedAt > ttl {
          ghost var before := sessions.Keys;
          Delete(keys[i]);
          OnlyTwice(keys, before, sessions.Keys);
        }
      }
    }

    /** The times of the last update. */
    ghost function Ages(): map<string, int>
      reads this, set k | k in sessions :: sessions[k]
    {
      map k | k in sessions :: sessions[k].updatedAt
    }

    /** One turn of the eviction loop. */
    method EvictOne(ghost ages: map<string, int>, ghost before: seq<string>)
      requires Valid() && sessions != map[] && sessions.Keys <= ages.Keys
      requires OldestGone(ages, before, sessions.Keys) && order == Only(before, sessions.Keys)
      requires forall k :: k in sessions ==> ages[k] == sessions[k].updatedAt
      modifies this
      ensures Valid() && sessions.Keys <= old(sessions.Keys) && |sessions| == |old(sessions)| - 1
      ensures forall k :: k in sessions ==> sessions[k] == old(sessions)[k]
      ensures OldestGone(ages, before, sessions.Keys) && order == Only(before, sessions.Keys)
    {
      hide Only, Before, OldestGone;
      var oldest := Oldest();
      OneLess(sessions, oldest);
      OneMoreGone(ages, before, sessions.Keys, oldest);
      OnlyTwice(before, sessions.Keys, sessions.Keys - {oldest});
      assert (sessions - {oldest}).Keys == sessions.Keys - {oldest};
      Delete(oldest);
    }

    /** The eviction loop of `prune`. */
    method EvictOldest(max: int) returns (ok: bool)
      requires Valid()
      modifies this
      ensures ok <==> max >= 0
      ensures Valid() && sessions.Keys <= old(sessions.Keys) && (ok ==> |sessions| <= max)
      ensures forall k :: k in sessions ==> sessions[k] == old(sessions)[k]
      ensures OldestGone(old(Ages()), old(order), sessions.Keys) && order == Only(old(order), sessions.Keys)
      ensures |sessions| < max ==> sessions == old(sessions)
    {
      hide Only, Before, OldestGone;
      OnlyAll(order, sessions.Keys);
      NoneGone(Ages(), order);
      assert Ages().Keys == sessions.Keys;
      while |sessions| > max
        invariant Valid() && sessions.Keys <= old(sessions.Keys)
        invariant forall k :: k in sessions ==> sessions[k] == old(sessions)[k]
        invariant OldestGone(old(Ages()), old(order), sessions.Keys) && order == Only(old(order), sessions.Keys)
        invariant |sessions| < max ==> sessions == old(sessions)
        decreases |sessions|
      {
        if sessions == map[] {
          return false;
        }
        EvictOne(old(Ages()), old(order));
      }
      ok := true;
    }

    /** `prune`. It fails when the maximum is negative. */
    method Prune(now: int, ttl: int, max: int) returns (ok: bool)
      requires Valid()
      modifies this
      ensures ok <==> max >= 0
      ensures Valid() && sessions.Keys <= old(sessions.Keys) && (ok ==> |sessions| <= max)
      ensures forall k :: k in sessions ==> sessions[k] == old(sessions)[k] && Unexpired(sessions[k], now, ttl)
      ensures forall k, j :: k in old(sessions) && k !in sessions && Unexpired(old(sessions)[k], now, ttl) && j in sessions ==>
                && old(sessions)[k].updatedAt <= sessions[j].updatedAt
                && (old(sessions)[k].updatedAt == sessions[j].updatedAt ==> Before(old(order), k, j))
      ensures order == Only(old(order), sessions.Keys)
      ensures |sessions| < max ==>
                forall k :: k in old(sessions) && Unexpired(old(sessions)[k], now, ttl) ==> k in sessions
    {
      hide Only, Before, Unrepeated, OldestGone;
      DropExpired(now, ttl);
      ghost var young, ages := sessions.Keys, Ages();
      ok := EvictOldest(max);
      OnlyTwice(old(order), young, sessions.Keys);
      GoneFromAll(ages, old(order), young, sessions.Keys);
    }

    /** `_create` */
    method Create(id: string, newId: string, ownerSub: Option<string>, ownerOrgId: Option<string>, now: int)
        returns (session: SessionState)
      requires Valid()
      modifies this
      ensures Valid() && fresh(session) && session.updatedAt == now
      ensures session.ownerSub == ownerSub && session.ownerOrgId == ownerOrgId
      ensures sessions == old(sessions)[session.sessionId := session]
    {
      var sid := Strip(id);
      sid := if |sid| > 255 then sid[..255] else sid;
      if sid == "" {
        sid := newId;
      }
      session := new SessionState(sid, ownerSub, ownerOrgId, now);
      Save(session);
    }

    /** The id that a request asks for, or the empty string. */
    function Asked(raw: string, isUuid: string -> bool): (id: string)
      ensures id != "" ==> isUuid(id) && id <= Strip(raw) && |id| <= 255
      ensures |Strip(raw)| <= 255 && isUuid(Strip(raw)) ==> id == Strip(raw)
    {
      var rs := Strip(raw);
      var cut := if |rs| > 255 then rs[..255] else rs;
      if cut != "" && isUuid(cut) then cut else ""
    }

    /** The stored session that `get_or_create` may hand out again. */
    predicate Resumable(id: string, ownerSub: Option<string>, ownerOrgId: Option<string>, now: int, ttl: int)
      reads this, if id in sessions then {sessions[id]} else {}
    {
      && id != "" && id in sessions
      && sessions[id].ownerSub == ownerSub && sessions[id].ownerOrgId == ownerOrgId
      && Unexpired(sessions[id], now, ttl)
    }

    /** The lookup of `get_or_create`, behind the pruning. */
    method ResumeOrCreate(id: string, newId: string, ownerSub: Option<string>, ownerOrgId: Option<string>,
                          now: int, ttl: int)
        returns (session: SessionState)
      requires Valid()
      modifies this, if id in sessions then {sessions[id]} else {}
      ensures Valid() && session.ownerSub == ownerSub && session.ownerOrgId == ownerOrgId && session.updatedAt == now
      ensures session.sessionId in sessions && sessions[session.sessionId] == session
      ensures |sessions| <= |old(sessions)| + 1
      ensures fresh(session) <==> !old(Resumable(id, ownerSub, ownerOrgId, now, ttl))
      ensures !fresh(session) ==> session == old(sessions)[id] && sessions == old(sessions)
      ensures forall k :: k in sessions && k != session.sessionId ==> k in old(sessions) && sessions[k] == old(sessions)[k]
      ensures fresh(session) ==> forall k :: k in old(sessions) ==> old(sessions)[k].updatedAt == old(sessions[k].updatedAt)
    {
      hide Strip, Only, Before, Unrepeated;
      if id in sessions && id != "" {
        var existing := sessions[id];
        if existing.ownerSub != ownerSub || existing.ownerOrgId != ownerOrgId {
          Delete(id);
        } else if now - existing.updatedAt <= ttl {
          existing.Touch(now);
          Save(existing);
          return existing;
        } else {
          Delete(id);
        }
      }
      FewerKeys(old(sessions), sessions);
      ghost var before := sessions;
      session := Create(id, newId, ownerSub, ownerOrgId, now);
      OneMoreKey(before, session.sessionId, session);
    }

    /** `get_or_create`. None when pruning fails. `pruned` and `now` are the clock at pruning and later. */
    method GetOrCreate(raw: string, isUuid: string -> bool, newId: string, ownerSub: Option<string>,
                       ownerOrgId: Option<string>, pruned: int, now: int, ttl: int, max: int)
        returns (session: Option<SessionState>)
      requires Valid() && pruned <= now
      modifies this, set k | k in sessions :: sessions[k]
      ensures Valid() && (session.Some? <==> max >= 0)
      ensures session.Some? ==>
                && session.value.ownerSub == ownerSub && session.value.ownerOrgId == ownerOrgId
                && session.value.sessionId in sessions && sessions[session.value.sessionId] == session.value
                && session.value.updatedAt == now && |sessions| <= max + 1
      ensures session.Some? && !fresh(session.value) ==>
                && old(Resumable(Asked(raw, isUuid), ownerSub, ownerOrgId, now, ttl))
                && session.value == old(sessions)[Asked(raw, isUuid)]
      ensures session.Some? && old(Resumable(Asked(raw, isUuid), ownerSub, ownerOrgId, now, ttl)) && |old(sessions)| <= max ==>
                !fresh(session.value)
      ensures session.Some? ==>
                forall k :: k in sessions && k != session.value.sessionId ==>
                  k in old(sessions) && sessions[k] == old(sessions)[k] && sessions[k].updatedAt == old(sessions[k].updatedAt)
    {
      hide Strip, Asked, Only, Before, Unrepeated;
      var ok := Prune(pruned, ttl, max);
      if !ok {
        return None;
      }
      FewerKeys(old(sessions), sessions);
      var kept := ResumeOrCreate(Asked(raw, isUuid), newId, ownerSub, ownerOrgId, now, ttl);
      session := Some(kept);
    }
  }
}
