/** The Redis lock (internal/redisx/redis.go) as a timed protocol. Times are in milliseconds. */
module RedisLock {
  import opened Models

  /** A stored key; without an expiry it never lapses. */
  datatype Entry = Entry(token: string, until: Option<int>)
  datatype Redis = Redis(now: int, keys: map<string, Entry>)

  predicate Unexpired(now: int, until: Option<int>) {
    until.None? || now < until.value
  }

  predicate Live(r: Redis, key: string) {
    key in r.keys && Unexpired(r.now, r.keys[key].until)
  }

  // ---------- the commands ----------

  /** SET NX: a zero lifetime stores the key without expiry. */
  function SetNx(r: Redis, key: string, token: string, ttl: nat): (Redis, bool) {
    if Live(r, key) then (r, false)
    else (r.(keys := r.keys[key := Entry(token, if ttl == 0 then None else Some(r.now + ttl))]), true)
  }

  predicate Matches(r: Redis, key: string, token: string) {
    Live(r, key) && r.keys[key].token == token
  }

  /** Compare and delete. */
  function Drop(r: Redis, key: string, token: string): (Redis, bool) {
    if Matches(r, key, token) then (r.(keys := r.keys - {key}), true) else (r, false)
  }

  function WholeSeconds(ttl: nat): nat { ttl / 1000 }

  /** Compare and EXPIRE, in whole seconds: zero seconds deletes the key and still answers yes. */
  function Extend(r: Redis, key: string, token: string, ttl: nat): (Redis, bool) {
    if !Matches(r, key, token) then (r, false)
    else if WholeSeconds(ttl) == 0 then (r.(keys := r.keys - {key}), true)
    else (r.(keys := r.keys[key := Entry(token, Some(r.now + 1000 * WholeSeconds(ttl)))]), true)
  }

  // ---------- clients ----------

  /** A lock somebody was given: what the server granted, and how long its holder thinks it has. */
  datatype Lease = Lease(key: string, token: string, granted: Option<int>, believed: Option<int>)
  datatype Sys = Sys(redis: Redis, leases: map<nat, Lease>)

  datatype Event =
    | Acquire(c: nat, key: string, token: string, ttl: nat)
    | Release(c: nat)
    | Refresh(c: nat, ttl: nat)
    | Wait(ms: nat)

  function Next(s: Sys, e: Event): Sys {
    match e
    case Acquire(c, key, token, ttl) =>
      var (redis, ok) := SetNx(s.redis, key, token, ttl);
      if c in s.leases || !ok then s
      else
        var until := redis.keys[key].until;
        Sys(redis, s.leases[c := Lease(key, token, until, until)])
    case Release(c) =>
      if c !in s.leases then s
      else Sys(Drop(s.redis, s.leases[c].key, s.leases[c].token).0, s.leases - {c})
    case Refresh(c, ttl) =>
      if c !in s.leases then s
      else
        var (redis, ok) := Extend(s.redis, s.leases[c].key, s.leases[c].token, ttl);
        if !ok then s
        else Sys(redis, s.leases[c := s.leases[c].(granted := Some(s.redis.now + 1000 * WholeSeconds(ttl)),
                                                   believed := Some(s.redis.now + ttl))])
    case Wait(ms) => s.(redis := s.redis.(now := s.redis.now + ms))
  }

  function Play(s: Sys, es: seq<Event>): Sys {
    if es == [] then s else Next(Play(s, es[..|es| - 1]), es[|es| - 1])
  }

  predicate Holds(s: Sys, c: nat) {
    c in s.leases && Unexpired(s.redis.now, s.leases[c].granted)
  }

  predicate Believes(s: Sys, c: nat) {
    c in s.leases && Unexpired(s.redis.now, s.leases[c].believed)
  }

  /** The server's entry backs every unexpired lease; tokens tell leases on a key apart. */
  ghost predicate Backed(s: Sys) {
    && (forall c :: Holds(s, c) ==>
          s.leases[c].key in s.redis.keys && s.redis.keys[s.leases[c].key]
              == Entry(s.leases[c].token, s.leases[c].granted))
    && (forall c, d :: c in s.leases && d in s.leases && c != d ==> s.leases[c].token != s.leases[d].token)
  }

  /** A fresh token is none that a lease still carries. */
  ghost predicate FreshToken(s: Sys, e: Event) {
    e.Acquire? ==> forall d :: d in s.leases ==> s.leases[d].token != e.token
  }

  /** Whoever else holds a lock holds it after the event just as before. */
  ghost predicate OthersKeep(s: Sys, s': Sys, e: Event) {
    forall d :: Holds(s, d) && (e.Release? || e.Refresh? ==> d != e.c) ==>
      && d in s'.leases && s'.leases[d] == s.leases[d]
      && (!e.Wait? ==> Holds(s', d))
  }

  lemma NextBacked(s: Sys, e: Event)
    requires Backed(s) && FreshToken(s, e)
    ensures Backed(Next(s, e)) && OthersKeep(s, Next(s, e), e)
  {
  }

  ghost predicate FreshTokens(s: Sys, es: seq<Event>) {
    es == [] || (FreshTokens(s, es[..|es| - 1]) && FreshToken(Play(s, es[..|es| - 1]), es[|es| - 1]))
  }

  lemma {:induction false} PlayBacked(s: Sys, es: seq<Event>)
    requires Backed(s) && FreshTokens(s, es)
    ensures Backed(Play(s, es))
  {
    if es != [] {
      PlayBacked(s, es[..|es| - 1]);
      NextBacked(Play(s, es[..|es| - 1]), es[|es| - 1]);
    }
  }

  /** In every run with fresh tokens at most one client holds an unexpired lease on a key. */
  lemma AtMostOneHolder(s: Sys, es: seq<Event>, c: nat, d: nat)
    requires Backed(s) && FreshTokens(s, es)
    requires var end := Play(s, es); Holds(end, c) && Holds(end, d) && end.leases[c].key == end.leases[d].key
    ensures c == d
  {
    PlayBacked(s, es);
  }

  /** Release or Refresh by a client whose lease has lapsed answers no and changes nothing on the server. */
  lemma LapsedClientsDoNothing(s: Sys, es: seq<Event>, c: nat, d: nat, e: Event)
    requires Backed(s) && FreshTokens(s, es) && (e.Release? || e.Refresh?) && e.c == c
    requires var m := Play(s, es); c in m.leases && !Holds(m, c) && Holds(m, d) && m.leases[d].key == m.leases[c].key
    ensures var m := Play(s, es); Next(m, e).redis == m.redis && Holds(Next(m, e), d)
  {
    PlayBacked(s, es);
  }

  // ---------- how long a lock lasts ----------

  function Waited(es: seq<Event>): nat {
    if es == [] then 0
    else
      var e := es[|es| - 1];
      Waited(es[..|es| - 1]) + if e.Wait? then e.ms else 0
  }

  /** The client neither releases nor refreshes. */
  predicate LeavesAlone(es: seq<Event>, c: nat) {
    forall i | 0 <= i < |es| :: (es[i].Release? || es[i].Refresh?) ==> es[i].c != c
  }

  lemma {:induction false} LeaseStays(s: Sys, es: seq<Event>, c: nat)
    requires c in s.leases && LeavesAlone(es, c)
    ensures var end := Play(s, es);
            c in end.leases && end.leases[c] == s.leases[c] && end.redis.now == s.redis.now + Waited(es)
  {
    if es != [] {
      LeaseStays(s, es[..|es| - 1], c);
    }
  }

  /** A lock acquired for ttl milliseconds is held for exactly that long, and for good with no lifetime, if its holder
      leaves it alone: until then nobody else's acquire of the key succeeds. */
  lemma AcquiredForItsLifetime(s: Sys, c: nat, key: string, token: string, ttl: nat, es: seq<Event>)
    requires Backed(s) && c !in s.leases && FreshToken(s, Acquire(c, key, token, ttl))
    requires var got := Next(s, Acquire(c, key, token, ttl));
             c in got.leases && FreshTokens(got, es) && LeavesAlone(es, c)
    ensures var end := Play(Next(s, Acquire(c, key, token, ttl)), es);
            && (Holds(end, c) <==> ttl == 0 || Waited(es) < ttl)
            && (ttl == 0 || Waited(es) < ttl ==>
                  forall d, token', ttl' :: Next(end, Acquire(d, key, token', ttl')) == end)
  {
    var got := Next(s, Acquire(c, key, token, ttl));
    NextBacked(s, Acquire(c, key, token, ttl));
    PlayBacked(got, es);
    LeaseStays(got, es, c);
  }

  /** An acquire succeeds if and only if the key is not stored or has lapsed. */
  lemma AcquiredIffFree(s: Sys, c: nat, key: string, token: string, ttl: nat)
    requires c !in s.leases
    ensures c in Next(s, Acquire(c, key, token, ttl)).leases
            <==> key !in s.redis.keys || (s.redis.keys[key].until.Some? && s.redis.keys[key].until.value <= s.redis.now)
  {
  }

  /** A refresh by the holder gives it q whole seconds from then, and lets it believe in all of ttl. */
  lemma RefreshedForWholeSeconds(s: Sys, c: nat, ttl: nat, q: nat, es: seq<Event>)
    requires Backed(s) && Holds(s, c) && 1000 * q <= ttl < 1000 * (q + 1) && LeavesAlone(es, c)
    ensures var end := Play(Next(s, Refresh(c, ttl)), es);
            (Holds(end, c) <==> Waited(es) < 1000 * q) && (Believes(end, c) <==> Waited(es) < ttl)
  {
    assert WholeSeconds(ttl) == q;
    LeaseStays(Next(s, Refresh(c, ttl)), es, c);
  }

  /** When the holder releases, the next acquire of the key succeeds. */
  lemma ReleaseFreesTheKey(s: Sys, c: nat, d: nat, token: string, ttl: nat)
    requires Backed(s) && Holds(s, c) && d !in s.leases
    ensures d in Next(Next(s, Event.Release(c)), Acquire(d, s.leases[c].key, token, ttl)).leases
  {
  }

  // ---------- what the holder believes ----------

  /** A refresh lifetime the server can express. */
  predicate Expressible(e: Event) {
    e.Refresh? ==> e.ttl % 1000 == 0
  }

  ghost predicate BeliefsGranted(s: Sys) {
    forall c :: c in s.leases ==> s.leases[c].believed == s.leases[c].granted
  }

  /** When every refresh is for whole seconds, holders believe what was granted, so belief excludes too. */
  lemma {:induction false} AtMostOneBeliever(s: Sys, es: seq<Event>)
    requires Backed(s) && BeliefsGranted(s) && FreshTokens(s, es)
    requires forall i | 0 <= i < |es| :: Expressible(es[i])
    ensures var end := Play(s, es);
            && BeliefsGranted(end)
            && forall c, d :: Believes(end, c) && Believes(end, d) && end.leases[c].key == end.leases[d].key ==> c == d
  {
    PlayBacked(s, es);
    if es != [] {
      AtMostOneBeliever(s, es[..|es| - 1]);
    }
  }

  /** Any other refresh lets a second client in before the first one's time is up; under a second, at once. */
  lemma TruncatedRefreshLetsTwoBelieve(s: Sys, c: nat, d: nat, token: string, ttl: nat, ttl': nat)
    requires Backed(s) && Holds(s, c) && d !in s.leases && ttl % 1000 != 0
    requires forall x :: x in s.leases ==> s.leases[x].token != token
    ensures var key := s.leases[c].key;
            var es := [Refresh(c, ttl), Wait(1000 * WholeSeconds(ttl)), Acquire(d, key, token, ttl')];
            && FreshTokens(s, es)
            && var end := Play(s, es);
            Believes(end, c) && Believes(end, d) && end.leases[c].key == end.leases[d].key && c != d
  {
    var key := s.leases[c].key;
    var e1, e2, e3 := Refresh(c, ttl), Wait(1000 * WholeSeconds(ttl)), Acquire(d, key, token, ttl');
    var es := [e1, e2, e3];
    assert es[..2] == [e1, e2] && [e1, e2][..1] == [e1] && [e1][..0] == [];
    assert Play(s, []) == s && FreshTokens(s, []);
    assert Play(s, [e1]) == Next(s, e1) && FreshTokens(s, [e1]);
    assert Play(s, [e1, e2]) == Next(Next(s, e1), e2) && FreshTokens(s, [e1, e2]);
    assert Play(s, es) == Next(Next(Next(s, e1), e2), e3);
  }

  /** Tokens are clock readings; if two leases on a key share one, the lapsed client's release frees the
      other's lock. */
  lemma SharedTokenFreesAnother(s: Sys, c: nat, d: nat)
    requires c in s.leases && d in s.leases && c != d && !Holds(s, c) && Holds(s, d)
    requires s.leases[c].key == s.leases[d].key && s.leases[c].token == s.leases[d].token
    requires var l := s.leases[d]; l.key in s.redis.keys && s.redis.keys[l.key] == Entry(l.token, l.granted)
    ensures var s' := Next(s, Event.Release(c)); Holds(s', d) && !Live(s'.redis, s.leases[d].key)
  {
  }

  // ---------- AcquireLock, Release and Refresh ----------

  class Client {
    var server: Redis

    constructor (server: Redis)
      ensures this.server == server
    {
      this.server := server;
    }

    /** Tries up to `retry` times. `pauses[i]` is the server as other clients leave it after the i-th sleep. */
    method AcquireLock(key: string, token: string, ttl: nat, retry: nat, pauses: seq<Redis>) returns (ok: bool, i: nat)
      requires |pauses| + 1 == if retry > 1 then retry else 1
      modifies this
      ensures var seen := [old(server)] + pauses;
              && i < |seen| && (forall j | 0 <= j < i :: Live(seen[j], key))
              && (server, ok) == SetNx(seen[i], key, token, ttl)
              && (ok <==> !Live(seen[i], key)) && (!ok ==> i == |pauses|)
      ensures ok ==> key in server.keys && server.keys[key].token == token
                     && server.keys[key].until == if ttl == 0 then None else Some(server.now + ttl)
    {
      ghost var seen := [server] + pauses;
      var maxRetry := if retry > 1 then retry else 1;
      ok, i := false, 0;
      while true
        invariant i < maxRetry && server == seen[i]
        invariant forall j | 0 <= j < i :: Live(seen[j], key)
        decreases maxRetry - i
      {
        if !Live(server, key) {
          var until := if ttl == 0 then None else Some(server.now + ttl);
          server := server.(keys := server.keys[key := Entry(token, until)]);
          return true, i;
        }
        if i + 1 == maxRetry { return false, i; }
        server := pauses[i];
        i := i + 1;
      }
    }

    method ReleaseLock(key: string, token: string) returns (ok: bool)
      modifies this
      ensures (server, ok) == Drop(old(server), key, token)
      ensures ok ==> key !in server.keys && Live(old(server), key) && old(server).keys[key].token == token
    {
      ok := Live(server, key) && server.keys[key].token == token;
      if ok {
        server := server.(keys := server.keys - {key});
      }
    }

    method RefreshLock(key: string, token: string, ttl: nat) returns (ok: bool)
      modifies this
      ensures (server, ok) == Extend(old(server), key, token, ttl)
      ensures ok && ttl < 1000 ==> key !in server.keys
      ensures ok && ttl >= 1000 ==>
                && key in server.keys && server.keys[key].token == token && server.keys[key].until.Some?
                && server.now + ttl - 1000 < server.keys[key].until.value <= server.now + ttl
                && (server.keys[key].until.value - server.now) % 1000 == 0
    {
      ok := Live(server, key) && server.keys[key].token == token;
      if ok {
        var sec := ttl / 1000;
        if sec == 0 {
          server := server.(keys := server.keys - {key});
        } else {
          server := server.(keys := server.keys[key := Entry(token, Some(server.now + 1000 * sec))]);
        }
      }
    }
  }
}
