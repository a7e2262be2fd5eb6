// The fixed-window limiter.  A bucket opens with a request, counts for one
// minute and is swept by the first request after that; this bounds what any
// sliding window admits.
module RateLimiter {

  datatype Bucket = Bucket(at: int, count: nat)

  // Clock readings are in nanoseconds.
  const MINUTE := 60_000_000_000
  const CAPACITY := 10000

  type Limits = map<string, Bucket>

  // ---------- The scopes in use ----------

  const SCOPES := {"bootstrap", "enroll", "login", "password"}

  function Maximum(scope: string): (max: nat)
    ensures max >= 1
  {
    match scope
    case "bootstrap" => 60
    case "enroll" => 30
    case _ => 5
  }

  // No scope is a prefix of another, so scope and host share no bucket with
  // any other pair although the key is their plain concatenation.
  lemma KeysIdentifyPairs(scope: string, host: string, scope': string, host': string)
    requires scope in SCOPES && scope' in SCOPES
    ensures scope + host == scope' + host' <==> scope == scope' && host == host'
  {
    var key, key' := scope + host, scope' + host';
    assert key[0] == scope[0] && key'[0] == scope'[0];
    assert key == key' ==> scope == scope';
    assert host == key[|scope|..] && host' == key'[|scope'|..];
  }

  // ---------- One request ----------

  function Swept(limits: Limits, now: int): Limits {
    map k | k in limits && !(now - limits[k].at > MINUTE) :: limits[k]
  }

  function Admit(limits: Limits, key: string, max: nat, now: int): (Limits, bool) {
    var swept := Swept(limits, now);
    if key in swept then
      var count := swept[key].count + 1;
      (swept[key := Bucket(swept[key].at, count)], count <= max)
    else if |swept| >= CAPACITY then (swept, false)
    else (swept[key := Bucket(now, 1)], 1 <= max)
  }

  class Limiter {
    var limits: Limits

    constructor ()
      ensures limits == map[]
    {
      limits := map[];
    }

    method Rate(scope: string, host: string, max: nat, now: int) returns (ok: bool)
      modifies this`limits
      ensures (limits, ok) == Admit(old(limits), scope + host, max, now)
    {
      var todo := limits.Keys;
      while todo != {}
        invariant todo <= limits.Keys <= old(limits).Keys
        invariant forall k :: k in limits ==> limits[k] == old(limits)[k]
        invariant forall k :: k in old(limits) && k !in todo ==>
                    (k in limits <==> !(now - old(limits)[k].at > MINUTE))
        decreases |todo|
      {
        var k :| k in todo;
        if now - limits[k].at > MINUTE {
          limits := limits - {k};
        }
        todo := todo - {k};
      }
      assert limits == Swept(old(limits), now);
      ghost var swept := limits;
      var key := scope + host;
      if key !in limits {
        if |limits| >= CAPACITY {
          return false;
        }
        limits := limits[key := Bucket(now, 0)];
      }
      limits := limits[key := Bucket(limits[key].at, limits[key].count + 1)];
      ok := limits[key].count <= max;
      assert key !in swept ==> limits == swept[key := Bucket(now, 1)];
      assert key in swept ==> limits == swept[key := Bucket(swept[key].at, swept[key].count + 1)];
    }
  }

  // ---------- Runs ----------

  datatype Hit = Hit(scope: string, host: string, now: int)

  function Key(h: Hit): string { h.scope + h.host }

  function After(hits: seq<Hit>): Limits
    decreases |hits|
  {
    if hits == [] then map[]
    else
      var h := hits[|hits| - 1];
      Admit(After(hits[..|hits| - 1]), Key(h), Maximum(h.scope), h.now).0
  }

  // Whether the last request of the run was admitted.
  predicate LastAdmitted(hits: seq<Hit>)
    requires hits != []
  {
    var h := hits[|hits| - 1];
    Admit(After(hits[..|hits| - 1]), Key(h), Maximum(h.scope), h.now).1
  }

  // Admitted requests of one scope and host in the closed window [lo, hi].
  function Admitted(hits: seq<Hit>, scope: string, host: string, lo: int, hi: int): nat
    decreases |hits|
  {
    if hits == [] then 0
    else
      var h := hits[|hits| - 1];
      Admitted(hits[..|hits| - 1], scope, host, lo, hi)
      + (if h.scope == scope && h.host == host && lo <= h.now <= hi && LastAdmitted(hits) then 1 else 0)
  }

  predicate Chronological(hits: seq<Hit>) {
    && (forall i :: 0 <= i < |hits| ==> hits[i].scope in SCOPES)
    && (forall i, j :: 0 <= i < j < |hits| ==> hits[i].now <= hits[j].now)
  }

  // When the latest bucket of a key was opened, whether or not it still exists.
  datatype Opening = Never | Opened(at: int)

  function Latest(hits: seq<Hit>, key: string): Opening
    decreases |hits|
  {
    if hits == [] then Never
    else
      var before := hits[..|hits| - 1];
      var h := hits[|hits| - 1];
      if Key(h) == key && key !in Swept(After(before), h.now) && key in After(hits) then Opened(h.now)
      else Latest(before, key)
  }

  // How many minutes, rounded up, an opening lies after the window's start.
  function Minutes(at: int, lo: int): nat {
    if at <= lo then 0 else (at - lo + MINUTE - 1) / MINUTE
  }

  function Min(a: nat, b: nat): nat { if a < b then a else b }

  // ---------- The bucket map ----------

  lemma {:induction false} AtMostCapacity(hits: seq<Hit>)
    ensures |After(hits)| <= CAPACITY
    decreases |hits|
  {
    if hits == [] {
    } else {
      var before, h := hits[..|hits| - 1], hits[|hits| - 1];
      AtMostCapacity(before);
      var limits := After(before);
      var swept := Swept(limits, h.now);
      SmallerDomain(swept, limits);
      var key := Key(h);
      if key in swept {
        assert swept[key := After(hits)[key]].Keys == swept.Keys;
        SmallerDomain(After(hits), swept);
      } else if key in After(hits) {
        assert After(hits).Keys == swept.Keys + {key};
        DomainSize(After(hits));
        DomainSize(swept);
      }
    }
  }

  lemma DomainSize(m: Limits)
    ensures |m| == |m.Keys|
  {
  }

  lemma SmallerDomain(m: Limits, n: Limits)
    requires m.Keys <= n.Keys
    ensures |m| <= |n|
  {
    SubsetSize(m.Keys, n.Keys);
    DomainSize(m);
    DomainSize(n);
  }

  lemma {:induction false} SubsetSize(a: set<string>, b: set<string>)
    requires a <= b
    ensures |a| <= |b|
    decreases |b|
  {
    if x :| x in b {
      SubsetSize(a - {x}, b - {x});
      if x in a {
        assert |a - {x}| == |a| - 1;
      } else {
        assert a - {x} == a;
      }
      assert |b - {x}| == |b| - 1;
    } else {
      assert a == {};
    }
  }

  // ---------- The sliding window ----------

  // The most that buckets older than the one opened at `at` can have admitted
  // since `lo`: the oldest of them spent its opening request before the window.
  function Earlier(at: int, lo: int, max: nat): int {
    if at <= lo then 0 else Minutes(at, lo) * max - 1
  }

  function Counted(count: nat, at: int, lo: int, max: nat): int {
    Min(count, max) - if at < lo then 1 else 0
  }

  // What a prefix of a run has admitted, in terms of its latest bucket.
  ghost predicate WindowInv(hits: seq<Hit>, scope: string, host: string, lo: int, hi: int) {
    var key, max, n := scope + host, Maximum(scope), Admitted(hits, scope, host, lo, hi);
    match Latest(hits, key)
    case Never => key !in After(hits) && n == 0
    case Opened(at) =>
      && hits != [] && at <= hits[|hits| - 1].now
      && (at + MINUTE < lo ==> n == 0)
      && (if key in After(hits)
          then After(hits)[key].at == at && After(hits)[key].count >= 1
               && n <= Earlier(at, lo, max) + Counted(After(hits)[key].count, at, lo, max)
          else at + MINUTE < hits[|hits| - 1].now && n <= Earlier(at, lo, max) + Counted(max, at, lo, max))
  }

  // A full bucket opened more than a minute before `now` counts as earlier.
  lemma MinutesApart(at: int, now: int, lo: int, max: nat)
    requires at + MINUTE < now && lo < now && max >= 1
    ensures Earlier(at, lo, max) + Counted(max, at, lo, max) <= Earlier(now, lo, max)
  {
    var a, b := Minutes(at, lo), Minutes(now, lo);
    if at < lo {
      assert 1 * max <= b * max;
    } else {
      assert a + 1 <= b;
      assert a * max + max == (a + 1) * max <= b * max;
      if at == lo {
        assert 2 * max <= b * max;
      }
    }
  }

  lemma WindowStep(hits: seq<Hit>, scope: string, host: string, lo: int, hi: int)
    requires hits != [] && Chronological(hits) && scope in SCOPES
    requires WindowInv(hits[..|hits| - 1], scope, host, lo, hi)
    ensures WindowInv(hits, scope, host, lo, hi)
  {
    var before, h := hits[..|hits| - 1], hits[|hits| - 1];
    var key, max := scope + host, Maximum(scope);
    KeysIdentifyPairs(h.scope, h.host, scope, host);
    var swept := Swept(After(before), h.now);
    assert before != [] ==> before[|before| - 1].now <= h.now;
    if Key(h) == key && key !in swept && key in After(hits) {
      OpeningStep(hits, scope, host, lo, hi);
    }
  }

  // The step that opens a new bucket for the key.
  lemma OpeningStep(hits: seq<Hit>, scope: string, host: string, lo: int, hi: int)
    requires hits != [] && Chronological(hits) && scope in SCOPES
    requires WindowInv(hits[..|hits| - 1], scope, host, lo, hi)
    requires Key(hits[|hits| - 1]) == scope + host && hits[|hits| - 1].scope == scope
    requires scope + host !in Swept(After(hits[..|hits| - 1]), hits[|hits| - 1].now) && scope + host in After(hits)
    ensures WindowInv(hits, scope, host, lo, hi)
  {
    var before, now, max := hits[..|hits| - 1], hits[|hits| - 1].now, Maximum(scope);
    var n, n' := Admitted(before, scope, host, lo, hi), Admitted(hits, scope, host, lo, hi);
    OpeningFacts(hits, scope, host, lo, hi);
    assert before != [] ==> before[|before| - 1].now <= now;
    match Latest(before, scope + host) {
      case Never => FirstOpening(now, lo, max, n');
      case Opened(at) => NextOpening(at, now, lo, max, n, n');
    }
  }

  lemma OpeningFacts(hits: seq<Hit>, scope: string, host: string, lo: int, hi: int)
    requires hits != [] && Key(hits[|hits| - 1]) == scope + host
    requires scope + host !in Swept(After(hits[..|hits| - 1]), hits[|hits| - 1].now) && scope + host in After(hits)
    ensures After(hits)[scope + host] == Bucket(hits[|hits| - 1].now, 1)
    ensures Latest(hits, scope + host) == Opened(hits[|hits| - 1].now)
    ensures Admitted(hits, scope, host, lo, hi)
         <= Admitted(hits[..|hits| - 1], scope, host, lo, hi) + if lo <= hits[|hits| - 1].now then 1 else 0
  {
  }

  lemma FirstOpening(now: int, lo: int, max: nat, n: nat)
    requires max >= 1 && n <= if lo <= now then 1 else 0
    ensures n <= Earlier(now, lo, max) + Counted(1, now, lo, max)
  {
  }

  lemma NextOpening(at: int, now: int, lo: int, max: nat, n: nat, n': nat)
    requires max >= 1 && at + MINUTE < now && n' <= n + if lo <= now then 1 else 0
    requires at + MINUTE < lo ==> n == 0
    requires n <= Earlier(at, lo, max) + Counted(max, at, lo, max)
    ensures n' <= Earlier(now, lo, max) + Counted(1, now, lo, max)
  {
    if lo < now {
      MinutesApart(at, now, lo, max);
    }
  }

  lemma {:induction false} WindowKept(hits: seq<Hit>, scope: string, host: string, lo: int, hi: int)
    requires Chronological(hits) && scope in SCOPES
    ensures WindowInv(hits, scope, host, lo, hi)
    decreases |hits|
  {
    if hits == [] {
    } else {
      WindowKept(hits[..|hits| - 1], scope, host, lo, hi);
      WindowStep(hits, scope, host, lo, hi);
    }
  }

  // The most that a closed window of k minutes admits.
  function Bound(k: nat, max: nat): int {
    if k == 0 then max else (k + 1) * max - 1
  }

  lemma OpeningWithin(at: int, lo: int, k: nat, count: nat, max: nat)
    requires at <= lo + k * MINUTE && max >= 1
    ensures Earlier(at, lo, max) + Counted(count, at, lo, max) <= Bound(k, max)
  {
    assert (k + 1) * max == k * max + max;
    if at <= lo {
      assert k >= 1 ==> k * max >= max;
    } else {
      assert Minutes(at, lo) <= k;
      assert Minutes(at, lo) * max <= k * max;
    }
  }

  // Any closed window of k minutes admits less than k + 1 times the maximum of
  // its scope (and at one instant no more than the maximum), for each scope and
  // host and in every run.
  lemma {:induction false} SlidingWindowBound(hits: seq<Hit>, scope: string, host: string, lo: int, k: nat)
    requires Chronological(hits) && scope in SCOPES
    ensures Admitted(hits, scope, host, lo, lo + k * MINUTE) <= Bound(k, Maximum(scope))
    decreases |hits|
  {
    var hi, max := lo + k * MINUTE, Maximum(scope);
    assert (k + 1) * max >= max >= 1;
    if hits == [] {
    } else {
      if hits[|hits| - 1].now > hi {
        SlidingWindowBound(hits[..|hits| - 1], scope, host, lo, k);
      } else {
        WindowKept(hits, scope, host, lo, hi);
        match Latest(hits, scope + host) {
          case Never =>
          case Opened(at) =>
            var count := if scope + host in After(hits) then After(hits)[scope + host].count else max;
            OpeningWithin(at, lo, k, count, max);
        }
      }
    }
  }

  // ---------- The bound is reached ----------

  function Burst(h: Hit, n: nat): (hits: seq<Hit>)
    ensures |hits| == n && forall i :: 0 <= i < n ==> hits[i] == h
  {
    if n == 0 then [] else Burst(h, n - 1) + [h]
  }

  // A request into an open bucket with room for it is admitted.
  lemma HitAdmitted(hits: seq<Hit>, all: seq<Hit>, h: Hit, b: Bucket, lo: int, hi: int)
    requires all == hits + [h] && After(hits) == map[Key(h) := b]
    requires h.now - b.at <= MINUTE && b.count + 1 <= Maximum(h.scope)
    ensures After(all) == map[Key(h) := Bucket(b.at, b.count + 1)]
    ensures Admitted(all, h.scope, h.host, lo, hi)
         == Admitted(hits, h.scope, h.host, lo, hi) + if lo <= h.now <= hi then 1 else 0
  {
  }

  lemma BurstLast(hits: seq<Hit>, h: Hit, n: nat)
    ensures hits + Burst(h, n + 1) == (hits + Burst(h, n)) + [h]
  {
  }

  lemma {:induction false} BurstAdmitted(hits: seq<Hit>, all: seq<Hit>, h: Hit, n: nat, b: Bucket, lo: int, hi: int)
    requires all == hits + Burst(h, n) && After(hits) == map[Key(h) := b]
    requires h.now - b.at <= MINUTE && b.count + n <= Maximum(h.scope)
    ensures After(all) == map[Key(h) := Bucket(b.at, b.count + n)]
    ensures Admitted(all, h.scope, h.host, lo, hi)
         == Admitted(hits, h.scope, h.host, lo, hi) + if lo <= h.now <= hi then n else 0
    decreases n
  {
    if n == 0 {
      assert all == hits;
    } else {
      var most := hits + Burst(h, n - 1);
      BurstLast(hits, h, n - 1);
      BurstAdmitted(hits, most, h, n - 1, b, lo, hi);
      HitAdmitted(most, all, h, Bucket(b.at, b.count + n - 1), lo, hi);
    }
  }

  // A request that finds every bucket swept opens one and is admitted.
  lemma OpeningAdmitted(hits: seq<Hit>, scope: string, host: string, now: int, lo: int, hi: int)
    requires Swept(After(hits), now) == map[] && scope in SCOPES
    ensures After(hits + [Hit(scope, host, now)]) == map[scope + host := Bucket(now, 1)]
    ensures Admitted(hits + [Hit(scope, host, now)], scope, host, lo, hi)
         == Admitted(hits, scope, host, lo, hi) + if lo <= now <= hi then 1 else 0
  {
  }

  // When the j-th bucket of the run below opens: one nanosecond after the one
  // before it expires.
  function OpenedAt(j: nat): nat { if j == 0 then 0 else OpenedAt(j - 1) + MINUTE + 1 }

  lemma {:induction false} OpenedWithin(j: nat)
    ensures OpenedAt(j) == j * MINUTE + j
  {
    if j == 0 {
    } else {
      OpenedWithin(j - 1);
    }
  }

  // One request, a burst a minute later, and then k full buckets in a row.
  function Volleys(scope: string, host: string, k: nat): seq<Hit> {
    if k == 0 then [Hit(scope, host, 0)] + Burst(Hit(scope, host, MINUTE), Maximum(scope) - 1)
    else
      Volleys(scope, host, k - 1) + [Hit(scope, host, OpenedAt(k))]
      + Burst(Hit(scope, host, OpenedAt(k)), Maximum(scope) - 1)
  }

  lemma {:induction false} VolleysChronological(scope: string, host: string, k: nat)
    requires scope in SCOPES
    ensures Chronological(Volleys(scope, host, k))
    ensures forall i :: 0 <= i < |Volleys(scope, host, k)| ==>
              Volleys(scope, host, k)[i].now <= if k == 0 then MINUTE else OpenedAt(k)
  {
    if k == 0 {
    } else {
      VolleysChronological(scope, host, k - 1);
      var before, all := Volleys(scope, host, k - 1), Volleys(scope, host, k);
      forall i | 0 <= i < |all| ensures all[i] == if i < |before| then before[i] else Hit(scope, host, OpenedAt(k)) {
      }
    }
  }

  // A full bucket's worth at one instant that finds every bucket swept.
  lemma VolleyAdmitted(hits: seq<Hit>, all: seq<Hit>, h: Hit, lo: int, hi: int)
    requires h.scope in SCOPES && Swept(After(hits), h.now) == map[]
    requires all == hits + [h] + Burst(h, Maximum(h.scope) - 1)
    ensures After(all) == map[Key(h) := Bucket(h.now, Maximum(h.scope))]
    ensures Admitted(all, h.scope, h.host, lo, hi)
         == Admitted(hits, h.scope, h.host, lo, hi) + if lo <= h.now <= hi then Maximum(h.scope) else 0
  {
    OpeningAdmitted(hits, h.scope, h.host, h.now, lo, hi);
    BurstAdmitted(hits + [h], all, h, Maximum(h.scope) - 1, Bucket(h.now, 1), lo, hi);
  }

  // The first bucket spends its opening request before the window at MINUTE,
  // and every later one is used up within it.
  lemma {:induction false} VolleysAdmitted(scope: string, host: string, k: nat, hi: int)
    requires scope in SCOPES && MINUTE <= hi && OpenedAt(k) <= hi
    ensures After(Volleys(scope, host, k)) == map[scope + host := Bucket(OpenedAt(k), Maximum(scope))]
    ensures Admitted(Volleys(scope, host, k), scope, host, MINUTE, hi) == (k + 1) * Maximum(scope) - 1
  {
    hide After, Admitted;
    var max := Maximum(scope);
    if k == 0 {
      FirstVolley(scope, host, hi);
    } else {
      VolleysAdmitted(scope, host, k - 1, hi);
      OneMoreVolley(scope, host, k, hi);
      assert (k + 1) * max == k * max + max;
    }
  }

  lemma FirstVolley(scope: string, host: string, hi: int)
    requires scope in SCOPES && MINUTE <= hi
    ensures After(Volleys(scope, host, 0)) == map[scope + host := Bucket(0, Maximum(scope))]
    ensures Admitted(Volleys(scope, host, 0), scope, host, MINUTE, hi) == Maximum(scope) - 1
  {
    OpeningAdmitted([], scope, host, 0, MINUTE, hi);
    var one := [Hit(scope, host, 0)];
    assert [] + one == one;
    BurstAdmitted(one, Volleys(scope, host, 0), Hit(scope, host, MINUTE), Maximum(scope) - 1, Bucket(0, 1), MINUTE, hi);
  }

  lemma OneMoreVolley(scope: string, host: string, k: nat, hi: int)
    requires scope in SCOPES && k > 0 && MINUTE <= OpenedAt(k) <= hi
    requires After(Volleys(scope, host, k - 1)) == map[scope + host := Bucket(OpenedAt(k - 1), Maximum(scope))]
    ensures After(Volleys(scope, host, k)) == map[scope + host := Bucket(OpenedAt(k), Maximum(scope))]
    ensures Admitted(Volleys(scope, host, k), scope, host, MINUTE, hi)
         == Admitted(Volleys(scope, host, k - 1), scope, host, MINUTE, hi) + Maximum(scope)
  {
    var before, h := Volleys(scope, host, k - 1), Hit(scope, host, OpenedAt(k));
    assert Swept(After(before), OpenedAt(k)) == map[];
    VolleyAdmitted(before, Volleys(scope, host, k), h, MINUTE, hi);
  }

  // The bound is attained by every scope and host in a window of any number of
  // minutes, as far as nanoseconds accumulate to less than one of them.
  lemma BoundReached(scope: string, host: string, k: nat)
    requires scope in SCOPES && 1 <= k <= MINUTE
    ensures Chronological(Volleys(scope, host, k))
    ensures Admitted(Volleys(scope, host, k), scope, host, MINUTE, MINUTE + k * MINUTE) == Bound(k, Maximum(scope))
  {
    VolleysChronological(scope, host, k);
    OpenedWithin(k);
    VolleysAdmitted(scope, host, k, MINUTE + k * MINUTE);
  }

  // And at one instant.
  lemma InstantBoundReached(scope: string, host: string, now: int)
    requires scope in SCOPES
    ensures Chronological([Hit(scope, host, now)] + Burst(Hit(scope, host, now), Maximum(scope) - 1))
    ensures Admitted([Hit(scope, host, now)] + Burst(Hit(scope, host, now), Maximum(scope) - 1), scope, host, now, now)
         == Bound(0, Maximum(scope))
  {
    var h := Hit(scope, host, now);
    assert [] + [h] == [h];
    VolleyAdmitted([], [h] + Burst(h, Maximum(scope) - 1), h, now, now);
  }
}
