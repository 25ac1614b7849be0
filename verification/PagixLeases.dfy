/** The lease records of the Pagix double, one subject at a time: a lease is the
    fence it was granted under, and its identity names the subject and the fence. */
module PagixLeases {
  import opened Wrappers

  type Time = int

  datatype Record = Record(owner: nat, fence: nat, expires: Time, released: bool, renewals: map<nat, Time>)

  datatype Answer = Held(fence: nat, expires: Time) | Lost | Released(fence: nat)

  predicate Live(r: Option<Record>, now: Time) {
    r.Some? && !r.value.released && now < r.value.expires
  }

  function Fence(r: Option<Record>): nat {
    if r.Some? then r.value.fence else 0
  }

  function Acquired(r: Option<Record>, owner: nat, ttl: Time, now: Time): (Option<Record>, Answer) {
    if Live(r, now) then (r, if r.value.owner == owner then Held(r.value.fence, r.value.expires) else Lost)
    else (Some(Record(owner, Fence(r) + 1, now + ttl, false, map[])), Held(Fence(r) + 1, now + ttl))
  }

  function Renewed(r: Option<Record>, fence: nat, occurrence: nat, ttl: Time, now: Time): (Option<Record>, Answer) {
    if r.None? || r.value.released || r.value.fence != fence then (r, Lost)
    else if occurrence in r.value.renewals then (r, Held(fence, r.value.renewals[occurrence]))
    else if r.value.expires <= now then (r, Lost)
    else (Some(r.value.(expires := now + ttl, renewals := r.value.renewals[occurrence := now + ttl])), Held(fence, now + ttl))
  }

  function Queried(r: Option<Record>, fence: nat, now: Time): Answer {
    if Live(r, now) && r.value.fence == fence then Held(fence, r.value.expires) else Lost
  }

  function ReleasedBy(r: Option<Record>, fence: nat): (Option<Record>, Answer) {
    if r.None? || r.value.fence != fence then (r, Lost) else (Some(r.value.(released := true)), Answer.Released(fence))
  }

  /** The double: the record of each subject, and its clock. */
  class Double {
    var leases: map<nat, Record>
    var now: Time

    constructor (now: Time)
      ensures this.now == now && leases == map[]
    {
      this.now, leases := now, map[];
    }

    function Lease(subject: nat): Option<Record>
      reads this
    {
      if subject in leases then Some(leases[subject]) else None
    }

    /** The subject's record is r, every other record is as it was. */
    twostate predicate OnlySubject(subject: nat, r: Option<Record>)
      reads this
    {
      && now == old(now) && Lease(subject) == r
      && forall s :: s != subject ==> Lease(s) == old(Lease(s))
    }

    method Acquire(subject: nat, owner: nat, ttl: Time) returns (a: Answer)
      modifies this`leases
      ensures (Lease(subject), a) == Acquired(old(Lease(subject)), owner, ttl, now)
      ensures OnlySubject(subject, Lease(subject))
    {
      var fence := 1;
      if subject in leases {
        var r := leases[subject];
        if !r.released && now < r.expires && r.owner != owner {
          return Lost;
        }
        if r.owner == owner && !r.released && now < r.expires {
          return Held(r.fence, r.expires);
        }
        fence := r.fence + 1;
      }
      leases := leases[subject := Record(owner, fence, now + ttl, false, map[])];
      return Held(fence, now + ttl);
    }

    method Renew(subject: nat, fence: nat, occurrence: nat, ttl: Time) returns (a: Answer)
      modifies this`leases
      ensures (Lease(subject), a) == Renewed(old(Lease(subject)), fence, occurrence, ttl, now)
      ensures OnlySubject(subject, Lease(subject))
    {
      if subject !in leases || leases[subject].released || leases[subject].fence != fence {
        return Lost;
      }
      var r := leases[subject];
      if occurrence in r.renewals {
        return Held(fence, r.renewals[occurrence]);
      }
      if !(now < r.expires) {
        return Lost;
      }
      r := r.(expires := now + ttl);
      r := r.(renewals := r.renewals[occurrence := r.expires]);
      leases := leases[subject := r];
      return Held(r.fence, r.expires);
    }

    method Query(subject: nat, fence: nat) returns (a: Answer)
      ensures a == Queried(Lease(subject), fence, now)
    {
      if subject !in leases || leases[subject].released || leases[subject].fence != fence || !(now < leases[subject].expires) {
        return Lost;
      }
      return Held(leases[subject].fence, leases[subject].expires);
    }

    method Release(subject: nat, fence: nat) returns (a: Answer)
      modifies this`leases
      ensures (Lease(subject), a) == ReleasedBy(old(Lease(subject)), fence)
      ensures OnlySubject(subject, Lease(subject))
    {
      if subject !in leases || leases[subject].fence != fence {
        return Lost;
      }
      leases := leases[subject := leases[subject].(released := true)];
      return Answer.Released(fence);
    }
  }

  datatype Call =
    | Acquire(owner: nat, ttl: Time)
    | Renew(fence: nat, occurrence: nat, ttl: Time)
    | Query(fence: nat)
    | Release(fence: nat)
    | Tick(elapsed: nat)

  /** A held answer: whom the lease belongs to, when it was given and until when it
      says the lease is valid. */
  datatype Grant = Grant(fence: nat, owner: nat, at: Time, expires: Time)

  /** A subject with what it answered so far and which of its leases were released. */
  datatype Traced = Traced(lease: Option<Record>, now: Time, grants: seq<Grant>, released: set<nat>)

  function Noted(t: Traced, r: Option<Record>, a: Answer): Traced {
    if a.Held? && r.Some? then t.(lease := r, grants := t.grants + [Grant(a.fence, r.value.owner, t.now, a.expires)])
    else t.(lease := r)
  }

  function Made(t: Traced, c: Call): Traced {
    match c
    case Acquire(o, ttl) => var (r, a) := Acquired(t.lease, o, ttl, t.now); Noted(t, r, a)
    case Renew(f, k, ttl) => var (r, a) := Renewed(t.lease, f, k, ttl, t.now); Noted(t, r, a)
    case Query(f) => Noted(t, t.lease, Queried(t.lease, f, t.now))
    case Release(f) =>
      var (r, a) := ReleasedBy(t.lease, f);
      t.(lease := r, released := t.released + if a.Released? then {f} else {})
    case Tick(d) => t.(now := t.now + d)
  }

  function After(t: Traced, cs: seq<Call>): Traced
    decreases |cs|
  {
    if cs == [] then t else After(Made(t, cs[0]), cs[1..])
  }

  /** The validity windows of two leases do not overlap: the earlier answer's
      lease was released, or had run out by its own word when the later lease
      answered anything. */
  ghost predicate Apart(t: Traced, g: Grant, h: Grant) {
    g.fence in t.released || g.expires <= h.at
  }

  ghost predicate Disjoint(t: Traced) {
    forall i, j :: 0 <= i < j < |t.grants| ==>
      && t.grants[i].fence <= t.grants[j].fence
      && (t.grants[i].fence == t.grants[j].fence ==> t.grants[i].owner == t.grants[j].owner)
      && (t.grants[i].fence < t.grants[j].fence ==> Apart(t, t.grants[i], t.grants[j]))
  }

  /** The call does not make a live lease end earlier than it said. */
  predicate Extends(t: Traced, c: Call) {
    c.Renew? && Live(t.lease, t.now) && t.lease.value.fence == c.fence && c.occurrence !in t.lease.value.renewals ==>
      t.lease.value.expires <= t.now + c.ttl
  }

  predicate AllExtend(t: Traced, cs: seq<Call>)
    decreases |cs|
  {
    cs != [] ==> Extends(t, cs[0]) && AllExtend(Made(t, cs[0]), cs[1..])
  }

  /** What every extending call keeps. */
  ghost predicate Sound(t: Traced) {
    && Disjoint(t)
    && (t.lease.None? ==> t.grants == [] && t.released == {})
    && (forall g :: g in t.grants ==> g.fence <= Fence(t.lease) && g.at <= t.now)
    && (t.lease.Some? ==>
         && (t.lease.value.released <==> t.lease.value.fence in t.released)
         && (forall f :: f in t.released ==> f <= t.lease.value.fence)
         && (forall g :: g in t.grants && g.fence == t.lease.value.fence ==>
              g.owner == t.lease.value.owner && g.expires <= t.lease.value.expires)
         && (forall g :: g in t.grants && g.fence < t.lease.value.fence ==> g.fence in t.released || g.expires <= t.now)
         && (forall k :: k in t.lease.value.renewals ==> t.lease.value.renewals[k] <= t.lease.value.expires))
  }

  lemma Answered(t: Traced, r: Option<Record>, a: Answer)
    requires Sound(t.(lease := r)) && a.Held? && r.Some?
    requires a.fence == r.value.fence && a.expires <= r.value.expires
    ensures Sound(Noted(t, r, a))
  {
    var u := Noted(t, r, a);
    assert forall g :: g in u.grants ==> g in t.grants || g == Grant(a.fence, r.value.owner, t.now, a.expires);
    forall i | 0 <= i < |t.grants|
      ensures t.grants[i].fence <= a.fence
      ensures t.grants[i].fence == a.fence ==> t.grants[i].owner == r.value.owner
      ensures t.grants[i].fence < a.fence ==> t.grants[i].fence in t.released || t.grants[i].expires <= t.now
    {
      assert t.grants[i] in t.grants;
    }
  }

  lemma AcquireKeeps(t: Traced, owner: nat, ttl: Time)
    requires Sound(t)
    ensures Sound(Made(t, Acquire(owner, ttl)))
  {
    var (r, a) := Acquired(t.lease, owner, ttl, t.now);
    assert Sound(t.(lease := r));
    if a.Held? {
      Answered(t, r, a);
    }
  }

  lemma RenewKeeps(t: Traced, fence: nat, occurrence: nat, ttl: Time)
    requires Sound(t) && Extends(t, Renew(fence, occurrence, ttl))
    ensures Sound(Made(t, Renew(fence, occurrence, ttl)))
  {
    var (r, a) := Renewed(t.lease, fence, occurrence, ttl, t.now);
    assert Sound(t.(lease := r));
    if a.Held? {
      Answered(t, r, a);
    }
  }

  lemma QueryKeeps(t: Traced, fence: nat)
    requires Sound(t)
    ensures Sound(Made(t, Query(fence)))
  {
    if Queried(t.lease, fence, t.now).Held? {
      Answered(t, t.lease, Queried(t.lease, fence, t.now));
    }
  }

  lemma ReleaseKeeps(t: Traced, fence: nat)
    requires Sound(t)
    ensures Sound(Made(t, Release(fence)))
  {
  }

  lemma CallKeeps(t: Traced, c: Call)
    requires Sound(t) && Extends(t, c)
    ensures Sound(Made(t, c))
  {
    match c
    case Acquire(o, ttl) => AcquireKeeps(t, o, ttl);
    case Renew(f, k, ttl) => RenewKeeps(t, f, k, ttl);
    case Query(f) => QueryKeeps(t, f);
    case Release(f) => ReleaseKeeps(t, f);
    case Tick(d) =>
  }

  /** Over any sequence of calls none of which shortens a live lease, the validity
      windows of different leases, and so of different owners, are disjoint unless
      released, under strictly growing fences. */
  lemma {:induction false} WindowsAreDisjoint(t: Traced, cs: seq<Call>)
    requires Sound(t) && AllExtend(t, cs)
    ensures Sound(After(t, cs)) && Disjoint(After(t, cs))
    decreases |cs|
  {
    if cs != [] {
      CallKeeps(t, cs[0]);
      WindowsAreDisjoint(Made(t, cs[0]), cs[1..]);
    }
  }

  predicate Uses(c: Call, ttl: Time) {
    c.Acquire? || c.Renew? ==> c.ttl == ttl
  }

  /** With one TTL and a clock that never goes back no call shortens a lease. */
  lemma {:induction false} OneTtlExtends(t: Traced, cs: seq<Call>, ttl: Time)
    requires forall i :: 0 <= i < |cs| ==> Uses(cs[i], ttl)
    requires t.lease.Some? ==> t.lease.value.expires <= t.now + ttl
    ensures AllExtend(t, cs)
    decreases |cs|
  {
    if cs != [] {
      assert Uses(cs[0], ttl);
      assert forall i :: 1 <= i < |cs| ==> cs[i] == cs[1..][i - 1];
      OneTtlExtends(Made(t, cs[0]), cs[1..], ttl);
    }
  }

  function Nothing(now: Time): Traced {
    Traced(None, now, [], {})
  }

  /** From nothing, one TTL: two answers that say "held" to different owners never
      overlap, however the calls interleave. */
  lemma OwnersNeverOverlap(cs: seq<Call>, ttl: Time, now: Time, i: nat, j: nat)
    requires forall k :: 0 <= k < |cs| ==> Uses(cs[k], ttl)
    requires var g := After(Nothing(now), cs).grants; i < j < |g| && g[i].owner != g[j].owner
    ensures var t := After(Nothing(now), cs); t.grants[i].fence < t.grants[j].fence && Apart(t, t.grants[i], t.grants[j])
  {
    OneTtlExtends(Nothing(now), cs, ttl);
    WindowsAreDisjoint(Nothing(now), cs);
  }

  /** Some owner can get the lease, after some time, while an answer to the current
      owner still says it holds it. */
  ghost predicate Overlaps(t: Traced) {
    exists d: nat, owner: nat :: Overlap(t, d, owner)
  }

  ghost predicate Overlap(t: Traced, d: nat, owner: nat) {
    var u := After(t, [Tick(d), Acquire(owner, 1)]);
    exists i :: 0 <= i < |t.grants| && |u.grants| > |t.grants|
                && u.grants[|t.grants|].owner != t.grants[i].owner && !Apart(u, t.grants[i], u.grants[|t.grants|])
  }

  /** The current expiry was answered to its owner. */
  ghost predicate Told(t: Traced) {
    t.lease.Some? && exists i :: 0 <= i < |t.grants| && t.grants[i].fence == t.lease.value.fence
                                && t.grants[i].expires == t.lease.value.expires
  }

  lemma TwoCalls(t: Traced, d: nat, owner: nat)
    ensures After(t, [Tick(d), Acquire(owner, 1)]) == Made(Made(t, Tick(d)), Acquire(owner, 1))
  {
    hide Made;
    var cs := [Tick(d), Acquire(owner, 1)];
    var last := [Acquire(owner, 1)];
    assert cs[1..] == last && last[1..] == [];
    assert After(Made(t, Tick(d)), last) == After(Made(Made(t, Tick(d)), Acquire(owner, 1)), []);
  }

  lemma ShorteningOverlaps(t: Traced, occurrence: nat, ttl: Time)
    requires Sound(t) && Told(t) && Live(t.lease, t.now) && occurrence !in t.lease.value.renewals
    requires t.now + ttl < t.lease.value.expires
    ensures Overlaps(Made(t, Renew(t.lease.value.fence, occurrence, ttl)))
  {
    var r := t.lease.value;
    var s := Made(t, Renew(r.fence, occurrence, ttl));
    var i :| 0 <= i < |t.grants| && t.grants[i].fence == r.fence && t.grants[i].expires == r.expires;
    assert t.grants[i] in t.grants && s.grants[i] == t.grants[i];
    var d: nat := if ttl > 0 then ttl else 0;
    var owner := r.owner + 1;
    TwoCalls(s, d, owner);
    var u := Made(Made(s, Tick(d)), Acquire(owner, 1));
    assert u.grants == s.grants + [Grant(r.fence + 1, owner, t.now + d, t.now + d + 1)];
    assert Overlap(s, d, owner);
  }

  lemma ExtendingDoesNot(s: Traced, d: nat, owner: nat)
    requires Sound(s)
    ensures !Overlap(s, d, owner)
  {
    TwoCalls(s, d, owner);
    CallKeeps(s, Tick(d));
    var m := Made(s, Tick(d));
    CallKeeps(m, Acquire(owner, 1));
    var u := Made(m, Acquire(owner, 1));
    assert Disjoint(u);
    assert m.grants == s.grants && m.grants <= u.grants;
    if |u.grants| > |s.grants| {
      var h := u.grants[|s.grants|];
      forall i | 0 <= i < |s.grants| ensures h.owner == s.grants[i].owner || Apart(u, s.grants[i], h) {
        assert u.grants[i] == s.grants[i];
      }
    }
  }

  /** Exactly which renewal breaks it: one that makes a live lease end before it
      said it would lets another owner in too early; any other does not. */
  lemma ShorteningLetsAnotherIn(t: Traced, occurrence: nat, ttl: Time)
    requires Sound(t) && Told(t) && Live(t.lease, t.now) && occurrence !in t.lease.value.renewals
    ensures Overlaps(Made(t, Renew(t.lease.value.fence, occurrence, ttl))) <==> t.now + ttl < t.lease.value.expires
  {
    var c := Renew(t.lease.value.fence, occurrence, ttl);
    if t.now + ttl < t.lease.value.expires {
      ShorteningOverlaps(t, occurrence, ttl);
    } else {
      CallKeeps(t, c);
      forall d: nat, owner: nat ensures !Overlap(Made(t, c), d, owner) {
        ExtendingDoesNot(Made(t, c), d, owner);
      }
    }
  }
}
