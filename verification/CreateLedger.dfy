/** A Workflow run's account of the create requests it issued under one launch
    key, and what that account guarantees about the server. */
module CreateLedger {
  import opened Wrappers
  import opened ApiServer
  import opened LaunchObservation

  /** The ledger's fields with the history that explains them: unanswered holds
      every request that ever ended without an answer, named those a later create
      answer named, recorded those a recorded observation showed, lapsed those
      struck because their lifetime was over. */
  datatype Account = Account(
    issued: nat, unaccounted: seq<nat>, ended: map<nat, Time>,
    unanswered: set<nat>, named: set<nat>, recorded: set<nat>, lapsed: set<nat>)

  function UpTo(n: nat): set<nat> {
    if n == 0 then {} else UpTo(n - 1) + {n}
  }

  lemma {:induction false} UpToExact(n: nat)
    ensures forall r :: r in UpTo(n) <==> 1 <= r <= n
  {
    if n > 0 {
      UpToExact(n - 1);
    }
  }

  function Without(rs: seq<nat>, r: nat): seq<nat> {
    if rs == [] then [] else (if rs[0] == r then [] else [rs[0]]) + Without(rs[1..], r)
  }

  /** The ledger after striking requests one by one. */
  function Struck(rs: seq<nat>, requests: seq<nat>): seq<nat>
    decreases |requests|
  {
    if requests == [] then rs else Struck(Without(rs, requests[0]), requests[1..])
  }

  function ExpiredBy(rs: seq<nat>, ended: map<nat, Time>, now: Time, lifetime: Time): seq<nat> {
    if rs == [] then []
    else (if rs[0] in ended && ended[rs[0]] + lifetime <= now then [rs[0]] else []) +
         ExpiredBy(rs[1..], ended, now, lifetime)
  }

  lemma {:induction false} WithoutExact(rs: seq<nat>, r: nat)
    ensures forall x :: x in Without(rs, r) <==> x in rs && x != r
    ensures |Without(rs, r)| <= |rs| && (r !in rs ==> Without(rs, r) == rs)
    ensures r in rs ==> |Without(rs, r)| < |rs|
    ensures Ascending(rs) ==> Ascending(Without(rs, r))
  {
    if rs != [] {
      WithoutExact(rs[1..], r);
      var rest := Without(rs[1..], r);
      assert forall x :: x in rs <==> x == rs[0] || x in rs[1..];
      if Ascending(rs) {
        forall j | 0 <= j < |rest| ensures rs[0] < rest[j] {
          assert rest[j] in rs[1..];
        }
      }
    }
  }

  lemma {:induction false} StruckExact(rs: seq<nat>, requests: seq<nat>)
    ensures forall x :: x in Struck(rs, requests) <==> x in rs && x !in requests
    ensures |Struck(rs, requests)| <= |rs|
    ensures (exists x :: x in requests && x in rs) ==> |Struck(rs, requests)| < |rs|
    ensures (forall x :: x in requests ==> x !in rs) ==> Struck(rs, requests) == rs
    ensures (forall x :: x in rs ==> x in requests) ==> Struck(rs, requests) == []
    ensures Ascending(rs) ==> Ascending(Struck(rs, requests))
    decreases |requests|
  {
    if requests != [] {
      WithoutExact(rs, requests[0]);
      StruckExact(Without(rs, requests[0]), requests[1..]);
      assert forall x :: x in requests <==> x == requests[0] || x in requests[1..];
    } else if rs != [] {
      assert rs[0] in rs;
    }
  }

  lemma {:induction false} ExpiredExact(rs: seq<nat>, ended: map<nat, Time>, now: Time, lifetime: Time)
    ensures var xs := ExpiredBy(rs, ended, now, lifetime);
            && (forall x :: x in xs <==> x in rs && x in ended && ended[x] + lifetime <= now)
            && |xs| <= |rs|
            && (|xs| == |rs| ==> xs == rs)
            && ((forall x :: x in rs ==> x in ended && ended[x] + lifetime <= now) ==> xs == rs)
  {
    if rs != [] {
      ExpiredExact(rs[1..], ended, now, lifetime);
      var first := if rs[0] in ended && ended[rs[0]] + lifetime <= now then [rs[0]] else [];
      var rest := ExpiredBy(rs[1..], ended, now, lifetime);
      assert ExpiredBy(rs, ended, now, lifetime) == first + rest;
      assert forall x :: x in rs <==> x == rs[0] || x in rs[1..];
      if |first + rest| == |rs| {
        assert rs == [rs[0]] + rs[1..];
      }
    }
  }

  /** What the ledger and the server agree on. Every request the server may still
      commit is unaccounted, or lapsed and out of time; the object of an
      unaccounted request, if there is one, is untouched; and a request leaves
      the unanswered ones only on evidence. */
  ghost predicate Agrees(s: Server, v: Account, maxHandling: Time) {
    Sound(s) && WellKept(v) && Timed(s, v, maxHandling) && Covered(s, v) && Evidenced(s, v) && Numbered(s, v)
    && Kept(s, Members(v.unaccounted))
  }

  ghost predicate WellKept(v: Account) {
    && Ascending(v.unaccounted)
    && (forall r :: r in v.unanswered ==> 1 <= r <= v.issued)
    && v.lapsed <= v.unanswered
    && (forall r :: r in v.named || r in v.recorded ==> r <= v.issued)
    && (forall r :: r in v.unaccounted <==> r in v.unanswered && r !in v.named && r !in v.recorded && r !in v.lapsed)
  }

  ghost predicate Timed(s: Server, v: Account, maxHandling: Time) {
    forall r :: r in v.unaccounted ==> r in v.ended && r in s.closes && s.closes[r] <= v.ended[r] + maxHandling
  }

  ghost predicate Covered(s: Server, v: Account) {
    forall r :: r in s.inflight ==> r in v.unaccounted || r in v.lapsed
  }

  ghost predicate Evidenced(s: Server, v: Account) {
    && (forall r :: r in v.lapsed ==> !Made(s, r) && !MayCommit(s, r))
    && (forall r :: r in v.named || r in v.recorded ==> Made(s, r))
  }

  ghost predicate Numbered(s: Server, v: Account) {
    && (forall u :: u in s.makers ==> s.makers[u] <= v.issued)
    && (forall r :: r in s.closes ==> r <= v.issued)
  }

  /** Over every run of the environment that protects the unaccounted requests,
      the agreement holds. */
  lemma AgreementIsStable(s: Server, t: Server, v: Account, maxHandling: Time)
    requires Agrees(s, v, maxHandling) && Reaches(s, t, Members(v.unaccounted))
    ensures Agrees(t, v, maxHandling) && Later(s, t)
  {
    ReachesKeeps(s, t, Members(v.unaccounted));
    forall u | u in t.makers ensures t.makers[u] <= v.issued {
      if u !in s.makers {
        assert MayCommit(s, t.makers[u]);
      }
    }
    forall r | r in v.named || r in v.recorded ensures Made(t, r) {
      MadeStays(s, t, r);
    }
  }

  function Recorded(v: Account, requests: seq<nat>): Account {
    v.(unaccounted := Struck(v.unaccounted, requests), recorded := v.recorded + Members(requests))
  }

  function Named(v: Account, request: nat): Account {
    v.(unaccounted := Without(v.unaccounted, request), named := v.named + (if request == 0 then {} else {request}))
  }

  function Lapsed(v: Account, expired: seq<nat>): Account {
    v.(unaccounted := Struck(v.unaccounted, expired),
       lapsed := v.lapsed + (Members(expired) * Members(v.unaccounted)))
  }

  lemma KeptLess(s: Server, keep: set<nat>, less: set<nat>)
    requires Kept(s, keep) && less <= keep
    ensures Kept(s, less)
  {
  }

  /** Recording what the server showed keeps the agreement. */
  lemma RecordKeeps(s: Server, v: Account, requests: seq<nat>, maxHandling: Time)
    requires Agrees(s, v, maxHandling)
    requires forall r :: r in requests ==> Made(s, r)
    ensures Agrees(s, Recorded(v, requests), maxHandling)
  {
    StruckExact(v.unaccounted, requests);
    KeptLess(s, Members(v.unaccounted), Members(Struck(v.unaccounted, requests)));
    forall r | r in s.inflight ensures r !in requests {
      assert Made(s, r) ==> r !in s.inflight;
    }
  }

  lemma NameKeeps(s: Server, v: Account, request: nat, maxHandling: Time)
    requires Agrees(s, v, maxHandling) && (request == 0 || Made(s, request))
    ensures Agrees(s, Named(v, request), maxHandling)
  {
    WithoutExact(v.unaccounted, request);
    KeptLess(s, Members(v.unaccounted), Members(Without(v.unaccounted, request)));
    assert Made(s, request) ==> request !in s.inflight;
  }

  /** Striking by lifetime is justified: a request that was unaccounted, and
      could no longer commit, at a state where the key held no Job never
      committed, and never will. */
  lemma LapseKeeps(a: Server, s: Server, v: Account, expired: seq<nat>, maxHandling: Time)
    requires Agrees(a, v, maxHandling) && a.job.None?
    requires Agrees(s, v, maxHandling) && Later(a, s)
    requires forall r :: r in expired ==> !MayCommit(a, r)
    ensures Agrees(s, Lapsed(v, expired), maxHandling)
  {
    StruckExact(v.unaccounted, expired);
    KeptLess(s, Members(v.unaccounted), Members(Struck(v.unaccounted, expired)));
  }

  /** Evidence before removal: if the Job of a request that ended without an
      answer was removed, is being deleted or has a delete on its way, an
      observation that showed it was recorded first, or a create answer had
      named it. */
  lemma EvidenceBeforeRemoval(s: Server, v: Account, maxHandling: Time, uid: nat)
    requires Agrees(s, v, maxHandling)
    requires uid in s.makers && s.makers[uid] in v.unanswered
    requires s.job != Some(Job(uid, s.makers[uid], false)) || uid in s.deletes
    ensures s.makers[uid] in v.recorded || s.makers[uid] in v.named
  {
    assert Made(s, s.makers[uid]);
  }

  /** A request struck because its lifetime was over never committed, and never
      does in any run of the environment from there. */
  lemma LapsedNeverCommits(s: Server, v: Account, maxHandling: Time, r: nat, es: seq<Event>, keep: set<nat>)
    requires Agrees(s, v, maxHandling) && r in v.lapsed && Allowed(s, es, keep)
    ensures !Made(s, r) && !Made(After(s, es, keep), r)
  {
    RunKeeps(s, es, keep);
  }

  /** Every unaccounted request's lifetime is over. */
  ghost predicate AllExpired(v: Account, now: Time, lifetime: Time) {
    forall r :: r in v.unaccounted ==> r in v.ended && v.ended[r] + lifetime <= now
  }

  /** Once striking the expired requests settles the ledger, no request could
      commit any more when the key was read. */
  lemma SettledIsQuiet(a: Server, v: Account, expired: seq<nat>, maxHandling: Time)
    requires Agrees(a, v, maxHandling) && Struck(v.unaccounted, expired) == []
    requires forall r :: r in expired ==> !MayCommit(a, r)
    ensures forall r :: r in a.inflight ==> !MayCommit(a, r)
  {
    StruckExact(v.unaccounted, expired);
  }

  /** A request whose recorded end lies a lifetime back is out of the server's
      hands, when the lifetime covers the server's handling. */
  lemma ExpiredCannotCommit(s: Server, v: Account, now: Time, lifetime: Time, maxHandling: Time)
    requires Agrees(s, v, maxHandling) && maxHandling <= lifetime && now <= s.clock
    ensures forall r :: r in ExpiredBy(v.unaccounted, v.ended, now, lifetime) ==> !MayCommit(s, r)
  {
    ExpiredExact(v.unaccounted, v.ended, now, lifetime);
  }

  /** A run that issued nothing yet, on a server where every open request and
      every marked object is somebody else's business: there is none. */
  ghost predicate Fresh(s: Server) {
    Sound(s) && s.inflight == {} && s.closes == map[] && forall u :: u in s.makers ==> s.makers[u] == 0
  }

  const NOTHING := Account(0, [], map[], {}, {}, {}, {})

  /** The run's ledger, kept in Workflow state. */
  class Ledger {
    var issued: nat
    var unaccounted: seq<nat>
    var ended: map<nat, Time>
    ghost var unanswered: set<nat>
    ghost var named: set<nat>
    ghost var recorded: set<nat>
    ghost var lapsed: set<nat>

    constructor ()
      ensures View() == NOTHING
    {
      issued, unaccounted, ended := 0, [], map[];
      unanswered, named, recorded, lapsed := {}, {}, {}, {};
    }

    ghost function View(): Account
      reads this
    {
      Account(issued, unaccounted, ended, unanswered, named, recorded, lapsed)
    }

    /** The next request's ordinal. */
    method Issue() returns (request: nat)
      modifies this`issued
      ensures request == old(issued) + 1 && issued == request
    {
      issued := issued + 1;
      request := issued;
    }

    /** The request ended without an answer. */
    method Unanswer(request: nat, now: Time)
      modifies this`unaccounted, this`ended, this`unanswered
      ensures View() == old(View()).(unaccounted := old(unaccounted) + [request], ended := old(ended)[request := now],
                                     unanswered := old(unanswered) + {request})
    {
      unaccounted := unaccounted + [request];
      ended := ended[request := now];
      unanswered := unanswered + {request};
    }

    method Expired(now: Time, lifetime: Time) returns (expired: seq<nat>)
      ensures expired == ExpiredBy(unaccounted, ended, now, lifetime)
    {
      expired := [];
      var i := 0;
      while i < |unaccounted|
        invariant i <= |unaccounted|
        invariant expired + ExpiredBy(unaccounted[i..], ended, now, lifetime) == ExpiredBy(unaccounted, ended, now, lifetime)
      {
        var r := unaccounted[i];
        if r in ended && ended[r] + lifetime <= now {
          expired := expired + [r];
        }
        assert unaccounted[i..][1..] == unaccounted[i + 1..];
        i := i + 1;
      }
    }

    /** Strikes requests; the caller says, for the history, on what evidence. */
    method Strike(requests: seq<nat>)
      modifies this`unaccounted
      ensures unaccounted == Struck(old(unaccounted), requests)
    {
      var i := 0;
      while i < |requests|
        invariant i <= |requests|
        invariant Struck(unaccounted, requests[i..]) == Struck(old(unaccounted), requests)
      {
        assert requests[i..][1..] == requests[i + 1..];
        unaccounted := Without(unaccounted, requests[i]);
        i := i + 1;
      }
    }

    method Record(requests: seq<nat>)
      modifies this`unaccounted, this`recorded
      ensures View() == Recorded(old(View()), requests)
    {
      Strike(requests);
      recorded := recorded + Members(requests);
    }

    method Name(request: nat)
      modifies this`unaccounted, this`named
      ensures View() == Named(old(View()), request)
    {
      Strike([request]);
      named := named + (if request == 0 then {} else {request});
    }

    method Lapse(expired: seq<nat>)
      modifies this`unaccounted, this`lapsed
      ensures View() == Lapsed(old(View()), expired)
    {
      lapsed := lapsed + (Members(expired) * Members(unaccounted));
      Strike(expired);
    }
  }
}
