/** The launch steps of a Workflow run: issuing create requests, the cleanup
    round that confirms the launch is gone, and the reconciliation that repeats
    it. The environment runs between any two calls, Activity receipts get lost
    and Activities are retried. */
module LaunchRun {
  import opened Wrappers
  import opened ApiServer
  import opened LaunchObservation
  import opened Launcher
  import opened CreateLedger

  datatype Bounds = Bounds(
    retryInitial: Time, retryMax: Time, retryCap: int,
    cleanupAttempts: nat,
    /** Not positive when the run's history predates the lifetime rule. */
    createRequestLifetime: Time,
    reconcileInitial: Time, reconcileMax: Time, reconcileDuration: Time)

  function Doubled(interval: Time, cap: Time): Time {
    if interval * 2 > cap then cap else interval * 2
  }

  /** The n-th wait of a capped doubling. */
  function Backoff(initial: Time, cap: Time, n: nat): Time {
    if n == 0 then initial else Doubled(Backoff(initial, cap, n - 1), cap)
  }

  function Pow2(n: nat): nat {
    if n == 0 then 1 else 2 * Pow2(n - 1)
  }

  lemma Twice(x: Time, p: nat)
    ensures x * (2 * p) == (x * p) * 2
  {
  }

  /** The n-th wait is the initial interval doubled n times, capped. */
  lemma {:induction false} BackoffClosedForm(initial: Time, cap: Time, n: nat)
    requires 0 < initial <= cap
    ensures Backoff(initial, cap, n) == if initial * Pow2(n) > cap then cap else initial * Pow2(n)
  {
    if n > 0 {
      BackoffClosedForm(initial, cap, n - 1);
      Twice(initial, Pow2(n - 1));
    } else {
      assert initial * Pow2(0) == initial;
    }
  }

  lemma {:induction false} BackoffPositive(initial: Time, cap: Time, n: nat)
    requires 0 < initial && 0 < cap
    ensures 0 < Backoff(initial, cap, n)
  {
    if n > 0 {
      BackoffPositive(initial, cap, n - 1);
    }
  }

  /** The waits of a reconciliation: the capped doubling, one after the other,
      none due after the bound. */
  ghost predicate Paced(waits: seq<Time>, began: seq<Time>, bounds: Bounds, start: Time, now: Time) {
    && |began| == |waits| && start <= now
    && BackedOff(waits, bounds) && InBound(waits, began, bounds, start) && Successive(waits, began, now)
  }

  ghost predicate BackedOff(waits: seq<Time>, bounds: Bounds) {
    forall i :: 0 <= i < |waits| ==> waits[i] == Backoff(bounds.reconcileInitial, bounds.reconcileMax, i)
  }

  ghost predicate InBound(waits: seq<Time>, began: seq<Time>, bounds: Bounds, start: Time)
    requires |began| == |waits|
  {
    forall i :: 0 <= i < |waits| ==> start <= began[i] && began[i] + waits[i] <= start + bounds.reconcileDuration
  }

  ghost predicate Successive(waits: seq<Time>, began: seq<Time>, now: Time)
    requires |began| == |waits|
  {
    forall i :: 0 <= i < |waits| ==> began[i] + waits[i] <= if i + 1 < |began| then began[i + 1] else now
  }

  lemma PacedStarts(bounds: Bounds, start: Time)
    ensures Paced([], [], bounds, start, start)
    ensures Backoff(bounds.reconcileInitial, bounds.reconcileMax, 0) == bounds.reconcileInitial
  {
  }

  lemma PacedPush(waits: seq<Time>, began: seq<Time>, bounds: Bounds, start: Time, at: Time, now: Time)
    requires Paced(waits, began, bounds, start, at)
    requires 0 < bounds.reconcileInitial && 0 < bounds.reconcileMax
    requires var d := Backoff(bounds.reconcileInitial, bounds.reconcileMax, |waits|);
             at + d <= now && at - start + d <= bounds.reconcileDuration
    ensures var d := Backoff(bounds.reconcileInitial, bounds.reconcileMax, |waits|);
            && Paced(waits + [d], began + [at], bounds, start, now)
            && Backoff(bounds.reconcileInitial, bounds.reconcileMax, |waits| + 1) == Doubled(d, bounds.reconcileMax)
  {
    BackoffPositive(bounds.reconcileInitial, bounds.reconcileMax, |waits|);
    SuccessivePush(waits, began, Backoff(bounds.reconcileInitial, bounds.reconcileMax, |waits|), at, now);
    hide Successive;
  }

  lemma SuccessivePush(waits: seq<Time>, began: seq<Time>, d: Time, at: Time, now: Time)
    requires |began| == |waits| && Successive(waits, began, at) && at + d <= now
    ensures Successive(waits + [d], began + [at], now)
  {
    var ws, bs := waits + [d], began + [at];
    forall i | 0 <= i < |ws| ensures bs[i] + ws[i] <= if i + 1 < |bs| then bs[i + 1] else now {
      if i < |waits| {
        assert began[i] + waits[i] <= if i + 1 < |began| then began[i + 1] else at;
      }
    }
  }

  /** The ordinals whose create ended without an answer, ascending. */
  function UnansweredOf(outcomes: seq<CreateResult>): seq<nat> {
    if outcomes == [] then []
    else
      var n := |outcomes| - 1;
      UnansweredOf(outcomes[..n]) + (if outcomes[n].Unanswered? then [n + 1] else [])
  }

  lemma {:induction false} UnansweredExact(outcomes: seq<CreateResult>)
    ensures Ascending(UnansweredOf(outcomes))
    ensures forall r :: r in UnansweredOf(outcomes) <==> 1 <= r <= |outcomes| && outcomes[r - 1].Unanswered?
    decreases |outcomes|
  {
    if outcomes != [] {
      var n := |outcomes| - 1;
      UnansweredExact(outcomes[..n]);
      var front := UnansweredOf(outcomes[..n]);
      forall i | 0 <= i < |front| ensures front[i] <= n {
        assert front[i] in front;
      }
      var more: seq<nat> := if outcomes[n].Unanswered? then [n + 1] else [];
      assert UnansweredOf(outcomes) == front + more;
      forall r ensures r in front + more <==> 1 <= r <= |outcomes| && outcomes[r - 1].Unanswered? {
        assert 1 <= r <= n ==> outcomes[..n][r - 1] == outcomes[r - 1];
      }
    }
  }

  function Ended(v: Account, request: nat, now: Time, unanswered: bool): Account {
    if unanswered then
      v.(issued := request, unaccounted := v.unaccounted + [request], ended := v.ended[request := now],
         unanswered := v.unanswered + {request})
    else v.(issued := request)
  }

  lemma KeptWithin(s: Server, mid: Server, t: Server, v: Account, w: Account, request: nat)
    requires Kept(mid, UpTo(request)) && t == mid.(closes := t.closes) && WellKept(v) && v.issued < request
    requires forall r :: r in w.unaccounted ==> r in v.unaccounted || r == request
    requires request > 0
    ensures Kept(t, UpTo(request)) && Kept(t, Members(w.unaccounted))
  {
    UpToExact(request);
  }

  lemma FactsStay(s: Server, mid: Server, request: nat, v: Account)
    requires Evidenced(s, v) && Numbered(s, v) && WellKept(v) && Covered(s, v) && request == v.issued + 1
    requires Later(Written(s, request), mid)
    ensures Evidenced(mid, v)
    ensures forall u :: u in mid.makers ==> mid.makers[u] <= request
    ensures forall r :: r in mid.inflight ==> r in v.unaccounted || r in v.lapsed || r == request
    ensures mid.closes == s.closes && forall r :: r in mid.closes ==> r <= v.issued
  {
    var w := Written(s, request);
    forall u | u in mid.makers ensures mid.makers[u] <= request {
      if u !in s.makers {
        assert MayCommit(w, mid.makers[u]);
      }
    }
    forall r | r in v.lapsed ensures !Made(mid, r) && !MayCommit(mid, r) {
      assert !MayCommit(w, r);
    }
    forall r | r in v.named || r in v.recorded ensures Made(mid, r) {
      MadeStays(w, mid, r);
    }
  }

  /** A request that ended keeps the agreement: it is out of the server's hands,
      or it is in the ledger with the time its client side was over. */
  lemma RequestEnds(s: Server, mid: Server, t: Server, v: Account, request: nat, now: Time, unanswered: bool, maxHandling: Time)
    requires Agrees(s, v, maxHandling) && request == v.issued + 1
    requires Sound(mid) && Later(Written(s, request), mid) && Kept(mid, UpTo(request))
    requires t == mid.(closes := t.closes) && Closed(mid, t, request, now + maxHandling)
    requires unanswered || request !in mid.inflight
    ensures Agrees(t, Ended(v, request, now, unanswered), maxHandling) && Kept(t, UpTo(request))
  {
    hide Later, Kept, WellKept, Timed, Covered, Evidenced, Numbered, Sound, Made;
    var w := Ended(v, request, now, unanswered);
    EndedWellKept(v, request, now, unanswered);
    KeptWithin(s, mid, t, v, w, request);
    FactsStay(s, mid, request, v);
    EndedTimed(s, mid, t, v, request, now, unanswered, maxHandling);
    EndedFacts(mid, t, v, request, now, unanswered, maxHandling);
    ClosingIsSound(mid, t);
  }

  ghost predicate Closed(s: Server, t: Server, request: nat, until: Time) {
    && t.closes.Keys == s.closes.Keys + {request}
    && (forall r :: r in s.closes && r != request ==> t.closes[r] == s.closes[r])
    && t.closes[request] <= until
  }

  lemma ClosingIsSound(s: Server, t: Server)
    requires Sound(s) && t == s.(closes := t.closes)
    ensures Sound(t)
  {
  }

  lemma EndedWellKept(v: Account, request: nat, now: Time, unanswered: bool)
    requires WellKept(v) && request == v.issued + 1
    ensures WellKept(Ended(v, request, now, unanswered))
    ensures forall r :: r in Ended(v, request, now, unanswered).unaccounted ==> r in v.unaccounted || r == request
  {
    forall i | 0 <= i < |v.unaccounted| ensures v.unaccounted[i] < request {
      assert v.unaccounted[i] in v.unaccounted;
    }
  }

  lemma EndedTimed(s: Server, mid: Server, t: Server, v: Account, request: nat, now: Time, unanswered: bool, maxHandling: Time)
    requires WellKept(v) && Timed(s, v, maxHandling) && request == v.issued + 1
    requires mid.closes == s.closes && Closed(mid, t, request, now + maxHandling)
    ensures Timed(t, Ended(v, request, now, unanswered), maxHandling)
  {
  }

  lemma EndedFacts(mid: Server, t: Server, v: Account, request: nat, now: Time, unanswered: bool, maxHandling: Time)
    requires WellKept(v) && request == v.issued + 1 && Evidenced(mid, v)
    requires forall u :: u in mid.makers ==> mid.makers[u] <= request
    requires forall r :: r in mid.closes ==> r <= v.issued
    requires forall r :: r in mid.inflight ==> r in v.unaccounted || r in v.lapsed || r == request
    requires t == mid.(closes := t.closes) && Closed(mid, t, request, now + maxHandling)
    requires unanswered || request !in mid.inflight
    ensures var w := Ended(v, request, now, unanswered); Evidenced(t, w) && Numbered(t, w) && Covered(t, w)
  {
    forall r | r in v.lapsed ensures !Made(t, r) && !MayCommit(t, r) {
      assert r != request;
      assert Made(t, r) <==> Made(mid, r);
      assert !MayCommit(mid, r);
    }
    forall r | r in v.named || r in v.recorded ensures Made(t, r) {
      assert Made(mid, r);
    }
  }

  datatype PassVerdict = Confirmed | Unconfirmed | Again

  class Run {
    const cluster: Cluster
    const client: Client
    const ledger: Ledger
    const bounds: Bounds
    /** Workflow time: the instant of the last Activity result or timer. */
    var now: Time
    /** Cleanup Activities that ended without a result. */
    var failures: nat

    constructor (cluster: Cluster, bounds: Bounds)
      ensures this.cluster == cluster && this.bounds == bounds && client.cluster == cluster
      ensures fresh(client) && fresh(ledger) && ledger.View() == NOTHING && now == cluster.s.clock && failures == 0
    {
      this.cluster := cluster;
      this.bounds := bounds;
      client := new Client(cluster);
      ledger := new Ledger();
      now := cluster.s.clock;
      failures := 0;
    }

    predicate RuleApplies(lifetimeRule: bool) {
      lifetimeRule && bounds.createRequestLifetime > 0
    }

    /** The run is in step with its server. The configured request lifetime, where
        the rule applies, covers how long the server really handles a request. */
    ghost predicate Valid()
      reads this, ledger, client, cluster
    {
      && client.cluster == cluster
      && Agrees(cluster.s, ledger.View(), cluster.maxHandling)
      && (bounds.createRequestLifetime > 0 ==> cluster.maxHandling <= bounds.createRequestLifetime)
      && now <= cluster.s.clock
    }

    /** The ledger holds exactly the requests that ended without an answer. */
    ghost predicate Accounts(outcomes: seq<CreateResult>)
      reads ledger
    {
      && |outcomes| == ledger.issued
      && ledger.unanswered == Members(UnansweredOf(outcomes))
      && ledger.ended.Keys == ledger.unanswered
    }

    /** Issues create requests, one at a time, until one is answered with the Job
        or the requests are exhausted. */
    method CreateJob(spec: LaunchSpec) returns (retried: seq<CreateResult>, last: CreateResult, canceled: bool)
      requires Valid() && ledger.View() == NOTHING
      modifies this`now, ledger, cluster`s
      ensures Valid() && Kept(cluster.s, UpTo(ledger.issued))
      // The requests are numbered 1, 2, ... up to the cap.
      ensures ledger.issued == |retried| + 1
      ensures ledger.issued == 1 || ledger.issued <= bounds.retryCap
      ensures Retried(retried)
      ensures last.JobRef? || last.Refused? || canceled || ledger.issued >= bounds.retryCap
      // The ledger holds exactly the requests that ended without an answer, but
      // for the one the final answer named.
      ensures Accounts(retried + [last])
      ensures ledger.unaccounted ==
                if last.JobRef? then Without(UnansweredOf(retried + [last]), last.request) else UnansweredOf(retried + [last])
    {
      NothingIsKept(cluster.s);
      NothingUnanswered();
      assert Accounts([]);
      hide Valid, Kept, UnansweredOf, Members, Without, UpTo, Retried, Accounts, Doubled, Ledger.View;
      retried, canceled := [], false;
      var interval := bounds.retryInitial;
      while true
        invariant Valid() && Kept(cluster.s, UpTo(ledger.issued))
        invariant |retried| == ledger.issued && (ledger.issued == 0 || ledger.issued < bounds.retryCap)
        invariant Accounts(retried) && Retried(retried) && ledger.unaccounted == UnansweredOf(retried)
        decreases bounds.retryCap - ledger.issued
      {
        last := NextRequest(spec, retried);
        if last.JobRef? || last.Refused? {
          return;
        }
        canceled := *;
        if canceled || ledger.issued >= bounds.retryCap {
          return;
        }
        Sleep(interval, UpTo(ledger.issued));
        interval := Doubled(interval, bounds.retryMax);
        retried := retried + [last];
      }
    }

    /** The next request, and what the ledger holds then. */
    method NextRequest(spec: LaunchSpec, outcomes: seq<CreateResult>) returns (outcome: CreateResult)
      requires Valid() && Kept(cluster.s, UpTo(ledger.issued))
      requires Accounts(outcomes) && ledger.unaccounted == UnansweredOf(outcomes)
      modifies this`now, ledger, cluster`s
      ensures Valid() && Kept(cluster.s, UpTo(ledger.issued))
      ensures ledger.issued == old(ledger.issued) + 1 == |outcomes| + 1
      ensures Members(ledger.unaccounted) <= UpTo(ledger.issued)
      ensures var all := outcomes + [outcome];
              && Accounts(all)
              && (ledger.unaccounted == if outcome.JobRef? then Without(UnansweredOf(all), outcome.request) else UnansweredOf(all))
      ensures !outcome.JobRef? && !outcome.Refused? && Retried(outcomes) ==> Retried(outcomes + [outcome])
    {
      hide Valid, Kept, Ended, Named, UnansweredOf, Members, Without, UpTo, Retried;
      assert |outcomes| == ledger.issued;
      var at;
      outcome, at := Request(spec);
      UnansweredPush(outcomes, outcome);
      if Retried(outcomes) {
        RetriedPush(outcomes, outcome);
      }
    }

    /** One create Activity, never retried: its receipt may be lost. */
    method Request(spec: LaunchSpec) returns (outcome: CreateResult, at: Time)
      requires Valid() && Kept(cluster.s, UpTo(ledger.issued))
      modifies this`now, ledger, cluster`s
      ensures Valid() && Kept(cluster.s, UpTo(ledger.issued))
      ensures var ended := Ended(old(ledger.View()), ledger.issued, at, outcome.Unanswered?);
              ledger.View() == if outcome.JobRef? then Named(ended, outcome.request) else ended
      ensures ledger.issued == old(ledger.issued) + 1 && Members(ledger.unaccounted) <= UpTo(ledger.issued)
      ensures var open := old(ledger.unaccounted) + (if outcome.Unanswered? then [ledger.issued] else []);
              ledger.unaccounted == if outcome.JobRef? then Without(open, outcome.request) else open
      ensures ledger.unanswered == old(ledger.unanswered) + (if outcome.Unanswered? then {ledger.issued} else {})
      ensures ledger.ended.Keys == old(ledger.ended).Keys + (if outcome.Unanswered? then {ledger.issued} else {})
    {
      hide Kept, Sound, Later, Made, WellKept, Timed, Covered, Evidenced, Numbered;
      ghost var before, v := cluster.s, ledger.View();
      NextIsFresh(before, v, cluster.maxHandling);
      var request := ledger.Issue();
      var keep := UpTo(request);
      outcome := client.CreateJob(request, spec, keep);
      var lost: bool := *;
      if lost {
        outcome := Unanswered;
      }
      ghost var mid := cluster.s;
      LaterClock(Written(before, request), mid);
      cluster.EndClient(request);
      at := cluster.s.clock;
      now := at;
      if outcome.Unanswered? {
        ledger.Unanswer(request, at);
      }
      RequestEnds(before, mid, cluster.s, v, request, at, outcome.Unanswered?, cluster.maxHandling);
      ghost var ended := ledger.View();
      assert ended == Ended(v, request, at, outcome.Unanswered?);
      assert ended.unaccounted == v.unaccounted + (if outcome.Unanswered? then [request] else []);
      if outcome.JobRef? {
        SameMakers(mid, cluster.s, outcome.request);
        NameKeeps(cluster.s, ledger.View(), outcome.request, cluster.maxHandling);
        ledger.Name(outcome.request);
        assert ledger.View().unaccounted == Without(ended.unaccounted, outcome.request);
      }
      AccountWithin(ledger.View());
      Sleep(0, keep);
    }

    /** The read-only observation Activity with its retries; a lost receipt
        repeats it. What it saw is recorded in the ledger. */
    method ObserveLaunch() returns (observed: bool)
      requires Valid()
      modifies this`now, this`failures, ledger, cluster`s
      ensures failures == old(failures) + (if observed then 0 else 1)
      ensures Valid() && Later(old(cluster.s), cluster.s) && now >= old(now)
      ensures SameRequests(old(ledger.View()), ledger.View())
      ensures ledger.lapsed == old(ledger.lapsed)
    {
      hide Kept, Sound, WellKept, Timed, Covered, Evidenced, Numbered, Later, Reaches, Made;
      ghost var before, v := cluster.s, ledger.View();
      var keep := Members(ledger.unaccounted);
      ReachesSelf(before, keep);
      SameSelf(v);
      AgreementIsStable(before, before, v, cluster.maxHandling);
      var attempt := 0;
      while attempt < bounds.cleanupAttempts
        invariant Valid() && Later(before, cluster.s) && Reaches(before, cluster.s, keep) && now == old(now)
        invariant ledger.View() == v && failures == old(failures)
      {
        ghost var start := cluster.s;
        var polls: nat :| true;
        var seen := client.ObserveLaunch(polls, keep);
        ReachesTrans(before, start, cluster.s, keep);
        AgreementIsStable(before, cluster.s, v, cluster.maxHandling);
        AgreementIsStable(start, cluster.s, v, cluster.maxHandling);
        LaterClock(start, cluster.s);
        var lost: bool := *;
        if seen.Ok? && !lost {
          now := cluster.s.clock;
          RecordKeeps(cluster.s, v, seen.value.requests, cluster.maxHandling);
          RecordSame(v, seen.value.requests);
          ledger.Record(seen.value.requests);
          return true;
        }
        attempt := attempt + 1;
      }
      now := cluster.s.clock;
      failures := failures + 1;
      return false;
    }

    /** The delete Activity with its retries: the same input every time, so an
        attempt whose receipt was lost left every unaccounted object in place. */
    method DeleteJob() returns (r: Result<Observation, ()>, ghost a: Server, ghost b: Server)
      requires Valid()
      modifies this`now, this`failures, client`asked, cluster`s
      ensures failures == old(failures) + (if r.Ok? then 0 else 1)
      ensures Valid() && Later(old(cluster.s), cluster.s) && now >= old(now)
      ensures r.Ok? ==>
                && Reaches(old(cluster.s), a, Members(ledger.unaccounted)) && Reaches(a, b, Members(ledger.unaccounted))
                && Reaches(b, cluster.s, Members(ledger.unaccounted))
      ensures r.Ok? && r.value.Empty() ==> a.job.None? && b.pods == []
      ensures r.Ok? && !r.value.Empty() ==> exists m :: m in r.value.requests && m in ledger.unaccounted
      ensures r.Ok? ==> forall m :: m in r.value.requests ==> Made(cluster.s, m)
    {
      hide Kept, Sound, WellKept, Timed, Covered, Evidenced, Numbered, Later, Reaches, Made;
      ghost var before, v := cluster.s, ledger.View();
      var keep := Members(ledger.unaccounted);
      HeldBackAll(v);
      ReachesSelf(before, keep);
      AgreementIsStable(before, before, v, cluster.maxHandling);
      r, a, b := Err(()), before, before;
      var attempt := 0;
      while attempt < bounds.cleanupAttempts
        invariant Valid() && Later(before, cluster.s) && Reaches(before, cluster.s, keep) && now == old(now)
        invariant failures == old(failures)
      {
        ghost var start := cluster.s;
        var polls: nat :| true;
        ghost var read;
        r, a, b, read := client.DeleteJob(ledger.unaccounted, false, [], polls, keep);
        ReachesTrans(before, start, cluster.s, keep);
        AgreementIsStable(before, cluster.s, v, cluster.maxHandling);
        AgreementIsStable(start, cluster.s, v, cluster.maxHandling);
        LaterClock(start, cluster.s);
        var lost: bool := *;
        if r.Ok? && !lost {
          ReachesTrans(before, start, a, keep);
          now := cluster.s.clock;
          return;
        }
        attempt := attempt + 1;
      }
      now := cluster.s.clock;
      failures := failures + 1;
      return Err(()), a, b;
    }

    /** One pass of a cleanup round: observe if some unaccounted request is still
        within its lifetime, delete what is accounted for, strike what the empty
        key proves. */
    method Pass(lifetimeRule: bool) returns (verdict: PassVerdict)
      requires Valid()
      modifies this`now, this`failures, ledger, client`asked, cluster`s
      ensures Valid() && SameRequests(old(ledger.View()), ledger.View()) && now >= old(now)
      ensures verdict.Confirmed? ==> Stopped(cluster.s) && ledger.unaccounted == []
      ensures failures == old(failures) + (if verdict.Unconfirmed? then 1 else 0)
      ensures RuleApplies(lifetimeRule) && AllExpired(old(ledger.View()), old(now), bounds.createRequestLifetime) && verdict.Again? ==>
                |ledger.unaccounted| < |old(ledger.unaccounted)| &&
                AllExpired(ledger.View(), now, bounds.createRequestLifetime)
      ensures !RuleApplies(lifetimeRule) ==> ledger.lapsed == old(ledger.lapsed)
    {
      hide Agrees, Later, Reaches, Stopped, Made, SameRequests, MayCommit, ExpiredBy, Struck, Members;
      ghost var start, v := cluster.s, ledger.View();
      var before := |ledger.unaccounted|;
      var expired := LifetimeEnded(lifetimeRule);
      LaterOfValid();
      SameSelf(v);
      if before > 0 && |expired| < before {
        var seen := ObserveLaunch();
        if !seen {
          return Unconfirmed;
        }
      }
      StillExpired(start, cluster.s, expired);
      ghost var mid, w := cluster.s, ledger.View();
      var stopped, a, b := DeleteJob();
      if stopped.Err? {
        return Unconfirmed;
      }
      ReadsConfirm(mid, a, b, cluster.s, w, expired, cluster.maxHandling);
      Account(stopped.value, expired, a);
      SameTrans(v, w, ledger.View());
      if RuleApplies(lifetimeRule) {
        Progress(v, w, old(now), now, bounds.createRequestLifetime, expired, stopped.value);
      }
      if ledger.unaccounted == [] && stopped.value.Empty() {
        Finish(mid, a, b, cluster.s, w, expired, cluster.maxHandling);
        return Confirmed;
      }
      return Again;
    }

    /** The unaccounted requests whose lifetime is over at the start of a pass. */
    method LifetimeEnded(lifetimeRule: bool) returns (expired: seq<nat>)
      requires Valid()
      ensures expired == if RuleApplies(lifetimeRule) && ledger.unaccounted != []
                         then ExpiredBy(ledger.unaccounted, ledger.ended, now, bounds.createRequestLifetime) else []
      ensures forall r :: r in expired ==> !MayCommit(cluster.s, r)
      ensures |expired| == |ledger.unaccounted| ==> expired == ledger.unaccounted
      ensures AllExpired(ledger.View(), now, bounds.createRequestLifetime) && RuleApplies(lifetimeRule) ==> expired == ledger.unaccounted
    {
      hide Agrees, MayCommit;
      expired := [];
      if RuleApplies(lifetimeRule) && |ledger.unaccounted| > 0 {
        expired := ledger.Expired(now, bounds.createRequestLifetime);
        ExpiredCannotCommit(cluster.s, ledger.View(), now, bounds.createRequestLifetime, cluster.maxHandling);
        ExpiredExact(ledger.unaccounted, ledger.ended, now, bounds.createRequestLifetime);
      }
    }

    /** What a delete's answer settles: an object left in place is recorded before
        the next delete stops it; an empty key at a settles the expired requests. */
    method Account(stopped: Observation, expired: seq<nat>, ghost a: Server)
      requires Valid() && Agrees(a, ledger.View(), cluster.maxHandling) && Later(a, cluster.s)
      requires forall m :: m in stopped.requests ==> Made(cluster.s, m)
      requires stopped.Empty() ==> a.job.None?
      requires forall r :: r in expired ==> !MayCommit(a, r)
      modifies ledger
      ensures Valid() && SameRequests(old(ledger.View()), ledger.View())
      ensures ledger.View() == if !stopped.Empty() then Recorded(old(ledger.View()), stopped.requests)
                               else if expired != [] then Lapsed(old(ledger.View()), expired)
                               else old(ledger.View())
      ensures stopped.Empty() ==> ledger.unaccounted == Struck(old(ledger.unaccounted), expired)
    {
      hide Agrees, Later, Made, SameRequests, MayCommit, Struck, Members;
      ghost var w := ledger.View();
      SameSelf(w);
      if !stopped.Empty() {
        RecordKeeps(cluster.s, w, stopped.requests, cluster.maxHandling);
        RecordSame(w, stopped.requests);
        ledger.Record(stopped.requests);
      } else if expired != [] {
        LapseKeeps(a, cluster.s, w, expired, cluster.maxHandling);
        LapseSame(w, expired);
        ledger.Lapse(expired);
      } else {
        StruckByNothing(w);
      }
    }

    /** One protected attempt to confirm that the launch stopped. When it does,
        no Job and no Pod exists under the key and no request the run issued can
        ever commit (StoppedForever). lifetimeRule is false in a run recorded
        before that rule. */
    method CleanupRound(lifetimeRule: bool) returns (done: bool, passes: nat)
      requires Valid()
      modifies this`now, this`failures, ledger, client`asked, cluster`s
      ensures Valid() && SameRequests(old(ledger.View()), ledger.View()) && now >= old(now)
      ensures done ==> Stopped(cluster.s) && ledger.unaccounted == []
      ensures passes <= |old(ledger.unaccounted)| + 2
      // It gives up only when an Activity failed or, with every Activity
      // answered, while some request was still within its lifetime.
      ensures !done && failures == old(failures) ==>
                !RuleApplies(lifetimeRule) || !AllExpired(old(ledger.View()), old(now), bounds.createRequestLifetime)
      ensures !RuleApplies(lifetimeRule) ==> ledger.lapsed == old(ledger.lapsed)
    {
      hide Valid, Stopped, AllExpired;
      passes := 0;
      var observed := false;
      while true
        invariant Valid() && SameRequests(old(ledger.View()), ledger.View()) && now >= old(now)
        invariant if observed then passes >= 1 && passes - 1 + |ledger.unaccounted| <= |old(ledger.unaccounted)| else passes == 0
        invariant !RuleApplies(lifetimeRule) ==> ledger.lapsed == old(ledger.lapsed)
        invariant failures == old(failures)
        invariant RuleApplies(lifetimeRule) && AllExpired(old(ledger.View()), old(now), bounds.createRequestLifetime) ==>
                    AllExpired(ledger.View(), now, bounds.createRequestLifetime)
        decreases |old(ledger.unaccounted)| + 2 - passes
      {
        passes := passes + 1;
        var before := |ledger.unaccounted|;
        var verdict := Pass(lifetimeRule);
        if !verdict.Again? {
          return verdict.Confirmed?, passes;
        }
        if observed && |ledger.unaccounted| == before {
          return false, passes;
        }
        observed := true;
      }
    }

    /** Rounds on durable timers with capped backoff until one confirms or the
        bound is reached. No timer is due after the bound, and the run gives up
        only when the next one would be. */
    method ReconcileCleanup(lifetimeRule: bool) returns (done: bool, waits: seq<Time>, began: seq<Time>)
      requires Valid() && 0 < bounds.reconcileInitial && 0 < bounds.reconcileMax
      modifies this`now, this`failures, ledger, client`asked, cluster`s
      ensures Valid() && SameRequests(old(ledger.View()), ledger.View())
      ensures done ==> Stopped(cluster.s) && ledger.unaccounted == []
      ensures Paced(waits, began, bounds, old(now), now)
      ensures !done ==> now + Backoff(bounds.reconcileInitial, bounds.reconcileMax, |waits|) > old(now) + bounds.reconcileDuration
    {
      SameSelf(ledger.View());
      hide Valid, Stopped, SameRequests, Kept, Backoff, Members, Paced;
      var start := now;
      var interval := bounds.reconcileInitial;
      waits, began := [], [];
      PacedStarts(bounds, start);
      while true
        invariant Valid() && SameRequests(old(ledger.View()), ledger.View())
        invariant Paced(waits, began, bounds, start, now)
        invariant interval == Backoff(bounds.reconcileInitial, bounds.reconcileMax, |waits|)
        decreases start + bounds.reconcileDuration - now
      {
        BackoffPositive(bounds.reconcileInitial, bounds.reconcileMax, |waits|);
        if now - start + interval > bounds.reconcileDuration {
          return false, waits, began;
        }
        SelfKept();
        ghost var v := ledger.View();
        var at := now;
        Sleep(interval, Members(ledger.unaccounted));
        var confirmed, _ := CleanupRound(lifetimeRule);
        SameTrans(old(ledger.View()), v, ledger.View());
        PacedPush(waits, began, bounds, start, at, now);
        waits, began := waits + [interval], began + [at];
        if confirmed {
          return true, waits, began;
        }
        interval := Doubled(interval, bounds.reconcileMax);
      }
    }

    lemma SelfKept()
      requires Valid()
      ensures Kept(cluster.s, Members(ledger.unaccounted)) && Members(ledger.unaccounted) <= Members(ledger.unaccounted)
    {
    }

    lemma LaterOfValid()
      requires Valid()
      ensures Later(cluster.s, cluster.s)
    {
      LaterSelf(cluster.s);
    }

    /** A durable timer; workflow time is the timer's. */
    method Sleep(duration: Time, keep: set<nat>)
      requires Valid() && Kept(cluster.s, keep) && Members(ledger.unaccounted) <= keep
      modifies this`now, cluster`s
      ensures Valid() && Kept(cluster.s, keep) && now >= old(now) + duration
    {
      hide Kept, Sound, Later, Reaches, WellKept, Timed, Covered, Evidenced, Numbered;
      ghost var before := cluster.s;
      cluster.Wait(duration, keep);
      now := cluster.s.clock;
      ReachesKeeps(before, cluster.s, keep);
      ReachesLess(before, cluster.s, keep, Members(ledger.unaccounted));
      AgreementIsStable(before, cluster.s, ledger.View(), cluster.maxHandling);
    }
  }

  /** The same requests with the same ends; requests only leave the unaccounted,
      on the evidence of an observation or of their lifetime. */
  ghost predicate SameRequests(v: Account, w: Account) {
    && w.issued == v.issued && w.unanswered == v.unanswered && w.ended == v.ended && w.named == v.named
    && v.recorded <= w.recorded && v.lapsed <= w.lapsed && |w.unaccounted| <= |v.unaccounted|
  }

  lemma SameSelf(v: Account)
    ensures SameRequests(v, v)
  {
  }

  lemma SameTrans(u: Account, v: Account, w: Account)
    requires SameRequests(u, v) && SameRequests(v, w)
    ensures SameRequests(u, w)
  {
  }

  lemma RecordSame(v: Account, requests: seq<nat>)
    ensures SameRequests(v, Recorded(v, requests))
  {
    StruckExact(v.unaccounted, requests);
  }

  lemma LapseSame(v: Account, expired: seq<nat>)
    ensures SameRequests(v, Lapsed(v, expired))
  {
    StruckExact(v.unaccounted, expired);
  }

  /** With every lifetime over, a pass that does not settle the ledger strikes
      at least one request. */
  lemma Progress(v: Account, w: Account, began: Time, now: Time, lifetime: Time, expired: seq<nat>, stopped: Observation)
    requires v.unaccounted == [] ==> expired == []
    requires v.unaccounted != [] ==> expired == ExpiredBy(v.unaccounted, v.ended, began, lifetime)
    requires AllExpired(v, began, lifetime) ==> w == v
    requires began <= now
    requires !stopped.Empty() ==> exists m :: m in stopped.requests && m in w.unaccounted
    ensures var x := if !stopped.Empty() then Recorded(w, stopped.requests) else if expired != [] then Lapsed(w, expired) else w;
            AllExpired(v, began, lifetime) ==>
              && AllExpired(x, now, lifetime)
              && ((x.unaccounted == [] && stopped.Empty()) || |x.unaccounted| < |v.unaccounted|)
  {
    if AllExpired(v, began, lifetime) {
      ExpiredExact(v.unaccounted, v.ended, began, lifetime);
      StruckExact(v.unaccounted, stopped.requests);
      StruckExact(v.unaccounted, expired);
    }
  }

  lemma StruckByNothing(v: Account)
    ensures Struck(v.unaccounted, []) == v.unaccounted
  {
  }

  lemma HeldBackAll(v: Account)
    requires WellKept(v)
    ensures forall m :: m in Members(v.unaccounted) ==> HeldBack(m, v.unaccounted, false, [])
  {
  }

  lemma StillExpired(s: Server, t: Server, expired: seq<nat>)
    requires Later(s, t) && forall r :: r in expired ==> !MayCommit(s, r)
    ensures forall r :: r in expired ==> !MayCommit(t, r)
  {
  }

  lemma ReadsConfirm(mid: Server, a: Server, b: Server, s: Server, w: Account, expired: seq<nat>, maxHandling: Time)
    requires Agrees(mid, w, maxHandling)
    requires Reaches(mid, a, Members(w.unaccounted)) && Reaches(a, b, Members(w.unaccounted))
    requires Reaches(b, s, Members(w.unaccounted))
    requires forall r :: r in expired ==> !MayCommit(mid, r)
    ensures Agrees(a, w, maxHandling) && Agrees(b, w, maxHandling) && Agrees(s, w, maxHandling)
    ensures Later(a, b) && Later(b, s) && Later(a, s)
    ensures forall r :: r in expired ==> !MayCommit(a, r)
  {
    AgreementIsStable(mid, a, w, maxHandling);
    AgreementIsStable(a, b, w, maxHandling);
    AgreementIsStable(b, s, w, maxHandling);
    LaterTrans(a, b, s);
    StillExpired(mid, a, expired);
  }

  lemma Finish(mid: Server, a: Server, b: Server, s: Server, w: Account, expired: seq<nat>, maxHandling: Time)
    requires Agrees(a, w, maxHandling) && Agrees(b, w, maxHandling) && Agrees(s, w, maxHandling)
    requires Later(a, b) && Later(b, s) && a.job.None? && b.pods == []
    requires forall r :: r in expired ==> !MayCommit(a, r)
    requires Struck(w.unaccounted, expired) == []
    ensures Stopped(s)
  {
    SettledIsQuiet(a, w, expired, maxHandling);
    AbsenceIsFinal(a, b, s);
  }

  lemma NothingIsKept(s: Server)
    ensures Kept(s, UpTo(0))
  {
  }

  lemma AccountWithin(v: Account)
    requires WellKept(v)
    ensures Members(v.unaccounted) <= UpTo(v.issued)
  {
    UpToExact(v.issued);
  }

  lemma LaterClock(s: Server, t: Server)
    requires Later(s, t)
    ensures s.clock <= t.clock
  {
  }

  lemma SameMakers(s: Server, t: Server, request: nat)
    requires s.makers == t.makers && (request == 0 || Made(s, request))
    ensures request == 0 || Made(t, request)
  {
  }

  lemma NextIsFresh(s: Server, v: Account, maxHandling: Time)
    requires Agrees(s, v, maxHandling) && Kept(s, UpTo(v.issued))
    ensures !Made(s, v.issued + 1) && v.issued + 1 !in s.inflight
    ensures Kept(s, UpTo(v.issued + 1))
    ensures Members(v.unaccounted) <= UpTo(v.issued)
  {
    UpToExact(v.issued);
    UpToExact(v.issued + 1);
  }

  /** After each of these outcomes the next request is issued. */
  ghost predicate Retried(outcomes: seq<CreateResult>) {
    forall i :: 0 <= i < |outcomes| ==> outcomes[i].NotCreated? || outcomes[i].Unanswered?
  }

  lemma RetriedPush(outcomes: seq<CreateResult>, outcome: CreateResult)
    requires Retried(outcomes)
    ensures !outcome.JobRef? && !outcome.Refused? ==> Retried(outcomes + [outcome])
  {
  }

  lemma NothingUnanswered()
    ensures UnansweredOf([]) == [] && Members([]) == {} && Retried([])
  {
  }

  lemma UnansweredPush(outcomes: seq<CreateResult>, outcome: CreateResult)
    ensures UnansweredOf(outcomes + [outcome]) ==
            UnansweredOf(outcomes) + (if outcome.Unanswered? then [|outcomes| + 1] else [])
    ensures Members(UnansweredOf(outcomes + [outcome])) ==
            Members(UnansweredOf(outcomes)) + (if outcome.Unanswered? then {|outcomes| + 1} else {})
  {
    assert (outcomes + [outcome])[..|outcomes|] == outcomes;
  }
}
