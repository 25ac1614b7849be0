/** The settlement of another run's launch, evidence first: observe the original
    launch key, make the observation durable with Control, delete only what was
    recorded, confirm the stop until Control settles the finding on it. */
module LaunchSettlement {
  import opened Wrappers
  import opened ApiServer
  import opened LaunchObservation
  import opened Launcher

  /** A launch ledger's value, as one round hands it to the next run. */
  datatype LedgerCarry = LedgerCarry(recorded: seq<nat>, stopPending: bool, stoppedJob: Option<nat>)

  /** What the settlement of one finding asked for, over all its rounds. */
  datatype Event =
    /** An observation was reported; Control acknowledged it, or did not answer. */
    | Reported(seen: Observation, acknowledged: bool)
    /** A settle window that showed nothing was reported as such. */
    | NothingReported
    /** One delete call ended; it asked the server to delete these UIDs. */
    | Deleted(asked: set<nat>)
    /** A delete call found no Job at one state and no Pod at a later one. */
    | KeyEmpty(a: Server, b: Server)
    /** The stop was confirmed to Control, which answered that it settled the
        finding, or anything else. */
    | Confirmed(job: Option<nat>, settled: bool)

  /** Every marker of an observation Control acknowledged. */
  function Acknowledged(log: seq<Event>): set<nat> {
    if log == [] then {}
    else
      var e := log[|log| - 1];
      Acknowledged(log[..|log| - 1]) + if e.Reported? && e.acknowledged then Members(e.seen.requests) else {}
  }

  /** A stop was observed that Control has not settled the finding on. */
  function Owed(log: seq<Event>): bool {
    if log == [] then false
    else
      var e := log[|log| - 1];
      if e.KeyEmpty? then true else if e.Confirmed? && e.settled then false else Owed(log[..|log| - 1])
  }

  /** An acknowledged observation showed something. */
  ghost predicate Shown(log: seq<Event>) {
    exists i :: 0 <= i < |log| && log[i].Reported? && log[i].acknowledged && !log[i].seen.Empty()
  }

  ghost predicate Names(log: seq<Event>, job: nat) {
    exists i :: 0 <= i < |log| && log[i].Reported? && log[i].acknowledged && log[i].seen.jobUid == Some(job)
  }

  /** What must hold of the log before an event of the settlement. */
  ghost predicate May(log: seq<Event>, e: Event, makers: map<nat, nat>) {
    // While a stop is owed it is confirmed, and nothing else happens.
    && (e.Confirmed? <==> Owed(log))
    && (e.Confirmed? ==> e.job.Some? ==> Names(log, e.job.value))
    // Evidence before deletion.
    && (e.Deleted? ==> forall u :: u in e.asked ==> u in makers && (makers[u] == 0 || makers[u] in Acknowledged(log)))
    && (e.Deleted? || e.KeyEmpty? ==> Shown(log))
    // What is reported was made.
    && (e.Reported? ==> forall m :: m in e.seen.requests ==> m in makers.Values)
    && (e.KeyEmpty? ==> e.a.job.None? && e.b.pods == [] && Later(e.a, e.b))
  }

  ghost predicate Right(log: seq<Event>, makers: map<nat, nat>) {
    forall i :: 0 <= i < |log| ==> May(log[..i], log[i], makers)
  }

  lemma Push(log: seq<Event>, e: Event, makers: map<nat, nat>)
    requires Right(log, makers) && May(log, e, makers)
    ensures Right(log + [e], makers)
    ensures Acknowledged(log + [e]) ==
            Acknowledged(log) + if e.Reported? && e.acknowledged then Members(e.seen.requests) else {}
    ensures Owed(log + [e]) == if e.KeyEmpty? then true else if e.Confirmed? && e.settled then false else Owed(log)
    ensures Shown(log) ==> Shown(log + [e])
    ensures e.Reported? && e.acknowledged && !e.seen.Empty() ==> Shown(log + [e])
    ensures forall j :: Names(log, j) ==> Names(log + [e], j)
    ensures e.Reported? && e.acknowledged && e.seen.jobUid.Some? ==> Names(log + [e], e.seen.jobUid.value)
  {
    var l := log + [e];
    assert forall i :: 0 <= i <= |log| ==> l[..i] == log[..i];
    assert log[..|log|] == log && l[|log|] == e;
    assert forall i :: 0 <= i < |log| ==> l[i] == log[i];
  }

  lemma MakersGrow(log: seq<Event>, s: Server, t: Server)
    requires Right(log, s.makers) && Later(s, t)
    ensures Right(log, t.makers)
  {
  }

  /** The markers an object under the key may carry, now or ever. */
  function Possible(s: Server): set<nat> {
    s.inflight + s.makers.Values
  }

  lemma PossibleShrinks(s: Server, t: Server)
    requires Later(s, t)
    ensures Possible(t) <= Possible(s)
  {
    forall m | m in t.makers.Values ensures m in Possible(s) {
      var u :| u in t.makers && t.makers[u] == m;
      assert u !in s.makers ==> MayCommit(s, t.makers[u]);
    }
  }

  function Appended(recorded: seq<nat>, requests: seq<nat>): seq<nat>
    decreases |requests|
  {
    if requests == [] then recorded
    else Appended(if requests[0] in recorded then recorded else recorded + [requests[0]], requests[1..])
  }

  lemma {:induction false} AppendedExact(recorded: seq<nat>, requests: seq<nat>)
    requires Distinct(recorded)
    ensures Distinct(Appended(recorded, requests)) && recorded <= Appended(recorded, requests)
    ensures Members(Appended(recorded, requests)) == Members(recorded) + Members(requests)
    decreases |requests|
  {
    if requests != [] {
      var next := if requests[0] in recorded then recorded else recorded + [requests[0]];
      AppendedExact(next, requests[1..]);
      assert forall r :: r in requests <==> r == requests[0] || r in requests[1..];
    }
  }

  /** The run's evidence account of one launch it settles. */
  class LaunchLedger {
    var recorded: seq<nat>
    var stopPending: bool
    var stoppedJob: Option<nat>
    /** The finding the ledger is kept for. */
    ghost const finding: nat

    constructor (ghost finding: nat, c: LedgerCarry)
      ensures View() == c && this.finding == finding
    {
      this.finding := finding;
      recorded, stopPending, stoppedJob := c.recorded, c.stopPending, c.stoppedJob;
    }

    function View(): LedgerCarry
      reads this
    {
      LedgerCarry(recorded, stopPending, stoppedJob)
    }

    method Record(requests: seq<nat>)
      modifies this`recorded
      ensures recorded == Appended(old(recorded), requests)
    {
      var i := 0;
      while i < |requests|
        invariant i <= |requests|
        invariant Appended(recorded, requests[i..]) == Appended(old(recorded), requests)
      {
        assert requests[i..][1..] == requests[i + 1..];
        if requests[i] !in recorded {
          recorded := recorded + [requests[i]];
        }
        i := i + 1;
      }
    }
  }

  /** The ledger of a finding this run never settled. */
  const EMPTY := LedgerCarry([], false, None)

  /** The ledger agrees with what happened: it holds exactly the acknowledged
      markers, and a stop is pending exactly while it is owed. */
  ghost predicate Agrees(c: LedgerCarry, log: seq<Event>) {
    && Distinct(c.recorded) && Members(c.recorded) == Acknowledged(log)
    && c.stopPending == Owed(log)
    && (c.stopPending && c.stoppedJob.Some? ==> Names(log, c.stoppedJob.value))
  }

  /** Everything this chain asked to delete was acknowledged evidence when it was
      asked: a Job without a marker, or one whose marker an acknowledged
      observation carried. */
  ghost predicate Evidence(asked: set<nat>, makers: map<nat, nat>, log: seq<Event>) {
    forall u :: u in asked ==> u in makers && (makers[u] == 0 || makers[u] in Acknowledged(log))
  }

  /** At the server: a marked Job is named by a delete, being deleted or gone only
      if its marker was acknowledged, or if that was so when the chain began. */
  ghost predicate Spares(s: Server, log: seq<Event>, found: set<nat>) {
    forall u :: u in s.makers && s.makers[u] != 0 && s.makers[u] !in Acknowledged(log) && u !in found ==> Untouched(s, u)
  }

  /** Every acknowledged Job is gone, and so are its Pods. */
  ghost predicate Gone(s: Server, log: seq<Event>) {
    forall u :: u in s.makers && s.makers[u] != 0 && s.makers[u] in Acknowledged(log) ==>
      (s.job.Some? ==> s.job.value.uid != u) && forall p :: p in s.pods ==> p.owner != Some(u)
  }

  /** What the settlement keeps of the server and its log; while a stop is owed
      the launch it was observed for is gone. */
  ghost predicate Holds(s: Server, asked: set<nat>, log: seq<Event>, found: set<nat>) {
    && Right(log, s.makers) && Evidence(asked, s.makers, log) && Spares(s, log, found)
    && (Owed(log) ==> Gone(s, log))
  }

  /** What nobody may ask to delete while these markers are recorded: every other
      marker the key's objects may carry. */
  function Protect(s: Server, recorded: seq<nat>): set<nat> {
    Possible(s) - {0} - Members(recorded)
  }

  lemma HoldsPush(s: Server, asked: set<nat>, log: seq<Event>, e: Event, found: set<nat>)
    requires Holds(s, asked, log, found) && May(log, e, s.makers) && (e.KeyEmpty? ==> Gone(s, log))
    ensures Holds(s, asked, log + [e], found)
  {
    Push(log, e, s.makers);
    hide Right, May;
  }

  /** Whatever was acknowledged was made. */
  lemma {:induction false} AcknowledgedWasMade(log: seq<Event>, makers: map<nat, nat>)
    requires Right(log, makers)
    ensures Acknowledged(log) <= makers.Values
  {
    forall m | m in Acknowledged(log) ensures m in makers.Values {
      var i := WhenAcknowledged(log, m);
      assert May(log[..i], log[i], makers);
    }
  }

  lemma GoneStays(s: Server, t: Server, log: seq<Event>)
    requires Sound(s) && Sound(t) && Later(s, t) && Acknowledged(log) <= s.makers.Values && Gone(s, log)
    ensures Gone(t, log)
  {
    forall u | u in t.makers && t.makers[u] != 0 && t.makers[u] in Acknowledged(log)
      ensures (t.job.Some? ==> t.job.value.uid != u) && forall p :: p in t.pods ==> p.owner != Some(u)
    {
      AlreadyMade(s, t, u);
      forall p | p in t.pods ensures p.owner != Some(u) {
        var i :| 0 <= i < |t.pods| && t.pods[i] == p;
        assert t.pods[i] !in s.pods ==> t.pods[i].owner != Some(u);
      }
    }
  }

  /** The maker of a marker that was made before is the one it had. */
  lemma AlreadyMade(s: Server, t: Server, u: nat)
    requires Sound(s) && Sound(t) && Later(s, t) && u in t.makers && t.makers[u] != 0 && t.makers[u] in s.makers.Values
    ensures u in s.makers
  {
    var v :| v in s.makers && s.makers[v] == t.makers[u];
    assert v in t.makers && t.makers[v] == t.makers[u];
  }

  /** Reads that found no Job, then no Pod, after all acknowledgements. */
  lemma GoneWhenEmpty(s: Server, a: Server, b: Server, t: Server, log: seq<Event>)
    requires Sound(s) && Sound(a) && Sound(b) && Sound(t) && Later(s, a) && Later(a, b) && Later(b, t)
    requires Acknowledged(log) <= s.makers.Values && a.job.None? && b.pods == []
    ensures Gone(t, log)
  {
    MadeValuesStay(s, a);
    MadeValuesStay(a, b);
    forall u | u in b.makers && b.makers[u] != 0 && b.makers[u] in Acknowledged(log)
      ensures b.job.Some? ==> b.job.value.uid != u
    {
      AlreadyMade(a, b, u);
    }
    assert Gone(b, log);
    GoneStays(b, t, log);
  }

  lemma MadeValuesStay(s: Server, t: Server)
    requires Later(s, t)
    ensures s.makers.Values <= t.makers.Values
  {
    forall m | m in s.makers.Values ensures m in t.makers.Values {
      var u :| u in s.makers && s.makers[u] == m;
      assert u in t.makers && t.makers[u] == m;
    }
  }

  /** The server moves on while everything unacknowledged is protected. */
  lemma HoldsMove(s: Server, t: Server, asked: set<nat>, log: seq<Event>, found: set<nat>, recorded: seq<nat>)
    requires Sound(s) && Holds(s, asked, log, found) && Members(recorded) == Acknowledged(log)
    requires Reaches(s, t, Protect(s, recorded))
    ensures Sound(t) && Later(s, t) && Holds(t, asked, log, found)
  {
    ReachesKeeps(s, t, Protect(s, recorded));
    AcknowledgedWasMade(log, s.makers);
    if Owed(log) {
      GoneStays(s, t, log);
    }
    MakersGrow(log, s, t);
    hide Gone, Right, Later;
    SparesMove(s, t, log, found, recorded);
    EvidenceMoves(asked, s, t, log);
  }

  lemma SparesMove(s: Server, t: Server, log: seq<Event>, found: set<nat>, recorded: seq<nat>)
    requires Sound(s) && Spares(s, log, found) && Members(recorded) == Acknowledged(log)
    requires Reaches(s, t, Protect(s, recorded)) && Later(s, t)
    ensures Spares(t, log, found)
  {
    ReachesSpares(s, t, Protect(s, recorded), found);
    PossibleShrinks(s, t);
  }

  lemma EvidenceMoves(asked: set<nat>, s: Server, t: Server, log: seq<Event>)
    requires Evidence(asked, s.makers, log) && Later(s, t)
    ensures Evidence(asked, t.makers, log)
  {
  }

  /** What Control received about a finding. */
  function ReceivedOf(log: seq<Event>): seq<Event> {
    if log == [] then []
    else
      var e := log[|log| - 1];
      ReceivedOf(log[..|log| - 1]) + if e.Reported? || e.NothingReported? || e.Confirmed? then [e] else []
  }

  lemma ReceivedPush(log: seq<Event>, e: Event)
    ensures ReceivedOf(log + [e]) ==
            ReceivedOf(log) + if e.Reported? || e.NothingReported? || e.Confirmed? then [e] else []
  {
    assert (log + [e])[..|log|] == log;
  }

  /** Control's side of one finding, with everything it was told. */
  class FindingPort {
    const finding: nat
    ghost var received: seq<Event>

    constructor (finding: nat)
      ensures this.finding == finding && received == []
    {
      this.finding, received := finding, [];
    }

    /** Records an observation; the answer is the acknowledgement. */
    method RecordObservation(seen: Observation) returns (ok: bool)
      modifies this
      ensures received == old(received) + [Reported(seen, ok)]
    {
      ok := *;
      received := received + [Reported(seen, ok)];
    }

    method RecordNothing() returns (ok: bool)
      modifies this
      ensures received == old(received) + [NothingReported]
    {
      ok := *;
      received := received + [NothingReported];
    }

    /** Takes a stop confirmation; settled when Control answers so. */
    method ConfirmStop(job: Option<nat>) returns (ok: bool, settled: bool)
      modifies this
      ensures settled ==> ok
      ensures received == old(received) + [Confirmed(job, settled)]
    {
      ok, settled := *, *;
      settled := ok && settled;
      received := received + [Confirmed(job, settled)];
    }
  }

  /** One launch key, the launcher that acts on it, and Control's side of the
      finding. */
  class Site {
    const cluster: Cluster
    const client: Client
    const port: FindingPort
    const finding: nat
    ghost var log: seq<Event>
    /** The Jobs that were already touched when the chain began. */
    ghost const found: set<nat>

    constructor (finding: nat, cluster: Cluster)
      requires Sound(cluster.s)
      ensures this.finding == finding && port.finding == finding && client.cluster == cluster
      ensures this.cluster == cluster && fresh(client) && fresh(port) && log == [] && Settling(EMPTY)
      ensures found == set u | u in cluster.s.makers && !Untouched(cluster.s, u)
    {
      this.cluster, this.finding := cluster, finding;
      client := new Client(cluster);
      port := new FindingPort(finding);
      log := [];
      found := set u | u in cluster.s.makers && !Untouched(cluster.s, u);
    }

    ghost predicate Settling(c: LedgerCarry)
      reads this, client, cluster, port
    {
      && client.cluster == cluster && Sound(cluster.s) && Agrees(c, log)
      && Holds(cluster.s, client.asked, log, found) && port.received == ReceivedOf(log)
    }

    /** Makes an observation durable with Control, then records its markers. */
    method RecordLaunch(seen: Observation, ledger: LaunchLedger) returns (ok: bool)
      requires Settling(ledger.View()) && !ledger.stopPending
      requires forall m :: m in seen.requests ==> m in cluster.s.makers.Values
      modifies this`log, ledger`recorded, port
      ensures Settling(ledger.View())
      ensures log == old(log) + [Reported(seen, ok)]
      ensures ok ==> Members(ledger.recorded) == Members(old(ledger.recorded)) + Members(seen.requests)
      ensures old(ledger.recorded) <= ledger.recorded
      ensures ok && !seen.Empty() ==> Shown(log)
      ensures Shown(old(log)) ==> Shown(log)
      ensures forall j :: Names(old(log), j) ==> Names(log, j)
      ensures ok && seen.jobUid.Some? ==> Names(log, seen.jobUid.value)
      ensures !ok ==> ledger.recorded == old(ledger.recorded)
    {
      hide Right, Owed, Acknowledged, Holds, Names, Shown, Sound, Appended, ReceivedOf;
      ok := port.RecordObservation(seen);
      ghost var e := Reported(seen, ok);
      MayReport(log, e, cluster.s.makers);
      RightOf(cluster.s, client.asked, log, found);
      Push(log, e, cluster.s.makers);
      HoldsPush(cluster.s, client.asked, log, e, found);
      ReceivedPush(log, e);
      log := log + [e];
      if ok {
        AppendedExact(ledger.recorded, seen.requests);
        ledger.Record(seen.requests);
      }
    }

    /** Submits the pending stop confirmation; it stays pending until Control
        settles the finding on it. */
    method ConfirmStop(ledger: LaunchLedger) returns (ok: bool)
      requires Settling(ledger.View()) && ledger.stopPending
      modifies this`log, ledger`stopPending, port
      ensures Settling(ledger.View())
      ensures exists settled :: log == old(log) + [Confirmed(ledger.stoppedJob, settled)] && ledger.stopPending == !settled
    {
      hide Right, Owed, Acknowledged, Holds, Names, Shown, Sound, ReceivedOf;
      var settled;
      ok, settled := port.ConfirmStop(ledger.stoppedJob);
      ghost var e := Confirmed(ledger.stoppedJob, settled);
      MayConfirm(log, e, cluster.s.makers);
      RightOf(cluster.s, client.asked, log, found);
      Push(log, e, cluster.s.makers);
      HoldsPush(cluster.s, client.asked, log, e, found);
      ReceivedPush(log, e);
      log := log + [e];
      if settled {
        ledger.stopPending := false;
      }
    }

    /** A settle window that showed nothing is reported as such, and nothing is
        deleted. */
    method ReportNothing(ledger: LaunchLedger) returns (ok: bool)
      requires Settling(ledger.View()) && !ledger.stopPending
      modifies this`log, port
      ensures Settling(ledger.View()) && log == old(log) + [NothingReported]
    {
      hide Right, Owed, Acknowledged, Holds, Names, Shown, Sound, ReceivedOf;
      ok := port.RecordNothing();
      MayReport(log, NothingReported, cluster.s.makers);
      RightOf(cluster.s, client.asked, log, found);
      Push(log, NothingReported, cluster.s.makers);
      HoldsPush(cluster.s, client.asked, log, NothingReported, found);
      ReceivedPush(log, NothingReported);
      log := log + [NothingReported];
    }

    /** A delete observed the key empty: the confirmation is owed from now on,
        whatever happens to its submission. */
    method OweStop(ghost a: Server, ghost b: Server, job: Option<nat>, ledger: LaunchLedger)
      requires Settling(ledger.View()) && !ledger.stopPending && Shown(log) && (job.Some? ==> Names(log, job.value))
      requires a.job.None? && b.pods == [] && Later(a, b) && Gone(cluster.s, log)
      modifies this`log, ledger`stopPending, ledger`stoppedJob
      ensures Settling(ledger.View()) && ledger.stopPending && ledger.stoppedJob == job
      ensures log == old(log) + [KeyEmpty(a, b)]
    {
      hide Right, Owed, Acknowledged, Holds, Names, Shown, Sound, Later, Gone, ReceivedOf;
      ghost var e := KeyEmpty(a, b);
      MayConclude(log, e, cluster.s.makers);
      RightOf(cluster.s, client.asked, log, found);
      Push(log, e, cluster.s.makers);
      HoldsPush(cluster.s, client.asked, log, e, found);
      ReceivedPush(log, e);
      log := log + [e];
      ledger.stopPending, ledger.stoppedJob := true, job;
    }

    /** The delete Activity, evidence first, with its retries; an attempt whose
        receipt was lost deleted only recorded objects too. */
    method DeleteJob(attempts: nat, ledger: LaunchLedger) returns (r: Result<Observation, ()>, ghost a: Server, ghost b: Server)
      requires Settling(ledger.View()) && !ledger.stopPending && Shown(log)
      modifies this`log, client`asked, cluster`s
      ensures Settling(ledger.View()) && Later(old(cluster.s), cluster.s) && Shown(log)
      ensures exists us :: log == old(log) + [Deleted(us)]
      ensures forall j :: Names(old(log), j) ==> Names(log, j)
      ensures r.Ok? && r.value.Empty() ==> a.job.None? && b.pods == [] && Later(a, b) && Gone(cluster.s, log)
      ensures r.Ok? && !r.value.Empty() ==>
                && (forall m :: m in r.value.requests ==> m in cluster.s.makers.Values)
                && exists m :: m in r.value.requests && m !in ledger.recorded && m in Possible(cluster.s)
    {
      hide Right, Owed, Acknowledged, Names, Shown, Sound, Reaches, Later, Made, Evidence, Holds, Gone, Protect, ReceivedOf;
      ghost var before, asked := cluster.s, client.asked;
      var keep := Protect(cluster.s, ledger.recorded);
      ProtectedIsHeldBack(cluster.s, ledger.recorded);
      LaterSelf(before);
      ReachesSelf(before, keep);
      NothingNewAsked(asked, before.makers, ledger.recorded);
      r, a, b := Err(()), before, before;
      var attempt := 0;
      while attempt < attempts && r.Err?
        invariant Sound(cluster.s) && Later(before, cluster.s) && Reaches(before, cluster.s, keep) && log == old(log)
        invariant NewlyAsked(asked, client.asked, cluster.s.makers, ledger.recorded)
        invariant r.Ok? && r.value.Empty() ==>
                    && a.job.None? && b.pods == [] && Sound(a) && Sound(b)
                    && Later(before, a) && Later(a, b) && Later(b, cluster.s)
        invariant r.Ok? ==> forall m :: m in r.value.requests ==> Made(cluster.s, m)
        invariant r.Ok? && !r.value.Empty() ==> exists m :: m in r.value.requests && m !in ledger.recorded
      {
        ghost var start, already := cluster.s, client.asked;
        var polls: nat :| true;
        ghost var read;
        r, a, b, read := client.DeleteJob([], true, ledger.recorded, polls, keep);
        if r.Ok? {
          InOrder(before, start, a, b, cluster.s, keep);
        }
        ReachesKeeps(start, cluster.s, keep);
        ReachesTrans(before, start, cluster.s, keep);
        LaterTrans(before, start, cluster.s);
        AskedMore(asked, already, client.asked, start, cluster.s, ledger.recorded);
        var lost: bool := *;
        if lost {
          r := Err(());
        }
        attempt := attempt + 1;
      }
      HoldsMove(before, cluster.s, asked, log, found, ledger.recorded);
      ghost var e := Deleted(client.asked - asked);
      MovedOnAfterAsking(asked, client.asked, cluster.s, log, ledger.View(), found);
      if r.Ok? && r.value.Empty() {
        RightOf(before, asked, log, found);
        AcknowledgedWasMade(log, before.makers);
        GoneWhenEmpty(before, a, b, cluster.s, log);
        GoneAlike(cluster.s, log, e);
      }
      RightOf(cluster.s, client.asked, log, found);
      Push(log, e, cluster.s.makers);
      HoldsPush(cluster.s, client.asked, log, e, found);
      ReceivedPush(log, e);
      log := log + [e];
      MadeIsPossible(cluster.s);
    }

    /** One settlement of the finding's launch. */
    method SettleLaunch(ledger: LaunchLedger, attempts: nat) returns (ok: bool, deletes: nat)
      requires Settling(ledger.View())
      modifies this, ledger, client, cluster, port
      ensures Settling(ledger.View())
      // The history only grows: recorded markers stay, and a pending stop stays
      // until Control settled the finding on it.
      ensures Progressed(old(ledger.View()), old(log), ledger.View(), log) && |log| > |old(log)|
      // A stop already observed is confirmed, never observed again.
      ensures old(ledger.stopPending) ==> deletes == 0 && cluster.s == old(cluster.s) && client.asked == old(client.asked)
      ensures deletes <= |Possible(old(cluster.s)) - Members(old(ledger.recorded))| + 1
    {
      hide Right, Owed, Acknowledged, Names, Shown, Sound, Reaches, Later, Holds, Gone, Possible, Members, ReceivedOf;
      deletes := 0;
      if ledger.stopPending {
        ok := ConfirmStop(ledger);
        ghost var k := |old(log)|;
        assert log[k].Confirmed? && log[k].settled == !ledger.stopPending;
        return;
      }
      ghost var start, known := cluster.s, Members(ledger.recorded);
      var seen := Observe(attempts, ledger);
      ghost var mid := cluster.s;
      if seen.Err? {
        ok := ReportNothing(ledger);
        return;
      }
      ok := RecordLaunch(seen.value, ledger);
      if !ok {
        return;
      }
      PossibleShrinks(start, mid);
      FewerLeft(Possible(start), Possible(mid), known, Members(ledger.recorded));
      ok, deletes := StopLaunch(ledger, attempts, seen.value.jobUid);
    }

    /** Deletes what was recorded, recording first what turns up, until the key was
        observed empty; then the stop is owed. */
    method StopLaunch(ledger: LaunchLedger, attempts: nat, first: Option<nat>) returns (ok: bool, deletes: nat)
      requires Settling(ledger.View()) && !ledger.stopPending && Shown(log) && (first.Some? ==> Names(log, first.value))
      modifies this, ledger, client, cluster, port
      ensures Settling(ledger.View()) && old(log) <= log && old(ledger.recorded) <= ledger.recorded
      ensures deletes <= |Possible(old(cluster.s)) - Members(old(ledger.recorded))| + 1
    {
      hide Right, Owed, Acknowledged, Names, Shown, Sound, Reaches, Later, Holds, Gone, Possible, Members, ReceivedOf;
      ghost var start, known := cluster.s, Members(ledger.recorded);
      var job := first;
      deletes := 0;
      while true
        invariant Settling(ledger.View()) && !ledger.stopPending && Shown(log)
        invariant old(log) <= log && old(ledger.recorded) <= ledger.recorded && (job.Some? ==> Names(log, job.value))
        invariant deletes + |Possible(cluster.s) - Members(ledger.recorded)| <= |Possible(start) - known|
        decreases |Possible(cluster.s) - Members(ledger.recorded)|
      {
        ghost var s := cluster.s;
        var stopped, a, b := DeleteJob(attempts, ledger);
        deletes := deletes + 1;
        PossibleShrinks(s, cluster.s);
        FewerLeft(Possible(s), Possible(cluster.s), Members(ledger.recorded), Members(ledger.recorded));
        if stopped.Err? {
          return false, deletes;
        }
        if stopped.value.Empty() {
          OweStop(a, b, job, ledger);
          break;
        }
        if stopped.value.jobUid.Some? {
          job := stopped.value.jobUid;
        }
        OneMore(ledger.recorded, stopped.value.requests, Possible(cluster.s));
        var recorded := RecordLaunch(stopped.value, ledger);
        if !recorded {
          return false, deletes;
        }
      }
      ok := ConfirmStop(ledger);
    }

    /** The read-only observation Activity with its retries. */
    method Observe(attempts: nat, ledger: LaunchLedger) returns (r: Result<Observation, ()>)
      requires Settling(ledger.View())
      modifies cluster`s
      ensures Settling(ledger.View()) && Later(old(cluster.s), cluster.s)
      ensures r.Ok? ==> !r.value.Empty() && forall m :: m in r.value.requests ==> m in cluster.s.makers.Values
    {
      hide Right, Owed, Acknowledged, Names, Shown, Sound, Reaches, Later, Made, Holds, Gone, Protect, ReceivedOf;
      ghost var before := cluster.s;
      var keep := Protect(cluster.s, ledger.recorded);
      ReachesSelf(before, keep);
      r := Err(());
      var attempt := 0;
      while attempt < attempts && r.Err?
        invariant Sound(cluster.s) && Reaches(before, cluster.s, keep)
        invariant r.Ok? ==> !r.value.Empty() && forall m :: m in r.value.requests ==> Made(cluster.s, m)
      {
        ghost var start := cluster.s;
        var polls: nat :| true;
        r := client.ObserveLaunch(polls, keep);
        ReachesKeeps(start, cluster.s, keep);
        ReachesTrans(before, start, cluster.s, keep);
        var lost: bool := *;
        if lost {
          r := Err(());
        }
        attempt := attempt + 1;
      }
      HoldsMove(before, cluster.s, client.asked, log, found, ledger.recorded);
      MadeIsPossible(cluster.s);
    }
  }

  ghost predicate SettledIn(log: seq<Event>, from: nat) {
    exists k :: from <= k < |log| && log[k].Confirmed? && log[k].settled
  }

  /** The log grew, recorded markers stayed, and a pending stop is still pending
      for the same Job or was settled. */
  ghost predicate Progressed(c: LedgerCarry, log: seq<Event>, d: LedgerCarry, longer: seq<Event>) {
    && log <= longer && c.recorded <= d.recorded
    && (c.stopPending ==> (d.stopPending && d.stoppedJob == c.stoppedJob) || SettledIn(longer, |log|))
  }

  lemma ProgressedTrans(b: LedgerCarry, k: seq<Event>, c: LedgerCarry, l: seq<Event>, d: LedgerCarry, m: seq<Event>)
    requires Progressed(b, k, c, l) && Progressed(c, l, d, m)
    ensures Progressed(b, k, d, m)
  {
    if SettledIn(l, |k|) {
      var i :| |k| <= i < |l| && l[i].Confirmed? && l[i].settled;
      assert m[i] == l[i];
    }
    if SettledIn(m, |l|) {
      var i :| |l| <= i < |m| && m[i].Confirmed? && m[i].settled;
      assert |k| <= i;
    }
  }

  lemma RightOf(s: Server, asked: set<nat>, log: seq<Event>, found: set<nat>)
    requires Holds(s, asked, log, found)
    ensures Right(log, s.makers)
  {
  }

  lemma GoneAlike(s: Server, log: seq<Event>, e: Event)
    requires Gone(s, log) && !e.Reported?
    ensures Gone(s, log + [e])
  {
    assert (log + [e])[..|log|] == log;
  }

  lemma ProtectedIsHeldBack(s: Server, recorded: seq<nat>)
    ensures forall m :: m in Protect(s, recorded) ==> HeldBack(m, [], true, recorded)
  {
  }

  lemma MayReport(log: seq<Event>, e: Event, makers: map<nat, nat>)
    requires !Owed(log) && (e.Reported? || e.NothingReported?)
    requires e.Reported? ==> forall m :: m in e.seen.requests ==> m in makers.Values
    ensures May(log, e, makers)
  {
  }

  lemma MayConfirm(log: seq<Event>, e: Event, makers: map<nat, nat>)
    requires Owed(log) && e.Confirmed? && (e.job.Some? ==> Names(log, e.job.value))
    ensures May(log, e, makers)
  {
  }

  lemma MayConclude(log: seq<Event>, e: Event, makers: map<nat, nat>)
    requires !Owed(log) && Shown(log) && e.KeyEmpty? && e.a.job.None? && e.b.pods == [] && Later(e.a, e.b)
    ensures May(log, e, makers)
  {
  }

  /** What was asked since is without a marker or recorded. */
  ghost predicate NewlyAsked(before: set<nat>, asked: set<nat>, makers: map<nat, nat>, recorded: seq<nat>) {
    before <= asked && forall u :: u in asked - before ==> u in makers && (makers[u] == 0 || makers[u] in recorded)
  }

  lemma NothingNewAsked(asked: set<nat>, makers: map<nat, nat>, recorded: seq<nat>)
    ensures NewlyAsked(asked, asked, makers, recorded)
  {
  }

  lemma AskedMore(before: set<nat>, already: set<nat>, asked: set<nat>, s: Server, t: Server, recorded: seq<nat>)
    requires NewlyAsked(before, already, s.makers, recorded) && Later(s, t) && already <= asked
    requires forall u :: u in asked - already ==> u in t.makers && !HeldBack(t.makers[u], [], true, recorded)
    ensures NewlyAsked(before, asked, t.makers, recorded)
  {
  }

  lemma MovedOnAfterAsking(before: set<nat>, asked: set<nat>, s: Server, log: seq<Event>, c: LedgerCarry, found: set<nat>)
    requires Holds(s, before, log, found) && Agrees(c, log)
    requires NewlyAsked(before, asked, s.makers, c.recorded) && !c.stopPending && Shown(log)
    ensures Holds(s, asked, log, found) && May(log, Deleted(asked - before), s.makers)
  {
    assert forall r :: r in c.recorded <==> r in Members(c.recorded);
  }

  lemma InOrder(s: Server, t: Server, a: Server, b: Server, u: Server, keep: set<nat>)
    requires Sound(t) && Later(s, t) && Reaches(t, a, keep) && Reaches(a, b, keep) && Reaches(b, u, keep)
    ensures Sound(a) && Sound(b) && Later(s, a) && Later(a, b) && Later(b, u)
  {
    ReachesKeeps(t, a, keep);
    ReachesKeeps(a, b, keep);
    ReachesKeeps(b, u, keep);
    LaterTrans(s, t, a);
  }

  lemma MadeIsPossible(s: Server)
    ensures forall m :: Made(s, m) ==> m in Possible(s) && m in s.makers.Values
  {
  }

  lemma Smaller(s: set<nat>, t: set<nat>)
    requires s <= t
    ensures |s| <= |t| && (s != t ==> |s| < |t|)
  {
    if s != t {
      assert t == s + (t - s);
    }
  }

  lemma FewerLeft(p: set<nat>, q: set<nat>, known: set<nat>, more: set<nat>)
    requires q <= p && known <= more
    ensures |q - more| <= |p - known|
  {
    Smaller(q - more, p - known);
  }

  lemma OneMore(recorded: seq<nat>, requests: seq<nat>, p: set<nat>)
    requires exists m :: m in requests && m !in recorded && m in p
    ensures |p - (Members(recorded) + Members(requests))| < |p - Members(recorded)|
  {
    var m :| m in requests && m !in recorded && m in p;
    assert m in p - Members(recorded) && m !in p - (Members(recorded) + Members(requests));
    Smaller(p - (Members(recorded) + Members(requests)), p - Members(recorded));
  }

  lemma {:induction false} WhenAcknowledged(log: seq<Event>, m: nat) returns (i: nat)
    requires m in Acknowledged(log)
    ensures i < |log| && log[i].Reported? && log[i].acknowledged && m in log[i].seen.requests
  {
    var e := log[|log| - 1];
    if e.Reported? && e.acknowledged && m in e.seen.requests {
      i := |log| - 1;
    } else {
      i := WhenAcknowledged(log[..|log| - 1], m);
    }
  }

  /** At the server, over a whole chain and in whatever state it is while the log
      stands: a marked Job that is named by a delete, being deleted or gone carries
      a marker from an observation Control acknowledged before, unless it was
      touched when the chain began. */
  lemma DeletedWasAcknowledged(s: Server, t: Server, asked: set<nat>, log: seq<Event>, found: set<nat>, recorded: seq<nat>, u: nat)
    returns (j: nat)
    requires Sound(s) && Holds(s, asked, log, found) && Members(recorded) == Acknowledged(log)
    requires Reaches(s, t, Protect(s, recorded))
    requires u in t.makers && t.makers[u] != 0 && u !in found && !Untouched(t, u)
    ensures j < |log| && log[j].Reported? && log[j].acknowledged && t.makers[u] in log[j].seen.requests
  {
    HoldsMove(s, t, asked, log, found, recorded);
    j := WhenAcknowledged(log, t.makers[u]);
  }

  /** And what this chain itself asked to delete was acknowledged before it asked. */
  lemma AskedWasAcknowledged(log: seq<Event>, makers: map<nat, nat>, i: nat, u: nat) returns (j: nat)
    requires Right(log, makers) && i < |log| && log[i].Deleted? && u in log[i].asked
    ensures u in makers
    ensures makers[u] != 0 ==>
              j < i && log[j].Reported? && log[j].acknowledged && makers[u] in log[j].seen.requests
  {
    assert May(log[..i], log[i], makers);
    j := 0;
    if makers[u] != 0 {
      j := WhenAcknowledged(log[..i], makers[u]);
    }
  }

  lemma {:induction false} WhenOwed(log: seq<Event>) returns (j: nat)
    requires Owed(log)
    ensures j < |log| && log[j].KeyEmpty?
    ensures forall k :: j < k < |log| ==> !log[k].KeyEmpty? && !(log[k].Confirmed? && log[k].settled)
  {
    var n := |log| - 1;
    if log[n].KeyEmpty? {
      j := n;
    } else {
      j := WhenOwed(log[..n]);
      assert forall k :: 0 <= k < n ==> log[..n][k] == log[k];
    }
  }

  lemma {:induction false} OwedUntilSettled(log: seq<Event>, j: nat)
    requires j < |log| && log[j].KeyEmpty?
    requires forall k :: j < k < |log| ==> !(log[k].Confirmed? && log[k].settled)
    ensures Owed(log)
  {
    var n := |log| - 1;
    if j < n {
      OwedUntilSettled(log[..n], j);
    }
  }

  /** A confirmation is sent only after a delete observed the key empty, with
      nothing but unsettled confirmations in between; it names a Job an
      acknowledged observation named. */
  lemma ConfirmedAfterEmpty(log: seq<Event>, makers: map<nat, nat>, i: nat) returns (j: nat)
    requires Right(log, makers) && i < |log| && log[i].Confirmed?
    ensures j < i && log[j].KeyEmpty? && log[j].a.job.None? && log[j].b.pods == [] && Later(log[j].a, log[j].b)
    ensures forall k :: j < k < i ==> log[k].Confirmed? && !log[k].settled
    ensures log[i].job.Some? ==> Names(log[..i], log[i].job.value)
  {
    assert May(log[..i], log[i], makers);
    j := WhenOwed(log[..i]);
    assert log[..i][j] == log[j] && May(log[..j], log[j], makers);
    forall k | j < k < i ensures log[k].Confirmed? && !log[k].settled {
      assert log[..i][k] == log[k];
      forall l | j < l < k ensures !(log[..k][l].Confirmed? && log[..k][l].settled) {
        assert log[..i][l] == log[l];
      }
      OwedUntilSettled(log[..k], j);
      assert May(log[..k], log[k], makers);
    }
  }

  /** And it stays owed, through failed submissions and rounds, until Control
      settles the finding: the next event is a confirmation again. */
  lemma OwedStopIsConfirmedNext(log: seq<Event>, makers: map<nat, nat>, j: nat, i: nat)
    requires Right(log, makers) && j < i < |log| && log[j].KeyEmpty?
    requires forall k :: j < k < i ==> !(log[k].Confirmed? && log[k].settled)
    ensures log[i].Confirmed?
  {
    assert forall k :: 0 <= k < i ==> log[..i][k] == log[k];
    OwedUntilSettled(log[..i], j);
    assert May(log[..i], log[i], makers);
  }

  /** Across failed submissions, rounds and continuations, whose logs only grow: a
      stop owed in the log of an earlier moment is still owed later or was settled
      in between, and until then nothing happened but confirmations of it. */
  lemma OwedAcrossRounds(earlier: seq<Event>, log: seq<Event>, makers: map<nat, nat>)
    requires Right(log, makers) && earlier <= log && Owed(earlier)
    ensures Owed(log) || SettledIn(log, |earlier|)
    ensures forall i :: |earlier| <= i < |log| && (forall k :: |earlier| <= k < i ==> !(log[k].Confirmed? && log[k].settled)) ==>
              log[i].Confirmed?
  {
    var j := WhenOwed(earlier);
    assert forall k :: 0 <= k < |earlier| ==> log[k] == earlier[k];
    if !SettledIn(log, |earlier|) {
      OwedUntilSettled(log, j);
    }
    forall i | |earlier| <= i < |log| && forall k :: |earlier| <= k < i ==> !(log[k].Confirmed? && log[k].settled)
      ensures log[i].Confirmed?
    {
      OwedStopIsConfirmedNext(log, makers, j, i);
    }
  }

  /** Some run of the environment shows a Job under the key. */
  ghost predicate MayFill(s: Server) {
    exists es :: Allowed(s, es, {}) && After(s, es, {}).job.Some?
  }

  /** What an empty key proves, and what it does not: the key can show a Job
      again exactly when some request could still commit. */
  lemma EmptyKeyMayFillAgain(s: Server)
    requires Sound(s) && s.job.None?
    ensures MayFill(s) <==> exists r :: MayCommit(s, r)
  {
    if r :| MayCommit(s, r) {
      var es := [Commit(r)];
      assert es[1..] == [] && Allowed(s, es, {});
      assert After(s, es, {}) == After(Apply(s, es[0], {}), [], {});
    }
    if MayFill(s) {
      var es :| Allowed(s, es, {}) && After(s, es, {}).job.Some?;
      RunKeeps(s, es, {});
      var t := After(s, es, {});
      assert t.job.value.uid in t.makers;
      assert MayCommit(s, t.makers[t.job.value.uid]);
    }
  }

  /** With no request open when the Job was read, the empty key is final. */
  lemma EmptyKeyIsFinal(log: seq<Event>, makers: map<nat, nat>, i: nat, s: Server)
    requires Right(log, makers) && i < |log| && log[i].KeyEmpty?
    requires Sound(log[i].a) && Sound(log[i].b) && Sound(s) && Later(log[i].b, s)
    requires forall r :: r in log[i].a.inflight ==> !MayCommit(log[i].a, r)
    ensures Stopped(s)
  {
    assert May(log[..i], log[i], makers);
    AbsenceIsFinal(log[i].a, log[i].b, s);
  }
}
