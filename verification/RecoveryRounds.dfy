/** The RecoveryWorkflow: rounds that list the findings, advance them, settle
    their launches and evaluate the gate, either in one loop or one round per run,
    each run continuing as the next. */
module RecoveryRounds {
  import opened Wrappers
  import opened ApiServer
  import opened LaunchRun
  import opened LaunchSettlement
  import F = RecoveryFindings

  /** What a round starts with; also what one run hands the next. */
  datatype RoundState = RoundState(round: nat, start: Time, interval: Time, ledgers: map<nat, LedgerCarry>)

  /** What the world answered during one round: the ledgers the round left, the
      gate's evaluation and when it answered, and the timer. */
  datatype Answer = Answer(ledgers: map<nat, LedgerCarry>, evaluation: F.Evaluation, evaluated: Time, canceled: bool, woke: Time)

  datatype Outcome = Goes(next: RoundState) | Reopens | Refusal | GivesUp | SleepCanceled

  function Initial(now: Time, b: Bounds): RoundState {
    RoundState(1, now, b.reconcileInitial, map[])
  }

  /** What one round of the single loop leads to. */
  function Next(s: RoundState, a: Answer, b: Bounds): Outcome {
    if a.evaluation.Refused? then Refusal
    else if a.evaluation.Reopened? then Reopens
    else if a.evaluated - s.start + s.interval > b.reconcileDuration then GivesUp
    else if a.canceled then SleepCanceled
    else Goes(RoundState(s.round + 1, s.start, Doubled(s.interval, b.reconcileMax), a.ledgers))
  }

  /** The rounds of the single loop, each following from the answers of the one
      before. */
  ghost predicate Rounds(states: seq<RoundState>, answers: seq<Answer>, b: Bounds) {
    && |states| == |answers| > 0
    && forall i :: 0 <= i < |states| - 1 ==> Follows(states, answers, i, b)
  }

  ghost predicate Follows(states: seq<RoundState>, answers: seq<Answer>, i: nat, b: Bounds)
    requires |states| == |answers| && i + 1 < |states|
  {
    Next(states[i], answers[i], b) == Goes(states[i + 1])
  }

  /** Time moves on through the rounds, and a timer wakes no earlier than due. */
  ghost predicate InTime(states: seq<RoundState>, answers: seq<Answer>, from: Time, until: Time) {
    && |states| == |answers|
    && (forall i :: 0 <= i < |answers| ==> from <= answers[i].evaluated <= until)
    && (forall i :: 0 <= i < |answers| - 1 ==> Waited(states, answers, i))
  }

  ghost predicate Waited(states: seq<RoundState>, answers: seq<Answer>, i: nat)
    requires |states| == |answers| && i + 1 < |states|
  {
    answers[i].evaluated + states[i].interval <= answers[i].woke <= answers[i + 1].evaluated
  }

  function Last(states: seq<RoundState>, answers: seq<Answer>, b: Bounds): Outcome
    requires |states| == |answers| > 0
  {
    Next(states[|states| - 1], answers[|answers| - 1], b)
  }

  lemma RoundsJoin(states: seq<RoundState>, answers: seq<Answer>, more: seq<RoundState>, others: seq<Answer>,
                   b: Bounds, from: Time, mid: Time, until: Time)
    requires Rounds(states, answers, b) && Rounds(more, others, b) && Last(states, answers, b) == Goes(more[0])
    requires InTime(states, answers, from, mid) && InTime(more, others, mid, until) && from <= mid <= until
    requires answers[|answers| - 1].evaluated + states[|states| - 1].interval <= answers[|answers| - 1].woke <= mid
    ensures Rounds(states + more, answers + others, b) && InTime(states + more, answers + others, from, until)
    ensures Last(states + more, answers + others, b) == Last(more, others, b)
  {
    var all, every := states + more, answers + others;
    var n := |states|;
    forall i | 0 <= i < |all| - 1 ensures Follows(all, every, i, b) && Waited(all, every, i) {
      if i < n - 1 {
        assert Follows(states, answers, i, b) && Waited(states, answers, i);
      } else if i >= n {
        assert Follows(more, others, i - n, b) && Waited(more, others, i - n);
      }
    }
  }

  type Logs = map<nat, seq<LaunchSettlement.Event>>

  /** What some rounds did to the ledgers and to the logs of the launches: logs only
      grew, recorded markers stayed, and a pending stop is still pending for the
      same Job unless Control settled the finding. */
  ghost predicate Moved(before: map<nat, LedgerCarry>, logs: Logs, after: map<nat, LedgerCarry>, longer: Logs) {
    && before.Keys <= after.Keys && logs.Keys == longer.Keys
    && forall i :: i in logs ==> Progressed(CarryOf(before, i), logs[i], CarryOf(after, i), longer[i])
  }

  lemma MovedSelf(before: map<nat, LedgerCarry>, logs: Logs)
    ensures Moved(before, logs, before, logs)
  {
  }

  lemma MovedAt(before: map<nat, LedgerCarry>, logs: Logs, after: map<nat, LedgerCarry>, longer: Logs, id: nat)
    requires Moved(before, logs, after, longer) && id in logs
    ensures id in longer && |logs[id]| <= |longer[id]|
  {
    assert Progressed(CarryOf(before, id), logs[id], CarryOf(after, id), longer[id]);
  }

  lemma MovedTrans(a: map<nat, LedgerCarry>, k: Logs, b: map<nat, LedgerCarry>, l: Logs, c: map<nat, LedgerCarry>, m: Logs)
    requires Moved(a, k, b, l) && Moved(b, l, c, m)
    ensures Moved(a, k, c, m)
  {
    hide Progressed;
    forall i | i in k ensures Progressed(CarryOf(a, i), k[i], CarryOf(c, i), m[i]) {
      ProgressedTrans(CarryOf(a, i), k[i], CarryOf(b, i), l[i], CarryOf(c, i), m[i]);
    }
  }

  lemma MovedAlike(before: map<nat, LedgerCarry>, after: map<nat, LedgerCarry>, logs: Logs)
    requires before.Keys <= after.Keys && forall i :: CarryOf(after, i) == CarryOf(before, i)
    ensures Moved(before, logs, after, logs)
  {
  }

  lemma MovedAtOne(before: map<nat, LedgerCarry>, logs: Logs, id: nat, c: LedgerCarry, log: seq<LaunchSettlement.Event>)
    requires id in logs && id in before && Progressed(before[id], logs[id], c, log)
    ensures Moved(before, logs, before[id := c], logs[id := log])
  {
  }

  /** Each round moved the ledgers it started with; histories are the logs after
      each round. */
  ghost predicate Evidential(states: seq<RoundState>, answers: seq<Answer>, histories: seq<Logs>, logs: Logs) {
    && |states| == |answers| == |histories|
    && forall i :: 0 <= i < |states| ==> MovedIn(states, answers, histories, logs, i)
  }

  ghost predicate MovedIn(states: seq<RoundState>, answers: seq<Answer>, histories: seq<Logs>, logs: Logs, i: nat)
    requires |states| == |answers| == |histories| && i < |states|
  {
    Moved(states[i].ledgers, LogsBefore(histories, logs, i), answers[i].ledgers, histories[i])
  }

  function LogsBefore(histories: seq<Logs>, logs: Logs, i: nat): Logs
    requires i <= |histories|
  {
    if i == 0 then logs else histories[i - 1]
  }

  lemma EvidentialJoin(states: seq<RoundState>, answers: seq<Answer>, histories: seq<Logs>, logs: Logs,
                       more: seq<RoundState>, others: seq<Answer>, rest: seq<Logs>)
    requires Evidential(states, answers, histories, logs) && |histories| > 0
    requires Evidential(more, others, rest, histories[|histories| - 1])
    ensures Evidential(states + more, answers + others, histories + rest, logs)
  {
    hide Moved;
    var n := |states|;
    var ss, every, hs := states + more, answers + others, histories + rest;
    forall i | 0 <= i < |ss| ensures MovedIn(ss, every, hs, logs, i) {
      if i < n {
        assert MovedIn(states, answers, histories, logs, i);
      } else {
        assert MovedIn(more, others, rest, histories[n - 1], i - n);
      }
    }
  }

  lemma EvidentialOne(state: RoundState, answer: Answer, history: Logs, logs: Logs)
    requires Moved(state.ledgers, logs, answer.ledgers, history)
    ensures Evidential([state], [answer], [history], logs)
  {
  }

  /** Over all rounds of a chain, however it was split into runs: no recorded marker
      is lost, and a stop pending before the first round is still pending after the
      last or was settled. */
  lemma {:induction false} EvidenceSurvives(states: seq<RoundState>, answers: seq<Answer>, histories: seq<Logs>, logs: Logs, b: Bounds)
    requires Rounds(states, answers, b) && Evidential(states, answers, histories, logs)
    ensures var n := |states| - 1; Moved(states[0].ledgers, logs, answers[n].ledgers, histories[n])
    decreases |states|
  {
    hide Moved;
    var n := |states| - 1;
    assert MovedIn(states, answers, histories, logs, n);
    if n > 0 {
      RoundsPrefix(states, answers, b);
      forall i | 0 <= i < n ensures MovedIn(states[..n], answers[..n], histories[..n], logs, i) {
        assert MovedIn(states, answers, histories, logs, i);
      }
      EvidenceSurvives(states[..n], answers[..n], histories[..n], logs, b);
      MovedTrans(states[0].ledgers, logs, answers[n - 1].ledgers, histories[n - 1], answers[n].ledgers, histories[n]);
    }
  }

  /** Rounds of the single loop in time, on one evidence, so far. */
  ghost predicate Trip(states: seq<RoundState>, answers: seq<Answer>, histories: seq<Logs>, b: Bounds, from: Time, until: Time,
                       logs: Logs, now: Logs) {
    && Rounds(states, answers, b) && InTime(states, answers, from, until)
    && Evidential(states, answers, histories, logs) && histories[|histories| - 1] == now
  }

  lemma TripOne(state: RoundState, answer: Answer, b: Bounds, from: Time, until: Time, logs: Logs, now: Logs)
    requires from <= answer.evaluated <= until && Moved(state.ledgers, logs, answer.ledgers, now)
    ensures Trip([state], [answer], [now], b, from, until, logs, now)
  {
    hide Moved;
    OneRound(state, answer, b, from, until);
    EvidentialOne(state, answer, now, logs);
  }

  /** Where the trip leads, and that its last timer woke when due. */
  ghost predicate Leads(states: seq<RoundState>, answers: seq<Answer>, b: Bounds, next: RoundState, now: Time) {
    && |states| == |answers| > 0 && Last(states, answers, b) == Goes(next)
    && answers[|answers| - 1].evaluated + states[|states| - 1].interval <= answers[|answers| - 1].woke <= now
  }

  lemma TripJoin(states: seq<RoundState>, answers: seq<Answer>, histories: seq<Logs>,
                 more: seq<RoundState>, others: seq<Answer>, rest: seq<Logs>,
                 b: Bounds, from: Time, mid: Time, until: Time, logs: Logs, joint: Logs, now: Logs)
    requires Trip(states, answers, histories, b, from, mid, logs, joint) && from <= mid <= until
    requires Trip(more, others, rest, b, mid, until, joint, now) && Leads(states, answers, b, more[0], mid)
    ensures Trip(states + more, answers + others, histories + rest, b, from, until, logs, now)
    ensures states + more != [] && (states + more)[0] == states[0]
    ensures Last(states + more, answers + others, b) == Last(more, others, b)
    ensures forall next :: Leads(more, others, b, next, until) ==> Leads(states + more, answers + others, b, next, until)
  {
    RoundsJoin(states, answers, more, others, b, from, mid, until);
    EvidentialJoin(states, answers, histories, logs, more, others, rest);
    hide Rounds, InTime, Evidential;
  }

  lemma ReadTrip(states: seq<RoundState>, answers: seq<Answer>, histories: seq<Logs>, b: Bounds, from: Time, until: Time,
                 logs: Logs, now: Logs)
    requires Trip(states, answers, histories, b, from, until, logs, now)
    ensures |states| == |answers| == |histories| > 0 && from <= answers[|answers| - 1].evaluated
  {
  }

  /** The gate's evaluations, round by round. */
  function EvaluationsOf(answers: seq<Answer>): seq<F.Evaluation> {
    seq(|answers|, i requires 0 <= i < |answers| => answers[i].evaluation)
  }

  lemma EvaluationsOne(answer: Answer)
    ensures EvaluationsOf([answer]) == [answer.evaluation]
  {
  }

  lemma EvaluationsJoin(answers: seq<Answer>, others: seq<Answer>)
    ensures EvaluationsOf(answers + others) == EvaluationsOf(answers) + EvaluationsOf(others)
  {
  }

  /** A ledger survives the continuation, whatever it holds. */
  method RestoreLedgers(carried: map<nat, LedgerCarry>) returns (out: map<nat, LaunchLedger>)
    ensures out.Keys == carried.Keys
    ensures forall i :: i in out ==> fresh(out[i]) && out[i].finding == i && out[i].View() == carried[i]
  {
    out := map[];
    var left := carried.Keys;
    while left != {}
      invariant out.Keys == carried.Keys - left && left <= carried.Keys
      invariant forall i :: i in out ==> fresh(out[i]) && out[i].finding == i && out[i].View() == carried[i]
    {
      var id :| id in left;
      var ledger := new LaunchLedger(id, carried[id]);
      out := out[id := ledger];
      left := left - {id};
    }
  }

  /** Each site's objects are its own finding's. */
  ghost predicate Apart(sites: map<nat, Site>, footprint: set<object>) {
    && (forall i :: i in sites ==> Owned(sites[i], i, footprint))
    && (forall o :: o in footprint ==> !(o is LaunchLedger) && !(o is Recovery) && !(o is F.Control))
  }

  ghost predicate Owned(site: Site, id: nat, footprint: set<object>) {
    && site in footprint && site.client in footprint && site.cluster in footprint && site.port in footprint
    && site.finding == id && site.port.finding == id && site.cluster.key == id && site.client.cluster == site.cluster
  }

  function CarryOf(ledgers: map<nat, LedgerCarry>, id: nat): LedgerCarry {
    if id in ledgers then ledgers[id] else EMPTY
  }

  ghost predicate SiteAt(site: Site, c: LedgerCarry, log: seq<LaunchSettlement.Event>)
    reads site, site.client, site.cluster, site.port
  {
    site.Settling(c) && site.log == log
  }

  class Recovery {
    /** The launch findings whose launch key Control knows. */
    const sites: map<nat, Site>
    const control: F.Control
    const bounds: Bounds
    var ledgers: map<nat, LaunchLedger>
    var now: Time
    /** The sites' objects, and the ledgers this run created. */
    ghost const footprint: set<object>
    ghost var books: set<LaunchLedger>
    /** The values of the ledgers, and the logs of the launches. */
    ghost var carried: map<nat, LedgerCarry>
    ghost var logs: Logs

    constructor (sites: map<nat, Site>, ghost footprint: set<object>, control: F.Control, bounds: Bounds, now: Time)
      ensures this.sites == sites && this.control == control && this.bounds == bounds && this.now == now && ledgers == map[]
      ensures this.footprint == footprint && books == {} && carried == map[]
      ensures logs.Keys == sites.Keys && forall i :: i in sites ==> logs[i] == sites[i].log
    {
      this.sites, this.control, this.bounds, this.now := sites, control, bounds, now;
      ledgers := map[];
      this.footprint, books, carried, logs := footprint, {}, map[], map i | i in sites :: sites[i].log;
    }

    function View(): map<nat, LedgerCarry>
      reads this, set i | i in ledgers :: ledgers[i]
    {
      map i | i in ledgers :: ledgers[i].View()
    }

    /** Every launch finding is settled under its ledger, and its log is known. */
    ghost predicate Sites(carry: map<nat, LedgerCarry>)
      reads this`logs, footprint
    {
      && Apart(sites, footprint) && carry.Keys <= sites.Keys && control.pageSize > 0 && logs.Keys == sites.Keys
      && forall i :: i in sites ==> SiteAt(sites[i], CarryOf(carry, i), logs[i])
    }

    ghost predicate Booked()
      reads this`ledgers, this`books, this`carried, books
    {
      && carried.Keys == ledgers.Keys
      && (forall i :: i in ledgers ==> ledgers[i] in books && ledgers[i].finding == i && ledgers[i].View() == carried[i])
    }

    ghost predicate Valid()
      reads this`ledgers, this`books, this`carried, this`logs, footprint, books
    {
      Sites(carried) && Booked()
    }

    /** A launch finding that Control could not settle from its records gets the
        launcher's evidence. */
    method SettleFinding(f: F.Finding) returns (ok: bool)
      requires Valid()
      modifies this`ledgers, this`books, this`carried, this`logs, footprint, books
      ensures Valid() && fresh(books - old(books)) && Moved(old(carried), old(logs), carried, logs)
      // An unsettled launch finding gets evidence reported, or its stop confirmed.
      ensures !f.settled && f.launch && f.id in sites ==> f.id in ledgers
      ensures Attended([f], old(logs), logs)
    {
      hide Sites, Booked, Moved;
      MovedSelf(carried, logs);
      KnownLogs();
      if f.settled || !f.launch || f.id !in sites {
        return true;
      }
      if f.id !in ledgers {
        AddLedger(f.id);
      }
      ghost var ledgers0, logs0 := carried, logs;
      ok := SettleAt(f.id);
      MovedTrans(old(carried), old(logs), ledgers0, logs0, carried, logs);
      MovedAt(old(carried), old(logs), ledgers0, logs0, f.id);
    }

    lemma KnownLogs()
      requires Valid()
      ensures logs.Keys == sites.Keys && this !in footprint && control !in footprint && control.pageSize > 0
      ensures carried.Keys == ledgers.Keys <= sites.Keys
    {
    }

    /** A finding that was never settled gets an empty ledger. */
    method AddLedger(id: nat)
      requires Valid() && id in sites && id !in ledgers
      modifies this`ledgers, this`books, this`carried, this`logs
      ensures Valid() && fresh(books - old(books)) && id in ledgers && Moved(old(carried), old(logs), carried, logs)
    {
      hide SiteAt, Apart, Moved;
      var ledger := new LaunchLedger(id, EMPTY);
      MovedAlike(carried, carried[id := EMPTY], logs);
      ledgers, books := ledgers[id := ledger], books + {ledger};
      Note(carried[id := EMPTY], logs);
    }

    method SettleAt(id: nat) returns (ok: bool)
      requires Valid() && id in ledgers
      modifies books, footprint, this`carried, this`logs
      ensures Valid() && Moved(old(carried), old(logs), carried, logs)
      ensures id in logs && id in old(logs) && |logs[id]| > |old(logs[id])|
    {
      hide Site.Settling, Progressed, Moved;
      var attempts: nat :| true;
      var deletes;
      assert SiteAt(sites[id], ledgers[id].View(), logs[id]) && sites[id].log == logs[id] && carried[id] == ledgers[id].View();
      ok, deletes := sites[id].SettleLaunch(ledgers[id], attempts);
      ghost var c, log := ledgers[id].View(), sites[id].log;
      assert SiteAt(sites[id], c, log);
      hide SiteAt;
      MovedAtOne(carried, logs, id, c, log);
      forall j | j in sites ensures SiteAt(sites[j], CarryOf(carried[id := c], j), logs[id := log][j]) {
        assert Owned(sites[j], j, footprint) && Owned(sites[id], id, footprint);
      }
      Note(carried[id := c], logs[id := log]);
    }

    /** The ledgers and logs as they are now. */
    ghost method Note(more: map<nat, LedgerCarry>, longer: Logs)
      requires Apart(sites, footprint) && ledgers.Keys <= sites.Keys && control.pageSize > 0
      requires longer.Keys == sites.Keys && more.Keys == ledgers.Keys
      requires forall i :: i in sites ==> SiteAt(sites[i], CarryOf(more, i), longer[i])
      requires forall i :: i in ledgers ==> ledgers[i] in books && ledgers[i].finding == i && ledgers[i].View() == more[i]
      modifies this`carried, this`logs
      ensures Valid() && carried == more && logs == longer
    {
      hide SiteAt;
      NotAmong();
      hide Apart;
      carried, logs := more, longer;
    }

    lemma NotAmong()
      requires Apart(sites, footprint)
      ensures this !in footprint && control !in footprint
    {
    }

    /** Advances the unsettled findings of one page: in one call, or one by one. */
    method AdvancePage(page: F.Page, batched: bool) returns (advanced: seq<F.Finding>, ok: bool, ghost calls: seq<seq<nat>>)
      modifies control`submitted, control`reconciled
      ensures control.submitted == old(control.submitted) + calls
      ensures F.Joined(calls) == F.UnsettledIds(page.findings)
      ensures batched ==> calls == F.CallsOf([page])
      ensures old(control.reconciled) <= control.reconciled
      ensures Answered(advanced, control.reconciled)
      ensures ok ==> forall id :: id in F.UnsettledIds(page.findings) ==> Has(advanced, id)
    {
      hide F.UnsettledIds, F.Joined, F.CallsOf, Has, Answered;
      var ids := UnsettledOf(page.findings);
      F.CallsPush([], page);
      NothingListed();
      assert [] + [page] == [page];
      if batched {
        advanced, ok, calls := AdvanceAll(ids);
      } else {
        advanced, ok, calls := AdvanceEach(ids);
      }
    }

    /** The findings of a page that are not settled. */
    method UnsettledOf(findings: seq<F.Finding>) returns (ids: seq<nat>)
      ensures ids == F.UnsettledIds(findings)
    {
      ids := [];
      var i := |findings|;
      while i > 0
        invariant 0 <= i <= |findings| && ids == F.UnsettledIds(findings[i..])
      {
        i := i - 1;
        assert findings[i..][1..] == findings[i + 1..];
        if !findings[i].settled {
          ids := [findings[i].id] + ids;
        }
      }
      assert findings[0..] == findings;
    }

    /** One call for the whole page. */
    method AdvanceAll(ids: seq<nat>) returns (advanced: seq<F.Finding>, ok: bool, ghost calls: seq<seq<nat>>)
      modifies control`submitted, control`reconciled
      ensures control.submitted == old(control.submitted) + calls
      ensures F.Joined(calls) == ids && calls == if ids == [] then [] else [ids]
      ensures old(control.reconciled) <= control.reconciled && Answered(advanced, control.reconciled)
      ensures ok ==> forall id :: id in ids ==> Has(advanced, id)
    {
      advanced, ok, calls := [], true, [];
      if ids != [] {
        calls := [ids];
        F.JoinedPush([], ids);
        var r, answers, canceled := F.ReconcileFindings(control, ids);
        var lost: bool := *;
        if r.Err? || lost {
          ok := false;
        } else {
          ok := r.value.failures == map[];
          advanced := r.value.findings;
          PageAnswered(ids, answers, r.value, old(control.reconciled), control.reconciled);
        }
      }
    }

    /** One call for each finding. */
    method AdvanceEach(ids: seq<nat>) returns (advanced: seq<F.Finding>, ok: bool, ghost calls: seq<seq<nat>>)
      modifies control`submitted, control`reconciled
      ensures control.submitted == old(control.submitted) + calls && F.Joined(calls) == ids
      ensures old(control.reconciled) <= control.reconciled && Answered(advanced, control.reconciled)
      ensures ok ==> forall id :: id in ids ==> Has(advanced, id)
    {
      hide F.Joined;
      NothingListed();
      advanced, ok, calls := [], true, [];
      var k := 0;
      while k < |ids|
        invariant k <= |ids| && F.Joined(calls) == ids[..k]
        invariant control.submitted == old(control.submitted) + calls
        invariant old(control.reconciled) <= control.reconciled && Answered(advanced, control.reconciled)
        invariant ok ==> forall id :: id in ids[..k] ==> Has(advanced, id)
      {
        F.JoinedPush(calls, [ids[k]]);
        assert ids[..k + 1] == ids[..k] + [ids[k]];
        calls := calls + [[ids[k]]];
        ghost var before := control.reconciled;
        var r := F.ReconcileOne(control, ids[k]);
        AnsweredMore(advanced, before, ids[k], r);
        if r.Failed? {
          ok := false;
        } else {
          HasMore(advanced, r.finding);
          advanced := advanced + [r.finding];
        }
        k := k + 1;
      }
      assert ids[..k] == ids;
    }

    /** One pass over all findings. When the listing succeeds, every finding was
        listed and every one that was not settled was submitted to Control, whatever
        happened to the others; every finding Control advanced without settling it
        got its launch settled, and when nothing failed that is all of them. */
    method Reconcile(batched: bool) returns (ok: bool, listed: bool, ghost pages: seq<F.Page>, ghost calls: seq<seq<nat>>, ghost attended: seq<F.Finding>)
      requires Valid()
      modifies this`ledgers, this`books, this`carried, this`logs, footprint, books, control`listed, control`unlisted, control`submitted, control`reconciled
      ensures Valid() && fresh(books - old(books))
      ensures Moved(old(carried), old(logs), carried, logs)
      ensures control.listed == old(control.listed) + pages && control.submitted == old(control.submitted) + calls
      ensures if listed then F.Ids(F.Listed(pages)) == control.ids else control.unlisted > old(control.unlisted)
      ensures Walked(pages, calls, attended, ok, batched, control.reconciled, old(logs), logs)
    {
      KnownLogs();
      hide Valid, F.Listed, F.Ids, Moved, Walked;
      ok, listed, pages, calls, attended := true, false, [], [], [];
      var cursor: nat, more := 0, true;
      NothingListed();
      NothingWalked(batched, control.reconciled, logs);
      MovedSelf(carried, logs);
      while more
        invariant Valid() && fresh(books - old(books)) && cursor <= |control.ids|
        invariant Moved(old(carried), old(logs), carried, logs)
        invariant control.listed == old(control.listed) + pages && control.submitted == old(control.submitted) + calls
        invariant F.Ids(F.Listed(pages)) == control.ids[..cursor] && (listed ==> cursor == |control.ids|)
        invariant control.unlisted >= old(control.unlisted) && (!more && !listed ==> control.unlisted > old(control.unlisted))
        invariant Walked(pages, calls, attended, ok, batched, control.reconciled, old(logs), logs)
        decreases more, |control.ids| - cursor
      {
        ghost var ledgers0, logs0, known := carried, logs, control.reconciled;
        var page, done;
        ghost var made, advanced;
        page, done, made, advanced := WalkPage(cursor, batched);
        if page.Err? {
          WalkedOn(pages, calls, attended, ok, batched, known, old(logs), logs);
          ok, more := false, false;
        } else {
          WalkedPush(pages, calls, attended, ok, batched, known, old(logs), page.value, made, advanced, done, control.reconciled,
                     old(carried), ledgers0, logs0, carried, logs);
          MovedTrans(old(carried), old(logs), ledgers0, logs0, carried, logs);
          ListedMore(control.ids, pages, page.value, cursor);
          pages, calls, attended := pages + [page.value], calls + made, attended + advanced;
          ok, cursor, listed, more := ok && done, page.value.next, page.value.complete, !page.value.complete;
        }
      }
    }

    /** One page: listed, advanced, and its launches settled. */
    method WalkPage(cursor: nat, batched: bool) returns (page: Result<F.Page, ()>, ok: bool, ghost calls: seq<seq<nat>>, ghost advanced: seq<F.Finding>)
      requires Valid() && cursor <= |control.ids|
      modifies this`ledgers, this`books, this`carried, this`logs, footprint, books, control`listed, control`unlisted, control`submitted, control`reconciled
      ensures Valid() && fresh(books - old(books)) && Moved(old(carried), old(logs), carried, logs)
      ensures page.Err? ==> control.listed == old(control.listed) && control.submitted == old(control.submitted)
                            && control.reconciled == old(control.reconciled) && logs == old(logs) && carried == old(carried)
      ensures control.unlisted == old(control.unlisted) + if page.Ok? then 0 else 1
      ensures page.Ok? ==>
                && control.listed == old(control.listed) + [page.value] && control.submitted == old(control.submitted) + calls
                && page.value.next == cursor + |page.value.findings| <= |control.ids|
                && F.Ids(page.value.findings) == control.ids[cursor..page.value.next]
                && (page.value.complete <==> page.value.next == |control.ids|)
                && (!page.value.complete ==> page.value.findings != [])
                && old(control.reconciled) <= control.reconciled
                && Walked([page.value], calls, advanced, ok, batched, control.reconciled, old(logs), logs)
    {
      KnownLogs();
      hide Valid, Moved, Answered, Has, Attended, Walked, F.UnsettledIds, F.Ids, F.CallsOf, F.Joined;
      MovedSelf(carried, logs);
      page := control.ListFindings(cursor);
      ok, calls, advanced := false, [], [];
      if page.Ok? {
        var found;
        found, ok, calls := AdvancePage(page.value, batched);
        advanced := found;
        ghost var done := ok;
        var settled := SettleAll(found);
        WalkedPage(page.value, calls, found, done, settled, batched, control.reconciled, old(logs), logs);
        ok := ok && settled;
      }
    }

    /** Settles the launches of the findings Control advanced. */
    method SettleAll(advanced: seq<F.Finding>) returns (ok: bool)
      requires Valid()
      modifies this`ledgers, this`books, this`carried, this`logs, footprint, books
      ensures Valid() && fresh(books - old(books))
      ensures Moved(old(carried), old(logs), carried, logs)
      ensures Attended(advanced, old(logs), logs)
    {
      hide Valid, Moved, Attended;
      ok := true;
      MovedSelf(carried, logs);
      NothingHad(logs, control.reconciled);
      var i := 0;
      while i < |advanced|
        invariant i <= |advanced| && Valid() && fresh(books - old(books))
        invariant Moved(old(carried), old(logs), carried, logs)
        invariant Attended(advanced[..i], old(logs), logs)
      {
        ghost var ledgers0, logs0 := carried, logs;
        var settled := SettleFinding(advanced[i]);
        assert advanced[..i + 1] == advanced[..i] + [advanced[i]];
        AttendedJoin(advanced[..i], [advanced[i]], old(carried), old(logs), ledgers0, logs0, carried, logs);
        MovedTrans(old(carried), old(logs), ledgers0, logs0, carried, logs);
        ok := ok && settled;
        i := i + 1;
      }
      assert advanced[..i] == advanced;
    }

    /** One round: the findings and the gate. Findings are advanced only after every
        class was enumerated completely, and then as Reconcile says: unless a listing
        was not answered, every finding was listed, and every unsettled one submitted. */
    method Round(batched: bool) returns (evaluation: F.Evaluation, ghost pages: seq<F.Page>, ghost calls: seq<seq<nat>>)
      requires Valid()
      modifies this, footprint, books, control
      ensures Valid() && fresh(books - old(books)) && now >= old(now)
      ensures Moved(old(carried), old(logs), carried, logs)
      ensures control.evaluations == old(control.evaluations) + [evaluation]
      ensures exists complete :: control.enumerations == old(control.enumerations) + [complete] && (!complete ==> pages == [] && calls == [])
      ensures control.listed == old(control.listed) + pages && control.submitted == old(control.submitted) + calls
      ensures control.enumerations[|old(control.enumerations)|] && control.unlisted == old(control.unlisted) ==>
                F.Ids(F.Listed(pages)) == control.ids
      ensures F.Joined(calls) == F.UnsettledIds(F.Listed(pages)) && (batched ==> calls == F.CallsOf(pages))
    {
      KnownLogs();
      hide Valid, Moved, F.Joined, F.UnsettledIds, F.Listed, F.Ids, F.CallsOf;
      MovedSelf(carried, logs);
      NothingListed();
      pages, calls := [], [];
      var enumerated := control.EnumerateInventory();
      if enumerated {
        pages, calls := Advance(batched);
      }
      evaluation := control.EvaluateRecovery();
      var elapsed: nat :| true;
      now := now + elapsed;
    }

    /** The round's reconciliation; what it left incomplete is the next round's. */
    method Advance(batched: bool) returns (ghost pages: seq<F.Page>, ghost calls: seq<seq<nat>>)
      requires Valid()
      modifies this`ledgers, this`books, this`carried, this`logs, footprint, books, control`listed, control`unlisted, control`submitted, control`reconciled
      ensures Valid() && fresh(books - old(books)) && Moved(old(carried), old(logs), carried, logs)
      ensures control.listed == old(control.listed) + pages && control.submitted == old(control.submitted) + calls
      ensures control.unlisted == old(control.unlisted) ==> F.Ids(F.Listed(pages)) == control.ids
      ensures F.Joined(calls) == F.UnsettledIds(F.Listed(pages)) && (batched ==> calls == F.CallsOf(pages))
    {
      hide Valid, Moved, Answered, Attended, Has, F.Joined, F.UnsettledIds, F.Ids, F.Listed, F.CallsOf;
      var ok, listed;
      ghost var attended;
      ok, listed, pages, calls, attended := Reconcile(batched);
    }

    lemma ViewIsCarried()
      requires Valid()
      ensures View() == carried && Sites(carried)
    {
    }

    /** A round and, if another one follows, its durable timer. */
    method Turn(state: RoundState, batched: bool) returns (answer: Answer)
      requires Valid()
      modifies this, footprint, books, control
      ensures Valid() && fresh(books - old(books))
      ensures Moved(old(carried), old(logs), carried, logs)
      ensures control.evaluations == old(control.evaluations) + [answer.evaluation]
      ensures answer.ledgers == carried && old(now) <= answer.evaluated <= now
      ensures Next(state, answer, bounds).Goes? ==> answer.evaluated + state.interval <= answer.woke <= now
    {
      KnownLogs();
      hide Valid, Moved;
      var evaluation;
      ghost var pages, calls;
      evaluation, pages, calls := Round(batched);
      ViewIsCarried();
      var canceled: bool := *;
      answer := Answer(View(), evaluation, now, canceled, now);
      if !evaluation.Refused? && !evaluation.Reopened? && now - state.start + state.interval <= bounds.reconcileDuration && !canceled {
        var late: nat :| true;
        now := now + (if state.interval < 0 then 0 else state.interval) + late;
        answer := answer.(woke := now);
      }
    }

    /** Starts the run's ledgers from the carried ones. */
    method Restore(carry: map<nat, LedgerCarry>)
      requires Sites(carry)
      modifies this`ledgers, this`books, this`carried, this`logs
      ensures Valid() && fresh(books) && carried == carry && logs == old(logs)
    {
      hide SiteAt, Apart;
      ledgers := RestoreLedgers(carry);
      books := set i | i in ledgers :: ledgers[i];
      Note(carry, logs);
    }

    /** One run of the Workflow: the whole loop, or one round that continues as new
        with everything the next one needs. */
    method Run(carry: Option<RoundState>, batched: bool)
      returns (outcome: Outcome, ghost states: seq<RoundState>, ghost answers: seq<Answer>, ghost histories: seq<Logs>)
      requires Sites(if batched && carry.Some? then carry.value.ledgers else map[])
      requires 0 < bounds.reconcileInitial && 0 < bounds.reconcileMax
      requires carry.Some? ==> 0 < carry.value.interval && carry.value.start <= now
      modifies this, footprint, control
      // Rounds of the single loop, in time; no evidence was lost in any of them.
      ensures Trip(states, answers, histories, bounds, old(now), now, old(logs), logs)
      ensures states[0] == if batched && carry.Some? then carry.value else Initial(old(now), bounds)
      ensures outcome == Last(states, answers, bounds) && old(now) <= now
      // Every launch is settled under the ledgers the last round left.
      ensures Sites(answers[|answers| - 1].ledgers)
      // Control's gate was evaluated once a round.
      ensures control.evaluations == old(control.evaluations) + EvaluationsOf(answers)
      ensures outcome.Goes? ==> batched && 0 < outcome.next.interval && Leads(states, answers, bounds, outcome.next, now)
      ensures batched ==> |states| == 1
    {
      hide Valid, Sites, Trip, Leads, Moved, EvaluationsOf;
      var state := Initial(now, bounds);
      if batched && carry.Some? {
        state := carry.value;
      }
      Restore(state.ledgers);
      states, answers, histories := [], [], [];
      var first := true;
      while true
        invariant Valid() && fresh(books) && carried == state.ledgers
        invariant 0 < state.interval && state.start <= now && old(now) <= now
        invariant first ==>
                    && state == (if batched && carry.Some? then carry.value else Initial(old(now), bounds))
                    && logs == old(logs) && control.evaluations == old(control.evaluations) && now == old(now)
        invariant !first ==>
                    && !batched && Trip(states, answers, histories, bounds, old(now), now, old(logs), logs)
                    && Leads(states, answers, bounds, state, now) && states != [] && states[0] == Initial(old(now), bounds)
                    && control.evaluations == old(control.evaluations) + EvaluationsOf(answers)
        decreases state.start + bounds.reconcileDuration - now
      {
        ghost var began, logs0 := now, logs;
        var answer := Turn(state, batched);
        ViewIsCarried();
        TripOne(state, answer, bounds, began, now, logs0, logs);
        EvaluationsOne(answer);
        outcome := Next(state, answer, bounds);
        OneLeads(state, answer, bounds, outcome, now);
        if first {
          states, answers, histories := [state], [answer], [logs];
        } else {
          TripJoin(states, answers, histories, [state], [answer], [logs], bounds, old(now), began, now, old(logs), logs0, logs);
          EvaluationsJoin(answers, [answer]);
          states, answers, histories := states + [state], answers + [answer], histories + [logs];
        }
        if batched || !outcome.Goes? {
          return;
        }
        first, state := false, outcome.next;
      }
    }

    /** One round per run: the chain of runs. It makes rounds of the single loop, on
        one evidence; it ends without an error exactly when the evaluation that
        Control made last said reopened. */
    method Chain() returns (outcome: Outcome, ghost states: seq<RoundState>, ghost answers: seq<Answer>, ghost histories: seq<Logs>)
      requires Sites(map[]) && 0 < bounds.reconcileInitial && 0 < bounds.reconcileMax
      modifies this, footprint, control
      ensures Trip(states, answers, histories, bounds, old(now), now, old(logs), logs)
      ensures states[0] == Initial(old(now), bounds)
      ensures outcome == Last(states, answers, bounds) && !outcome.Goes?
      ensures Sites(answers[|answers| - 1].ledgers)
      ensures Moved(map[], old(logs), answers[|answers| - 1].ledgers, logs)
      ensures control.evaluations == old(control.evaluations) + EvaluationsOf(answers)
      ensures outcome.Reopens? <==> control.evaluations[|control.evaluations| - 1].Reopened?
      ensures forall i :: 0 <= i < |answers| - 1 ==> !answers[i].evaluation.Reopened? && !answers[i].evaluation.Refused?
    {
      hide Sites, Trip, Leads, Moved, EvaluationsOf;
      outcome, states, answers, histories := Run(None, true);
      ReadTrip(states, answers, histories, bounds, old(now), now, old(logs), logs);
      ghost var start := old(now);
      TripStart(states, answers, histories, bounds, start, old(now), now, old(logs), logs);
      while outcome.Goes?
        invariant Trip(states, answers, histories, bounds, old(now), now, old(logs), logs) && |states| == |answers| == |histories| > 0
        invariant states[0] == Initial(old(now), bounds) && outcome == Last(states, answers, bounds) && old(now) <= now
        invariant Sites(answers[|answers| - 1].ledgers)
        invariant control.evaluations == old(control.evaluations) + EvaluationsOf(answers)
        invariant outcome.Goes? ==>
                    0 < outcome.next.interval && outcome.next.start == start && Leads(states, answers, bounds, outcome.next, now)
        decreases outcome.Goes?, if now < start + bounds.reconcileDuration then start + bounds.reconcileDuration - now else 0
      {
        ghost var began, logs0 := now, logs;
        var last;
        ghost var more, others, rest;
        last, more, others, rest := Run(Some(outcome.next), true);
        ReadTrip(more, others, rest, bounds, began, now, logs0, logs);
        LeadsInBound(more, others, bounds, last, began, now);
        TripJoin(states, answers, histories, more, others, rest, bounds, old(now), began, now, old(logs), logs0, logs);
        EvaluationsJoin(answers, others);
        states, answers, histories, outcome := states + more, answers + others, histories + rest, last;
        ReadTrip(states, answers, histories, bounds, old(now), now, old(logs), logs);
        TripStart(states, answers, histories, bounds, start, old(now), now, old(logs), logs);
      }
      TripEnds(states, answers, histories, bounds, old(now), now, old(logs), logs);
      LastEvaluation(answers);
    }
  }

  lemma OneLeads(state: RoundState, answer: Answer, b: Bounds, outcome: Outcome, now: Time)
    requires outcome == Next(state, answer, b)
    requires outcome.Goes? ==> answer.evaluated + state.interval <= answer.woke <= now
    ensures Last([state], [answer], b) == outcome
    ensures outcome.Goes? ==> Leads([state], [answer], b, outcome.next, now)
  {
  }

  lemma LeadsInBound(states: seq<RoundState>, answers: seq<Answer>, b: Bounds, outcome: Outcome, from: Time, now: Time)
    requires |states| == |answers| == 1 && outcome == Last(states, answers, b) && from <= answers[0].evaluated
    requires outcome.Goes? ==> Leads(states, answers, b, outcome.next, now)
    ensures outcome.Goes? ==> from + states[0].interval <= states[0].start + b.reconcileDuration && from + states[0].interval <= now
  {
  }

  lemma TripStart(states: seq<RoundState>, answers: seq<Answer>, histories: seq<Logs>, b: Bounds, start: Time, from: Time, until: Time,
                  logs: Logs, now: Logs)
    requires Trip(states, answers, histories, b, from, until, logs, now) && states[0].start == start
    ensures Last(states, answers, b).Goes? ==> Last(states, answers, b).next.start == start
  {
    RoundsStart(states, answers, b, start, from, until);
  }

  lemma TripEnds(states: seq<RoundState>, answers: seq<Answer>, histories: seq<Logs>, b: Bounds, from: Time, until: Time,
                 logs: Logs, now: Logs)
    requires Trip(states, answers, histories, b, from, until, logs, now)
    ensures Moved(states[0].ledgers, logs, answers[|answers| - 1].ledgers, now)
    ensures Last(states, answers, b).Reopens? <==> answers[|answers| - 1].evaluation.Reopened?
    ensures forall i :: 0 <= i < |answers| - 1 ==> !answers[i].evaluation.Reopened? && !answers[i].evaluation.Refused?
  {
    hide Moved;
    EvidenceSurvives(states, answers, histories, logs, b);
    EndsWhenReopened(states, answers, b);
  }

  lemma OneRound(state: RoundState, answer: Answer, b: Bounds, from: Time, until: Time)
    requires from <= answer.evaluated <= until
    ensures Rounds([state], [answer], b) && InTime([state], [answer], from, until)
  {
  }

  /** Control advanced each of these findings to what it says. */
  ghost predicate Answered(fs: seq<F.Finding>, reconciled: seq<(nat, F.Reconciled)>) {
    forall f :: f in fs ==> (f.id, F.Advanced(f)) in reconciled
  }

  ghost predicate Has(fs: seq<F.Finding>, id: nat) {
    exists f :: f in fs && f.id == id
  }

  /** Each of these that is an unsettled launch finding was settled at its site. */
  ghost predicate Attended(fs: seq<F.Finding>, before: Logs, after: Logs) {
    forall f :: f in fs && !f.settled && f.launch && f.id in before && f.id in after ==> |before[f.id]| < |after[f.id]|
  }

  /** What the pages so far came to: the calls name every unsettled finding listed,
      one call a page when batched; what Control advanced was settled, and unless
      something failed that is every unsettled finding. */
  ghost predicate Walked(pages: seq<F.Page>, calls: seq<seq<nat>>, attended: seq<F.Finding>, ok: bool, batched: bool,
                         reconciled: seq<(nat, F.Reconciled)>, before: Logs, after: Logs) {
    && F.Joined(calls) == F.UnsettledIds(F.Listed(pages))
    && (batched ==> calls == F.CallsOf(pages))
    && Answered(attended, reconciled) && Attended(attended, before, after)
    && (ok ==> forall id :: id in F.UnsettledIds(F.Listed(pages)) ==> Has(attended, id))
  }

  lemma ListedMore(ids: seq<nat>, pages: seq<F.Page>, page: F.Page, cursor: nat)
    requires cursor <= page.next <= |ids| && F.Ids(F.Listed(pages)) == ids[..cursor]
    requires F.Ids(page.findings) == ids[cursor..page.next]
    ensures F.Ids(F.Listed(pages + [page])) == ids[..page.next]
    ensures page.next == |ids| ==> F.Ids(F.Listed(pages + [page])) == ids
  {
    hide F.Listed, F.Ids;
    F.CallsPush(pages, page);
    F.UnsettledJoin(F.Listed(pages), page.findings);
    assert ids[..page.next] == ids[..cursor] + ids[cursor..page.next];
  }

  lemma WalkedPage(page: F.Page, calls: seq<seq<nat>>, advanced: seq<F.Finding>, done: bool, settled: bool, batched: bool,
                   reconciled: seq<(nat, F.Reconciled)>, before: Logs, after: Logs)
    requires F.Joined(calls) == F.UnsettledIds(page.findings) && (batched ==> calls == F.CallsOf([page]))
    requires Answered(advanced, reconciled) && Attended(advanced, before, after)
    requires done ==> forall id :: id in F.UnsettledIds(page.findings) ==> Has(advanced, id)
    ensures Walked([page], calls, advanced, done && settled, batched, reconciled, before, after)
  {
    hide F.Joined, F.UnsettledIds, F.CallsOf, Answered, Attended, Has;
    F.CallsPush([], page);
    NothingListed();
    assert [] + [page] == [page] && [] + page.findings == page.findings;
  }

  lemma NothingWalked(batched: bool, reconciled: seq<(nat, F.Reconciled)>, logs: Logs)
    ensures Walked([], [], [], true, batched, reconciled, logs, logs)
  {
    NothingListed();
    NothingHad(logs, reconciled);
  }

  lemma WalkedOn(pages: seq<F.Page>, calls: seq<seq<nat>>, attended: seq<F.Finding>, ok: bool, batched: bool,
                 reconciled: seq<(nat, F.Reconciled)>, before: Logs, after: Logs)
    requires Walked(pages, calls, attended, ok, batched, reconciled, before, after)
    ensures Walked(pages, calls, attended, false, batched, reconciled, before, after)
  {
  }

  lemma WalkedPush(pages: seq<F.Page>, calls: seq<seq<nat>>, attended: seq<F.Finding>, ok: bool, batched: bool,
                   known: seq<(nat, F.Reconciled)>, before: Logs, page: F.Page, made: seq<seq<nat>>, advanced: seq<F.Finding>,
                   done: bool, reconciled: seq<(nat, F.Reconciled)>,
                   x: map<nat, LedgerCarry>, y: map<nat, LedgerCarry>, mid: Logs, z: map<nat, LedgerCarry>, after: Logs)
    requires Walked(pages, calls, attended, ok, batched, known, before, mid)
    requires Walked([page], made, advanced, done, batched, reconciled, mid, after)
    requires known <= reconciled && Moved(x, before, y, mid) && Moved(y, mid, z, after)
    ensures Walked(pages + [page], calls + made, attended + advanced, ok && done, batched, reconciled, before, after)
  {
    hide F.UnsettledIds, F.Listed, F.CallsOf, F.Joined, Answered, Attended, Has, Moved;
    F.CallsPush(pages, page);
    F.CallsPush([], page);
    assert [] + [page] == [page] && [] + page.findings == page.findings;
    NothingListed();
    F.UnsettledJoin(F.Listed(pages), page.findings);
    JoinedAppend(calls, made);
    AnsweredLater(attended, known, advanced, reconciled);
    AttendedJoin(attended, advanced, x, before, y, mid, z, after);
    HasEither(attended, advanced);
  }

  lemma NothingHad(logs: Logs, reconciled: seq<(nat, F.Reconciled)>)
    ensures Answered([], reconciled) && Attended([], logs, logs)
  {
  }

  lemma AttendedJoin(fs: seq<F.Finding>, gs: seq<F.Finding>, x: map<nat, LedgerCarry>, a: Logs,
                     y: map<nat, LedgerCarry>, b: Logs, z: map<nat, LedgerCarry>, c: Logs)
    requires Attended(fs, a, b) && Attended(gs, b, c) && Moved(x, a, y, b) && Moved(y, b, z, c)
    ensures Attended(fs + gs, a, c)
  {
    forall f | f in fs + gs && !f.settled && f.launch && f.id in a && f.id in c ensures |a[f.id]| < |c[f.id]| {
      assert Progressed(CarryOf(x, f.id), a[f.id], CarryOf(y, f.id), b[f.id]);
      assert Progressed(CarryOf(y, f.id), b[f.id], CarryOf(z, f.id), c[f.id]);
    }
  }

  lemma AnsweredMore(fs: seq<F.Finding>, before: seq<(nat, F.Reconciled)>, id: nat, r: F.Reconciled)
    requires Answered(fs, before) && (r.Advanced? ==> r.finding.id == id)
    ensures Answered(fs, before + [(id, r)]) && (r.Advanced? ==> Answered(fs + [r.finding], before + [(id, r)]))
  {
    assert (before + [(id, r)])[|before|] == (id, r);
  }

  lemma AnsweredLater(fs: seq<F.Finding>, before: seq<(nat, F.Reconciled)>, gs: seq<F.Finding>, after: seq<(nat, F.Reconciled)>)
    requires Answered(fs, before) && Answered(gs, after) && before <= after
    ensures Answered(fs + gs, after)
  {
  }

  lemma HasMore(fs: seq<F.Finding>, f: F.Finding)
    ensures Has(fs + [f], f.id) && forall id :: Has(fs, id) ==> Has(fs + [f], id)
  {
    assert (fs + [f])[|fs|] == f;
  }

  lemma HasEither(fs: seq<F.Finding>, gs: seq<F.Finding>)
    ensures forall id :: Has(fs, id) || Has(gs, id) ==> Has(fs + gs, id)
  {
  }

  /** A completed page's findings are Control's answers, and with no failure they
      are all of the page. */
  lemma PageAnswered(ids: seq<nat>, answers: seq<F.Reconciled>, out: F.Reconciliation,
                     before: seq<(nat, F.Reconciled)>, after: seq<(nat, F.Reconciled)>)
    requires F.PageResult(ids, answers, out) && after == before + F.Paired(ids, answers)
    ensures Answered(out.findings, after)
    ensures out.failures == map[] ==> forall id :: id in ids ==> Has(out.findings, id)
  {
    forall f | f in out.findings ensures (f.id, F.Advanced(f)) in after {
      F.AdvancedExact(answers, f);
      var i :| 0 <= i < |answers| && answers[i] == F.Advanced(f);
      assert F.Paired(ids, answers)[i] == (f.id, F.Advanced(f));
    }
    if out.failures == map[] {
      forall id | id in ids ensures Has(out.findings, id) {
        var i :| 0 <= i < |ids| && ids[i] == id;
        assert id !in out.failures;
        F.AdvancedExact(answers, answers[i].finding);
        assert answers[i].finding in out.findings;
      }
    }
  }

  lemma NothingListed()
    ensures F.Listed([]) == [] && F.Ids(F.Listed([])) == [] && F.Joined([]) == [] && F.UnsettledIds(F.Listed([])) == [] && F.CallsOf([]) == []
  {
  }

  lemma {:induction false} JoinedAppend(calls: seq<seq<nat>>, more: seq<seq<nat>>)
    ensures F.Joined(calls + more) == F.Joined(calls) + F.Joined(more)
  {
    if more == [] {
      assert calls + more == calls;
    } else {
      var n := |more| - 1;
      JoinedAppend(calls, more[..n]);
      assert calls + more == calls + more[..n] + [more[n]] && more == more[..n] + [more[n]];
      F.JoinedPush(calls + more[..n], more[n]);
      F.JoinedPush(more[..n], more[n]);
    }
  }

  lemma RoundsPrefix(states: seq<RoundState>, answers: seq<Answer>, b: Bounds)
    requires Rounds(states, answers, b) && |states| > 1
    ensures var n := |states| - 1; Rounds(states[..n], answers[..n], b) && Last(states[..n], answers[..n], b) == Goes(states[n])
  {
    var n := |states| - 1;
    forall i | 0 <= i < n - 1 ensures Follows(states[..n], answers[..n], i, b) {
      assert Follows(states, answers, i, b);
    }
    assert Follows(states, answers, n - 1, b);
  }

  /** The start never moves. */
  lemma {:induction false} RoundsStart(states: seq<RoundState>, answers: seq<Answer>, b: Bounds, start: Time, from: Time, until: Time)
    requires Rounds(states, answers, b) && states[0].start == start
    ensures states[|states| - 1].start == start
    ensures Last(states, answers, b).Goes? ==> Last(states, answers, b).next.start == start
    decreases |states|
  {
    var n := |states| - 1;
    if n > 0 {
      RoundsPrefix(states, answers, b);
      RoundsStart(states[..n], answers[..n], b, start, from, until);
    }
  }

  /** The waits are the capped doubling, and none is due later than the bound
      after the first run's start. */
  lemma {:induction false} RoundsArePaced(states: seq<RoundState>, answers: seq<Answer>, b: Bounds, start: Time, i: nat)
    requires Rounds(states, answers, b) && states[0] == Initial(start, b) && i < |states|
    ensures states[i].start == start && states[i].round == i + 1
    ensures states[i].interval == Backoff(b.reconcileInitial, b.reconcileMax, i)
    ensures i + 1 < |states| ==> answers[i].evaluated + states[i].interval <= start + b.reconcileDuration
    ensures i + 1 < |states| ==> states[i + 1].ledgers == answers[i].ledgers
  {
    if i > 0 {
      RoundsArePaced(states, answers, b, start, i - 1);
      assert Follows(states, answers, i - 1, b);
    }
    if i + 1 < |states| {
      assert Follows(states, answers, i, b);
    }
  }

  lemma LastEvaluation(answers: seq<Answer>)
    requires answers != []
    ensures EvaluationsOf(answers) != []
    ensures EvaluationsOf(answers)[|EvaluationsOf(answers)| - 1] == answers[|answers| - 1].evaluation
  {
  }

  lemma EndsWhenReopened(states: seq<RoundState>, answers: seq<Answer>, b: Bounds)
    requires Rounds(states, answers, b)
    ensures Last(states, answers, b).Reopens? <==> answers[|answers| - 1].evaluation.Reopened?
    ensures forall i :: 0 <= i < |answers| - 1 ==> !answers[i].evaluation.Reopened? && !answers[i].evaluation.Refused?
  {
    forall i | 0 <= i < |answers| - 1 ensures !answers[i].evaluation.Reopened? && !answers[i].evaluation.Refused? {
      assert Follows(states, answers, i, b);
    }
  }
}
