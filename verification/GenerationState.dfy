/** The state the coroutines of one Generation run share: the main loop, the
    Update handlers and the lease supervisor. They interleave wherever one of
    them blocks, so a run is a sequence of their events; what holds of it holds
    in every interleaving. */
module GenerationState {
  import opened Wrappers

  type Time = int

  datatype Work = Codegen | Validate | Register

  datatype Verdict = Certified | Repairable | Invalid | OtherVerdict

  /** A stage Control accepted; the digests of its source and evidence artifacts. */
  datatype Stage = Stage(verdict: Verdict, source: Option<nat>, evidence: Option<nat>)

  /** One attempt of a step: its visit and the artifacts it was given. */
  datatype Attempt = Attempt(work: Work, visit: nat, inputs: seq<nat>)

  datatype Accepted = Accepted(attempt: Attempt, stage: Stage)

  /** What the lease port answered; Unrecorded when Control did not take it. */
  datatype LeaseAnswer = Held(expires: Option<Time>) | Lost | Released | UnknownAnswer | Unrecorded

  datatype LeaseFact = LeaseFact(occurrence: nat, answer: LeaseAnswer)

  datatype Lease = Lease(
    /** The known expiry. */
    expires: Option<Time>,
    occurrence: nat,
    last: Option<LeaseFact>,
    /** Control recorded the lease held. */
    confirmed: bool)

  datatype Sending = Sending(
    held: bool,
    inflight: nat,
    /** An attempt was asked for and its open is not answered. */
    opening: bool,
    /** A hold was applied while the current attempt's open was not answered. */
    heldWhileOpening: bool,
    current: Option<Attempt>,
    ordinals: map<(Work, nat), nat>,
    /** A registration was started and is not answered. */
    registering: bool)

  datatype Round = Round(
    repairs: nat,
    /** The repair bound read at the top of the round, and the largest so far. */
    bound: nat,
    largest: nat,
    coded: Option<Accepted>,
    judged: Option<Accepted>)

  datatype Control = Control(
    fenced: bool,
    definition: nat,
    done: bool,
    /** The supervisor's context is over. */
    stopped: bool,
    /** The supervisor runs, and the lease fence ends the work context. */
    working: bool,
    workCanceled: bool,
    lease: Lease,
    step: Sending,
    round: Round,
    now: Time)

  datatype Event =
    | FoundLease(occurrence: nat, until: Time)
    | Asked(occurrence: nat, answer: LeaseAnswer)
    | Queried(occurrence: nat, answer: LeaseAnswer)
    | RecordedHeld(occurrence: nat, expires: Option<Time>, recorded: bool)
    | Fenced
    | RecordedEnd(occurrence: nat)
    | ReleaseAsked(occurrence: nat, answer: LeaseAnswer)
    | HoldApplied
    | Resumed
    | Changed(definition: nat)
    | StartedWork
    | RoundBegan(definition: nat, maxRepairs: nat)
    | OpenAsked(attempt: Attempt, ordinal: nat)
    | Opened(ok: bool)
    | Launched
    | Created
    | StageAccepted(accepted: Accepted)
    | Repaired
    | RegisterStarted(source: nat, certification: nat)
    | RegisterAnswered(succeeded: bool)
    | Closed
    | Finished
    | CanceledRun
    | Tick(elapsed: nat)

  function SourceInputs(s: Stage): seq<nat> {
    if s.source.Some? then [s.source.value] else []
  }

  function NextOrdinal(c: Control, work: Work, visit: nat): nat {
    (if (work, visit) in c.step.ordinals then c.step.ordinals[(work, visit)] else 0) + 1
  }

  /** An answer after which the same occurrence may be asked about. */
  predicate Inconclusive(c: Control, a: LeaseAnswer) {
    a.UnknownAnswer? || (c.done && a.Held?)
  }

  /** Why the lease fence may fall: a confirmed loss, a confirmed renewal Control
      refused, a lease without an expiry, or a known expiry that passed while the
      last answer did not confirm the lease. */
  predicate FenceCause(c: Control) {
    || (c.lease.last.Some? && (c.lease.last.value.answer.Lost? || c.lease.last.value.answer.Unrecorded?))
    || c.lease.expires.None?
    || (c.lease.last.Some? && !c.lease.last.value.answer.Held? && c.lease.expires.value <= c.now)
  }

  /** What each coroutine checks before the event. */
  predicate Enabled(c: Control, e: Event) {
    match e
    case FoundLease(_, _) => !c.working && c.lease.occurrence == 0
    case Asked(o, _) => o > c.lease.occurrence && !c.fenced && !c.done
    case Queried(o, _) => c.lease.last.Some? && c.lease.last.value.occurrence == o && Inconclusive(c, c.lease.last.value.answer)
    case RecordedHeld(o, x, _) => c.lease.last == Some(LeaseFact(o, Held(x))) && !c.fenced
    case Fenced => c.working && !c.fenced && FenceCause(c)
    case RecordedEnd(o) =>
      o == c.lease.occurrence && (c.fenced || (c.lease.last.Some? && (c.lease.last.value.answer.Lost? || c.lease.last.value.answer.Released?)))
    case ReleaseAsked(o, _) => c.done && !c.fenced && o > c.lease.occurrence
    case HoldApplied => c.step.inflight == 0 && !c.done
    case Resumed => c.step.held && !c.fenced
    case Changed(_) => c.step.inflight == 0 && !c.done
    case StartedWork => !c.working && !c.fenced && !c.done && c.lease.confirmed
    case RoundBegan(d, _) => d == c.definition && c.working && c.step.inflight == 0 && !c.step.opening
    case OpenAsked(a, o) =>
      && c.working && !c.step.held && !c.fenced && c.step.inflight == 0 && !c.step.opening && o == NextOrdinal(c, a.work, a.visit)
      && (!a.work.Register? ==> a.visit == c.round.repairs)
      && (a.work.Validate? ==>
           c.round.coded.Some? && c.round.coded.value.attempt.visit == a.visit && a.inputs == SourceInputs(c.round.coded.value.stage)
           && c.round.coded.value.stage.verdict.Certified?)
    case Opened(_) => c.step.opening
    case Launched => c.step.inflight > 0 && !c.workCanceled && c.step.current.Some? && !c.step.current.value.work.Register?
    case Created => c.step.inflight > 0 && !c.workCanceled && c.step.current.Some? && !c.step.current.value.work.Register?
    case StageAccepted(x) => c.step.inflight > 0 && c.step.current == Some(x.attempt) && !x.attempt.work.Register?
    case Repaired =>
      c.round.judged.Some? && c.round.judged.value.stage.verdict.Repairable? && c.round.repairs < c.round.bound && c.step.inflight == 0 && !c.step.opening
    case RegisterStarted(s, x) =>
      && c.step.inflight > 0 && !c.workCanceled && c.step.current.Some? && c.step.current.value.work.Register?
      && c.round.judged.Some? && c.round.judged.value.stage.verdict.Certified? && c.round.judged.value.stage.evidence == Some(x)
      && c.round.coded.Some? && c.round.coded.value.stage.source == Some(s)
    case RegisterAnswered(_) => c.step.registering
    case Closed => c.step.inflight > 0
    case Finished => !c.done
    case CanceledRun => true
    case Tick(_) => true
  }

  function LeaseAfter(l: Lease, e: Event): Lease {
    match e
    case FoundLease(o, x) => l.(occurrence := o, expires := Some(x), confirmed := true)
    case Asked(o, a) => l.(occurrence := o, last := Some(LeaseFact(o, a)))
    case Queried(o, a) => l.(last := Some(LeaseFact(o, a)))
    case RecordedHeld(o, x, ok) => if ok then l.(expires := x, confirmed := true) else l.(last := Some(LeaseFact(o, Unrecorded)))
    case ReleaseAsked(o, a) => l.(occurrence := o, last := Some(LeaseFact(o, a)))
    case _ => l
  }

  function SendingAfter(s: Sending, e: Event): Sending {
    match e
    case HoldApplied => s.(held := true, heldWhileOpening := s.heldWhileOpening || s.opening)
    case Resumed => s.(held := false)
    case OpenAsked(a, o) =>
      s.(opening := true, heldWhileOpening := false, current := Some(a), ordinals := s.ordinals[(a.work, a.visit) := o],
         registering := false)
    case RegisterStarted(_, _) => s.(registering := true)
    case RegisterAnswered(_) => s.(registering := false)
    case Opened(ok) => s.(opening := false, inflight := s.inflight + if ok then 1 else 0)
    case Closed => s.(inflight := if s.inflight > 0 then s.inflight - 1 else 0)
    case _ => s
  }

  function RoundAfter(r: Round, e: Event): Round {
    match e
    case RoundBegan(_, m) => r.(bound := m, largest := if m > r.largest then m else r.largest)
    case StageAccepted(x) =>
      if x.attempt.work.Codegen? then r.(coded := Some(x), judged := None) else r.(judged := Some(x))
    case Repaired => r.(repairs := r.repairs + 1, judged := None)
    case _ => r
  }

  function Apply(c: Control, e: Event): Control {
    Control(
      c.fenced || e.Fenced?,
      if e.Changed? then e.definition else c.definition,
      c.done || e.Finished?,
      c.stopped || e.Finished? || e.CanceledRun?,
      c.working || e.StartedWork?,
      c.workCanceled || e.Fenced? || e.Finished? || e.CanceledRun?,
      LeaseAfter(c.lease, e),
      SendingAfter(c.step, e),
      RoundAfter(c.round, e),
      c.now + if e.Tick? then e.elapsed else 0)
  }

  /** The event only another coroutine than the main loop takes. */
  predicate Interferes(c: Control, e: Event) {
    || e.HoldApplied? || e.Resumed? || e.Changed? || e.CanceledRun? || e.Tick?
    || ((e.Asked? || e.Queried? || e.RecordedHeld? || e.Fenced? || e.RecordedEnd?) && c.working && !c.stopped)
  }

  /** The event the supervisor does not take. */
  predicate LeavesLease(e: Event) {
    !e.FoundLease? && !e.Asked? && !e.Queried? && !e.RecordedHeld? && !e.Fenced? && !e.RecordedEnd? && !e.ReleaseAsked?
  }

  predicate Allowed(c: Control, es: seq<Event>)
    decreases |es|
  {
    es != [] ==> Enabled(c, es[0]) && Allowed(Apply(c, es[0]), es[1..])
  }

  function After(c: Control, es: seq<Event>): Control
    decreases |es|
  {
    if es == [] then c else After(Apply(c, es[0]), es[1..])
  }

  /** What every event keeps. */
  ghost predicate Sound(c: Control) {
    FenceEndsWork(c) && OneAttempt(c) && HoldWaits(c) && Bounded(c) && Judged(c) && Judging(c)
  }

  ghost predicate FenceEndsWork(c: Control) {
    && (c.fenced && c.working ==> c.workCanceled)
    && (c.done ==> c.workCanceled && c.stopped)
  }

  ghost predicate OneAttempt(c: Control) {
    && c.step.inflight <= 1 && (c.step.inflight > 0 ==> !c.step.opening && c.step.current.Some?)
    && (c.step.opening ==> c.step.current.Some? && c.step.inflight == 0)
  }

  ghost predicate HoldWaits(c: Control) {
    (c.step.opening || c.step.inflight > 0) && c.step.held ==> c.step.heldWhileOpening
  }

  ghost predicate Bounded(c: Control) {
    && c.round.repairs <= c.round.largest && c.round.bound <= c.round.largest
    && (c.lease.last.Some? ==> c.lease.last.value.occurrence <= c.lease.occurrence)
  }

  /** The verdict at hand is the validator's on the source at hand. */
  ghost predicate Judged(c: Control) {
    && (c.round.coded.Some? ==> c.round.coded.value.attempt.work.Codegen?)
    && (c.round.judged.Some? ==> c.round.coded.Some? && JudgedOn(c.round.judged.value.attempt, c.round.coded.value))
  }

  ghost predicate Judging(c: Control) {
    (c.step.opening || c.step.inflight > 0) && c.step.current.Some? && c.step.current.value.work.Validate? ==>
      c.round.coded.Some? && JudgedOn(c.step.current.value, c.round.coded.value)
  }

  ghost predicate JudgedOn(a: Attempt, coded: Accepted) {
    a.work.Validate? && a.visit == coded.attempt.visit && a.inputs == SourceInputs(coded.stage)
  }

  lemma FenceStep(c: Control, e: Event)
    requires FenceEndsWork(c) && Enabled(c, e)
    ensures FenceEndsWork(Apply(c, e))
    ensures c.working ==> Apply(c, e).working
    ensures c.fenced ==> Apply(c, e).fenced && Apply(c, e).lease.expires == (if e.FoundLease? then Some(e.until) else c.lease.expires)
    ensures c.fenced && c.working ==> !Starts(e) && !e.Asked? && !e.ReleaseAsked? && !e.Resumed? && !e.FoundLease?
  {
  }

  lemma AttemptStep(c: Control, e: Event)
    requires OneAttempt(c) && HoldWaits(c) && Enabled(c, e)
    ensures OneAttempt(Apply(c, e)) && HoldWaits(Apply(c, e))
  {
  }

  lemma BoundStep(c: Control, e: Event)
    requires Bounded(c) && Enabled(c, e)
    ensures Bounded(Apply(c, e)) && c.lease.occurrence <= Apply(c, e).lease.occurrence
    ensures Apply(c, e).round.repairs == c.round.repairs + if e.Repaired? then 1 else 0
    ensures Apply(c, e).round.largest == c.round.largest || (e.RoundBegan? && Apply(c, e).round.largest == e.maxRepairs)
    ensures e.Asked? || e.ReleaseAsked? ==> c.lease.occurrence < e.occurrence == Apply(c, e).lease.occurrence
  {
  }

  lemma JudgeStep(c: Control, e: Event)
    requires OneAttempt(c) && Judged(c) && Judging(c) && Enabled(c, e)
    ensures Judged(Apply(c, e)) && Judging(Apply(c, e))
  {
  }

  lemma StepKeeps(c: Control, e: Event)
    requires Sound(c) && Enabled(c, e)
    ensures Sound(Apply(c, e))
  {
    hide Enabled, Apply;
    FenceStep(c, e);
    AttemptStep(c, e);
    BoundStep(c, e);
    JudgeStep(c, e);
  }

  lemma {:induction false} RunKeeps(c: Control, es: seq<Event>)
    requires Sound(c) && Allowed(c, es)
    ensures Sound(After(c, es))
    decreases |es|
  {
    hide Enabled, Apply, Sound;
    if es != [] {
      StepKeeps(c, es[0]);
      RunKeeps(Apply(c, es[0]), es[1..]);
    }
  }

  lemma {:induction false} RunsJoin(c: Control, es: seq<Event>, fs: seq<Event>)
    requires Allowed(c, es) && Allowed(After(c, es), fs)
    ensures Allowed(c, es + fs) && After(c, es + fs) == After(After(c, es), fs)
    decreases |es|
  {
    hide Enabled, Apply;
    if es == [] {
      assert es + fs == fs;
    } else {
      RunsJoin(Apply(c, es[0]), es[1..], fs);
      assert (es + fs)[0] == es[0] && (es + fs)[1..] == es[1..] + fs;
    }
  }

  lemma {:induction false} RunSplits(c: Control, es: seq<Event>, i: nat)
    requires Allowed(c, es) && i <= |es|
    ensures Allowed(c, es[..i]) && Allowed(After(c, es[..i]), es[i..]) && After(After(c, es[..i]), es[i..]) == After(c, es)
    ensures i < |es| ==> Enabled(After(c, es[..i]), es[i])
    decreases |es|
  {
    hide Enabled, Apply;
    if i == 0 {
      assert es[..0] == [] && es[0..] == es;
    } else {
      RunSplits(Apply(c, es[0]), es[1..], i - 1);
      assert es[..i][0] == es[0] && es[..i][1..] == es[1..][..i - 1] && es[i..] == es[1..][i - 1..];
      if i < |es| {
        assert es[1..][i - 1] == es[i];
      }
    }
  }

  /** The start of a run: nothing is under way; a lease Control already lost is
      fenced from the start. */
  ghost predicate Starting(c: Control) {
    && Sound(c) && c.step.inflight == 0 && !c.step.opening && !c.working && !c.done && c.round.coded.None? && c.round.judged.None?
    && c.round.repairs == 0 && c.lease.last.None? && c.lease.occurrence == 0 && c.lease.expires.None? && !c.lease.confirmed
    && c.step.ordinals == map[] && !c.step.registering
  }

  /** Events that let the run's work act outside. */
  predicate Starts(e: Event) {
    e.Launched? || e.Created? || e.RegisterStarted?
  }

  /** The fence is permanent, and once it fell under the work nothing new starts,
      no lease is renewed and no expiry moves, whatever any coroutine does. */
  lemma {:induction false} FenceIsFinal(c: Control, es: seq<Event>)
    requires FenceEndsWork(c) && Allowed(c, es) && c.fenced && c.working
    ensures After(c, es).fenced && After(c, es).lease.expires == c.lease.expires
    ensures forall i :: 0 <= i < |es| ==> !Starts(es[i]) && !es[i].Asked? && !es[i].ReleaseAsked? && !es[i].Resumed?
    decreases |es|
  {
    hide Enabled, Apply, FenceEndsWork;
    if es != [] {
      FenceStep(c, es[0]);
      FenceIsFinal(Apply(c, es[0]), es[1..]);
      assert forall i :: 1 <= i < |es| ==> es[i] == es[1..][i - 1];
    }
  }

  lemma {:induction false} OccurrencesGrow(c: Control, es: seq<Event>)
    requires Sound(c) && Allowed(c, es)
    ensures c.lease.occurrence <= After(c, es).lease.occurrence
    decreases |es|
  {
    hide Enabled, Apply;
    if es != [] {
      StepKeeps(c, es[0]);
      BoundStep(c, es[0]);
      OccurrencesGrow(Apply(c, es[0]), es[1..]);
    }
  }

  /** Renewals and the release use strictly increasing occurrences. */
  lemma LaterOccurrenceIsHigher(c: Control, es: seq<Event>, i: nat, j: nat)
    requires Sound(c) && Allowed(c, es) && i < j < |es|
    requires (es[i].Asked? || es[i].ReleaseAsked?) && (es[j].Asked? || es[j].ReleaseAsked?)
    ensures es[i].occurrence < es[j].occurrence
  {
    hide Enabled, Apply, Sound;
    var at, next, before := Between(c, es, i, j);
    BoundOf(at);
    BoundStep(at, es[i]);
    StepKeeps(at, es[i]);
    OccurrencesGrow(next, before);
    RunKeeps(next, before);
    BoundOf(After(next, before));
    BoundStep(After(next, before), es[j]);
  }

  lemma BoundOf(c: Control)
    requires Sound(c)
    ensures Bounded(c) && OneAttempt(c)
  {
  }

  /** The state before event i, the one after it, and the events up to j. */
  lemma Between(c: Control, es: seq<Event>, i: nat, j: nat) returns (at: Control, next: Control, between: seq<Event>)
    requires Sound(c) && Allowed(c, es) && i < j < |es|
    ensures at == After(c, es[..i]) && Sound(at) && Enabled(at, es[i]) && next == Apply(at, es[i])
    ensures between == es[i + 1..j] && Allowed(next, between)
    ensures After(next, between) == After(c, es[..j]) && Enabled(After(next, between), es[j])
  {
    hide Enabled, Apply, Sound;
    RunSplits(c, es, j);
    RunSplits(c, es[..j], i);
    assert es[..j][..i] == es[..i] && es[..j][i..][0] == es[i] && es[..j][i..][1..] == es[i + 1..j];
    at := After(c, es[..i]);
    RunKeeps(c, es[..i]);
    next, between := Apply(at, es[i]), es[i + 1..j];
  }

  /** The port answered this occurrence with this expiry. */
  ghost predicate Confirmed(es: seq<Event>, occurrence: nat, expires: Option<Time>) {
    exists i :: 0 <= i < |es| && (es[i] == Asked(occurrence, Held(expires)) || es[i] == Queried(occurrence, Held(expires))
                                  || es[i] == ReleaseAsked(occurrence, Held(expires)))
  }

  predicate Answers(e: Event) {
    e.Asked? || e.Queried? || e.ReleaseAsked?
  }

  lemma LastStep(c: Control, e: Event)
    requires Enabled(c, e)
    ensures var t := Apply(c, e);
            && (t.lease.last != c.lease.last && t.lease.last.Some? && t.lease.last.value.answer.Held? ==>
                 Answers(e) && t.lease.last == Some(LeaseFact(e.occurrence, e.answer)))
            && (t.lease.last.None? ==> c.lease.last.None?)
            && (t.lease.expires != c.lease.expires && !e.FoundLease? ==>
                 e.RecordedHeld? && e.recorded && e.expires == t.lease.expires && c.lease.last == Some(LeaseFact(e.occurrence, Held(e.expires))))
  {
  }

  /** The last step of a run. */
  lemma LastEvent(c: Control, es: seq<Event>) returns (before: Control, e: Event)
    requires Allowed(c, es) && es != []
    ensures var n := |es| - 1;
            && e == es[n] && before == After(c, es[..n]) && Allowed(c, es[..n])
            && Enabled(before, e) && After(c, es) == Apply(before, e)
  {
    hide Enabled, Apply;
    var n := |es| - 1;
    RunSplits(c, es, n);
    before, e := After(c, es[..n]), es[n];
    assert es[n..] == [e] && [e][1..] == [];
    assert After(Apply(before, e), []) == Apply(before, e);
  }

  lemma {:induction false} LastIsAnswered(c: Control, es: seq<Event>)
    requires Allowed(c, es) && c.lease.last.None? && After(c, es).lease.last.Some? && After(c, es).lease.last.value.answer.Held?
    ensures Confirmed(es, After(c, es).lease.last.value.occurrence, After(c, es).lease.last.value.answer.expires)
    decreases |es|
  {
    hide Enabled, Apply;
    var before, e := LastEvent(c, es);
    var n := |es| - 1;
    LastStep(before, e);
    if before.lease.last == After(c, es).lease.last {
      LastIsAnswered(c, es[..n]);
      var o, x := before.lease.last.value.occurrence, before.lease.last.value.answer.expires;
      var i :| 0 <= i < n && (es[..n][i] == Asked(o, Held(x)) || es[..n][i] == Queried(o, Held(x)) || es[..n][i] == ReleaseAsked(o, Held(x)));
      assert es[i] == es[..n][i];
    } else {
      assert es[n] == e;
    }
  }

  /** The known expiry moves only to an expiry that the port confirmed held and
      Control then recorded, under one occurrence. */
  lemma ExpiryIsConfirmed(c: Control, es: seq<Event>, i: nat)
    requires Starting(c) && Allowed(c, es) && i < |es|
    requires After(c, es[..i + 1]).lease.expires != After(c, es[..i]).lease.expires && !es[i].FoundLease?
    ensures es[i].RecordedHeld? && es[i].recorded && es[i].expires == After(c, es[..i + 1]).lease.expires
    ensures Confirmed(es[..i], es[i].occurrence, es[i].expires)
  {
    hide Enabled, Apply, Sound;
    RunSplits(c, es, i + 1);
    var before, e := LastEvent(c, es[..i + 1]);
    assert es[..i + 1][..i] == es[..i];
    LastStep(before, e);
    LastIsAnswered(c, es[..i]);
  }

  /** A lease event that lets the work begin. */
  predicate Confirms(e: Event) {
    e.FoundLease? || (e.RecordedHeld? && e.recorded)
  }

  lemma WorkStep(c: Control, e: Event)
    requires Enabled(c, e)
    ensures Apply(c, e).working ==> c.working || c.lease.confirmed
    ensures Apply(c, e).lease.confirmed ==> c.lease.confirmed || Confirms(e)
    ensures e.OpenAsked? ==> c.working
  {
  }

  lemma {:induction false} WorkingIsConfirmed(c: Control, es: seq<Event>)
    requires Allowed(c, es) && !c.working && !c.lease.confirmed
    requires After(c, es).working || After(c, es).lease.confirmed
    ensures exists i :: 0 <= i < |es| && Confirms(es[i])
    decreases |es|
  {
    hide Enabled, Apply;
    var before, e := LastEvent(c, es);
    var n := |es| - 1;
    WorkStep(before, e);
    if before.working || before.lease.confirmed {
      WorkingIsConfirmed(c, es[..n]);
      var i :| 0 <= i < n && Confirms(es[..n][i]);
      assert Confirms(es[i]);
    } else {
      assert Confirms(es[n]);
    }
  }

  /** Nothing authored is opened before the lease was confirmed and recorded. */
  lemma NothingOpensBeforeTheLease(c: Control, es: seq<Event>, i: nat)
    requires Starting(c) && Allowed(c, es) && i < |es| && es[i].OpenAsked?
    ensures exists j :: 0 <= j < i && Confirms(es[j])
  {
    RunSplits(c, es, i);
    WorkStep(After(c, es[..i]), es[i]);
    WorkingIsConfirmed(c, es[..i]);
    var j :| 0 <= j < i && Confirms(es[..i][j]);
    assert Confirms(es[j]);
  }

  ghost predicate AcceptedBefore(es: seq<Event>, x: Accepted) {
    exists i :: 0 <= i < |es| && es[i] == StageAccepted(x)
  }

  lemma StageStep(c: Control, e: Event)
    ensures var t := Apply(c, e);
            && (t.round.coded != c.round.coded && t.round.coded.Some? ==> e == StageAccepted(t.round.coded.value))
            && (t.round.judged != c.round.judged && t.round.judged.Some? ==> e == StageAccepted(t.round.judged.value))
  {
  }

  lemma {:induction false} StagesWereAccepted(c: Control, es: seq<Event>)
    requires Allowed(c, es) && c.round.coded.None? && c.round.judged.None?
    ensures var t := After(c, es);
            && (t.round.coded.Some? ==> AcceptedBefore(es, t.round.coded.value))
            && (t.round.judged.Some? ==> AcceptedBefore(es, t.round.judged.value))
    decreases |es|
  {
    hide Enabled, Apply;
    if es != [] {
      var n := |es| - 1;
      var before, e := LastEvent(c, es);
      StagesWereAccepted(c, es[..n]);
      StageStep(before, e);
      assert forall i :: 0 <= i < n ==> es[i] == es[..n][i];
      assert es[n] == e;
    }
  }

  /** Whatever holds, reruns and repairs occurred: what is registered is the
      source of an accepted codegen stage that was the only input of the validator
      attempt whose accepted stage is the certification. */
  lemma RegisteredIsCertified(c: Control, es: seq<Event>, i: nat) returns (coded: Accepted, judged: Accepted)
    requires Starting(c) && Allowed(c, es) && i < |es| && es[i].RegisterStarted?
    ensures AcceptedBefore(es[..i], coded) && coded.attempt.work.Codegen? && coded.stage.source == Some(es[i].source)
    ensures AcceptedBefore(es[..i], judged) && judged.attempt.work.Validate? && judged.stage.verdict.Certified?
    ensures judged.attempt.inputs == [es[i].source] && judged.attempt.visit == coded.attempt.visit
    ensures judged.stage.evidence == Some(es[i].certification)
  {
    hide Apply;
    RunSplits(c, es, i);
    RunKeeps(c, es[..i]);
    StagesWereAccepted(c, es[..i]);
    var at := After(c, es[..i]);
    coded, judged := at.round.coded.value, at.round.judged.value;
  }

  function Rounds(es: seq<Event>): set<nat> {
    set i | 0 <= i < |es| && es[i].RoundBegan? :: es[i].maxRepairs
  }

  function RepairsIn(es: seq<Event>): nat {
    if es == [] then 0 else (if es[0].Repaired? then 1 else 0) + RepairsIn(es[1..])
  }

  /** The repair counter counts the repairs, never goes back, and never exceeds
      the largest bound that was in force. */
  lemma {:induction false} RepairsAreBounded(c: Control, es: seq<Event>)
    requires Sound(c) && Allowed(c, es)
    ensures var t := After(c, es);
            && t.round.repairs == c.round.repairs + RepairsIn(es)
            && t.round.repairs <= t.round.largest
            && (t.round.largest == c.round.largest || t.round.largest in Rounds(es))
    decreases |es|
  {
    hide Enabled, Apply;
    if es != [] {
      StepKeeps(c, es[0]);
      BoundStep(c, es[0]);
      RepairsAreBounded(Apply(c, es[0]), es[1..]);
      assert forall i :: 1 <= i < |es| ==> es[i] == es[1..][i - 1];
      forall m | m in Rounds(es[1..]) ensures m in Rounds(es) {
        var i :| 0 <= i < |es[1..]| && es[1..][i].RoundBegan? && es[1..][i].maxRepairs == m;
        assert es[i + 1] == es[1..][i];
      }
      assert es[0].RoundBegan? ==> es[0].maxRepairs in Rounds(es);
    }
  }

  lemma OrdinalStep(c: Control, e: Event, key: (Work, nat))
    requires Enabled(c, e)
    ensures key in c.step.ordinals ==> key in Apply(c, e).step.ordinals && c.step.ordinals[key] <= Apply(c, e).step.ordinals[key]
    ensures e.OpenAsked? && key == (e.attempt.work, e.attempt.visit) ==>
              && key in Apply(c, e).step.ordinals && Apply(c, e).step.ordinals[key] == e.ordinal
              && (key in c.step.ordinals ==> c.step.ordinals[key] < e.ordinal)
  {
  }

  lemma {:induction false} OrdinalsGrow(c: Control, es: seq<Event>, key: (Work, nat))
    requires Allowed(c, es) && key in c.step.ordinals
    ensures key in After(c, es).step.ordinals && c.step.ordinals[key] <= After(c, es).step.ordinals[key]
    decreases |es|
  {
    hide Enabled, Apply;
    if es != [] {
      OrdinalStep(c, es[0], key);
      OrdinalsGrow(Apply(c, es[0]), es[1..], key);
    }
  }

  /** A step that reruns opens another attempt: no two opens of one step visit
      use the same ordinal. */
  lemma AttemptsAreDistinct(c: Control, es: seq<Event>, i: nat, j: nat)
    requires Sound(c) && Allowed(c, es) && i < j < |es| && es[i].OpenAsked? && es[j].OpenAsked?
    requires es[i].attempt.work == es[j].attempt.work && es[i].attempt.visit == es[j].attempt.visit
    ensures es[i].ordinal < es[j].ordinal
  {
    hide Enabled, Apply, Sound;
    var key := (es[i].attempt.work, es[i].attempt.visit);
    var at, next, between := Between(c, es, i, j);
    OrdinalStep(at, es[i], key);
    OrdinalsGrow(next, between, key);
    OrdinalStep(After(next, between), es[j], key);
  }

  /** How the attempt under way was opened: asked for at a, opened at o, and if a
      hold was applied while it was pending, at h in between. */
  lemma {:induction false} OpenHistory(c: Control, es: seq<Event>) returns (a: nat, h: nat, o: nat)
    requires Starting(c) && Allowed(c, es) && (After(c, es).step.opening || After(c, es).step.inflight > 0)
    ensures a < |es| && es[a].OpenAsked? && forall k :: a < k < |es| ==> !es[k].OpenAsked? && !es[k].Closed?
    ensures After(c, es).step.inflight > 0 ==> a < o < |es| && es[o] == Opened(true)
    ensures After(c, es).step.heldWhileOpening ==>
              a < h < |es| && es[h].HoldApplied? && (After(c, es).step.inflight > 0 ==> h < o)
    decreases |es|
  {
    hide Enabled, Apply;
    a, h, o := 0, 0, 0;
    if es != [] {
      var before, e := LastEvent(c, es);
      var n := |es| - 1;
      RunKeeps(c, es[..n]);
      OpenStep(before, e);
      if e.OpenAsked? {
        a := n;
      } else {
        a, h, o := OpenHistory(c, es[..n]);
        assert forall k :: 0 <= k < n ==> es[..n][k] == es[k];
        if e.Opened? {
          o := n;
        }
        if e.HoldApplied? {
          h := n;
        }
      }
    }
  }

  /** What each event does to the attempt under way. */
  lemma OpenStep(c: Control, e: Event)
    requires Sound(c) && Enabled(c, e)
    ensures var t := Apply(c, e).step;
            && (t.opening || t.inflight > 0 ==> e.OpenAsked? || c.step.opening || c.step.inflight > 0)
            && (e.OpenAsked? ==> t.inflight == 0 && !t.heldWhileOpening)
            && (t.opening || t.inflight > 0 ==> !e.Closed?)
            && (e.Opened? && t.inflight > 0 ==> e == Opened(true) && c.step.inflight == 0)
            && (!e.Opened? && !e.OpenAsked? && t.inflight > 0 ==> c.step.inflight > 0 && !e.HoldApplied?)
            && (!e.HoldApplied? && !e.OpenAsked? ==> t.heldWhileOpening == c.step.heldWhileOpening)
            && (t.opening ==> t.inflight == 0)
  {
  }

  /** A hold is applied when no attempt is in flight, and still work may start under
      it: only the work of an attempt that was asked for before the hold was applied
      and opened after it, with no other attempt in between. */
  lemma HeldStartWasOpening(c: Control, es: seq<Event>, i: nat) returns (a: nat, h: nat, o: nat)
    requires Starting(c) && Allowed(c, es) && i < |es| && Starts(es[i]) && After(c, es[..i]).step.held
    ensures a < h < o < i && es[a].OpenAsked? && es[h].HoldApplied? && es[o] == Opened(true)
    ensures forall k :: a < k < i ==> !es[k].OpenAsked? && !es[k].Closed?
  {
    RunSplits(c, es, i);
    RunKeeps(c, es[..i]);
    a, h, o := OpenHistory(c, es[..i]);
    assert forall k :: 0 <= k < i ==> es[..i][k] == es[k];
  }

  /** The start of a run that nothing happened to. */
  function Beginning(definition: nat, now: Time): Control {
    Control(false, definition, false, false, false, false, Lease(None, 0, None, false),
            Sending(false, 0, false, false, None, map[], false), Round(0, 0, 0, None, None), now)
  }

  lemma OneMoreEvent(c: Control, es: seq<Event>, e: Event)
    requires Allowed(c, es) && Enabled(After(c, es), e)
    ensures Allowed(c, es + [e]) && After(c, es + [e]) == Apply(After(c, es), e)
  {
    hide Enabled, Apply;
    assert [e][1..] == [];
    assert Allowed(After(c, es), [e]) && After(Apply(After(c, es), e), []) == Apply(After(c, es), e);
    RunsJoin(c, es, [e]);
  }

  /** It does happen, from the start of a run: a hold answered applied while the
      open is pending does not keep the attempt from launching. */
  lemma HoldMayPrecedeLaunch(definition: nat, bound: nat, now: Time, inputs: seq<nat>) returns (es: seq<Event>)
    ensures Starting(Beginning(definition, now)) && Allowed(Beginning(definition, now), es) && |es| == 8
    ensures es[4].OpenAsked? && es[5].HoldApplied? && es[6] == Opened(true) && es[7].Launched?
    ensures After(Beginning(definition, now), es).step.held
  {
    var c := Beginning(definition, now);
    var a := Attempt(Codegen, 0, inputs);
    Begins(definition, now);
    hide Allowed, After, Starting, Beginning;
    var e3, c3 := WorkBegins(definition, now);
    var e4, c4 := Extended(c, e3, c3, RoundBegan(definition, bound));
    var e6, c6 := HeldWhilePending(c, e4, c4, a);
    var e7, c7 := Extended(c, e6, c6, Opened(true));
    var c8;
    es, c8 := Extended(c, e7, c7, Launched);
  }

  /** From an idle loop: an open asked for, and a hold applied before its answer. */
  lemma HeldWhilePending(c: Control, es: seq<Event>, t: Control, a: Attempt) returns (more: seq<Event>, next: Control)
    requires Allowed(c, es) && After(c, es) == t
    requires t.working && !t.fenced && !t.done && t.step == Sending(false, 0, false, false, None, map[], false)
    requires a.work.Codegen? && a.visit == t.round.repairs
    ensures Allowed(c, more) && After(c, more) == next && more == es + [OpenAsked(a, 1)] + [HoldApplied]
    ensures next.step.held && next.step.opening && next.step.inflight == 0 && next.step.current == Some(a)
    ensures next.workCanceled == t.workCanceled
  {
    hide Allowed, After;
    var e1, c1 := Extended(c, es, t, OpenAsked(a, 1));
    more, next := Extended(c, e1, c1, HoldApplied);
  }

  lemma Begins(definition: nat, now: Time)
    ensures var c := Beginning(definition, now); Starting(c) && Allowed(c, []) && After(c, []) == c
  {
  }

  /** The lease is confirmed and recorded, and the work begins. */
  lemma WorkBegins(definition: nat, now: Time) returns (es: seq<Event>, c: Control)
    ensures Allowed(Beginning(definition, now), es) && After(Beginning(definition, now), es) == c && |es| == 3
    ensures c.working && !c.fenced && !c.done && !c.workCanceled && c.definition == definition
    ensures c.step == Sending(false, 0, false, false, None, map[], false) && c.round == Round(0, 0, 0, None, None)
  {
    var c0 := Beginning(definition, now);
    Begins(definition, now);
    hide Allowed, After, Starting;
    var e1, c1 := Extended(c0, [], c0, Asked(1, Held(Some(now + 1))));
    var e2, c2 := Extended(c0, e1, c1, RecordedHeld(1, Some(now + 1), true));
    es, c := Extended(c0, e2, c2, StartedWork);
  }

  lemma Extended(c: Control, es: seq<Event>, t: Control, e: Event) returns (more: seq<Event>, next: Control)
    requires Allowed(c, es) && After(c, es) == t && Enabled(t, e)
    ensures more == es + [e] && next == Apply(t, e) && Allowed(c, more) && After(c, more) == next
  {
    OneMoreEvent(c, es, e);
    more, next := es + [e], Apply(t, e);
  }
}
