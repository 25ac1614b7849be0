/** The ReleaseWorkflow: certification, review, approval, the two publications
    and the activation, over a chain of runs that continue as new during the
    approval wait. Every port call that matters leaves an event in the chain's
    log; what the workflow guarantees is stated about logs. */
module ReleaseWorkflow {
  import opened Wrappers
  import opened ApprovalWait
  import E = Effects
  import G = GuardedEffects

  /** review registration, the two publication targets, the activation. */
  datatype Mutation = ReviewMutation | NpmTarget | BrowserTarget | ActivationMutation

  datatype Answer = Succeeded | Failed | Unknown | Denied | Conflict

  datatype TargetState = TargetPending | TargetSucceeded | TargetFailed | TargetUnknown

  datatype Projection =
    | Certifying | AwaitingApproval | ApprovalRejected | Publishing | Reconciling
    | PartiallyPublished | Published | ReleaseFailed | ReleaseActivated

  datatype Outcome = OutcomeFailed | OutcomeCanceled | OutcomeSucceeded

  datatype Event =
    /** A transition was to be recorded, expecting one revision; Control answered
        the next one, or nothing. */
    | Recorded(state: Projection, expected: nat, next: Option<nat>)
    /** The review port answered a decision read. */
    | DecisionRead(decision: Decision)
    /** A guarded mutation was asked for; None when its Activity did not answer.
        sent says whether its port was called. */
    | Called(mutation: Mutation, answer: Option<Answer>, sent: bool)
    | CatalogRead
    | ContinuedAsNew
    | Settled(outcome: Outcome)

  /** The state the two targets support. */
  function PublicationState(npm: TargetState, browser: TargetState): Projection {
    if npm.TargetUnknown? || browser.TargetUnknown? then Reconciling
    else if npm.TargetSucceeded? && browser.TargetSucceeded? then Published
    else if (npm.TargetSucceeded? && browser.TargetFailed?) || (npm.TargetFailed? && browser.TargetSucceeded?) then PartiallyPublished
    else if npm.TargetFailed? && browser.TargetFailed? then ReleaseFailed
    else Publishing
  }

  function TargetOf(a: Answer): TargetState {
    match a
    case Succeeded => TargetSucceeded
    case Unknown => TargetUnknown
    case _ => TargetFailed
  }

  ghost predicate HasSucceeded(log: seq<Event>, m: Mutation) {
    exists i :: 0 <= i < |log| && log[i].Called? && log[i].mutation == m && log[i].answer == Some(Succeeded)
  }

  /** Some mutation's outcome was unknown when it was asked for. */
  ghost predicate Uncertain(log: seq<Event>) {
    exists i :: 0 <= i < |log| && log[i].Called? && log[i].answer == Some(Unknown)
  }

  /** A decision was read that is no approval of exactly the subject. */
  ghost predicate Refused(log: seq<Event>, subject: nat) {
    exists i :: 0 <= i < |log| && log[i].DecisionRead? && Refuses(log[i].decision, subject)
  }

  predicate Refuses(d: Decision, subject: nat) {
    !d.state.Undecided? && d != Decision(Approved, subject)
  }

  /** The mutation was sent, or its Activity answered: its command exists. */
  ghost predicate WasCalled(log: seq<Event>, m: Mutation) {
    exists i :: 0 <= i < |log| && log[i].Called? && log[i].mutation == m && (log[i].answer.Some? || log[i].sent)
  }

  /** Since the last decision read, which approved exactly the subject, nothing
      was mutated. */
  ghost predicate FreshlyApproved(log: seq<Event>, subject: nat) {
    exists j :: && 0 <= j < |log| && log[j] == DecisionRead(Decision(Approved, subject))
                && forall k :: j < k < |log| ==> !log[k].Called? && !log[k].DecisionRead?
  }

  /** What must be true of the log before a mutation is asked for. */
  ghost predicate MayCall(log: seq<Event>, m: Mutation, subject: nat) {
    && (m.BrowserTarget? ==> HasSucceeded(log, NpmTarget))
    && (m.ActivationMutation? ==> HasSucceeded(log, NpmTarget) && HasSucceeded(log, BrowserTarget))
    && (m.ReviewMutation? || WasCalled(log, m) || FreshlyApproved(log, subject))
  }

  /** Every mutation of the log was asked for when it might be, and none was sent
      again. */
  ghost predicate Ordered(log: seq<Event>, subject: nat) {
    forall i :: 0 <= i < |log| && log[i].Called? ==>
      && MayCall(log[..i], log[i].mutation, subject)
      && (log[i].sent ==> !WasCalled(log[..i], log[i].mutation))
  }

  predicate Answered(e: Event) {
    e.Recorded? && e.next.Some?
  }

  /** The revision Control answered last. */
  function LastRevision(log: seq<Event>): nat {
    if log == [] then 0
    else if Answered(log[|log| - 1]) then log[|log| - 1].next.value
    else LastRevision(log[..|log| - 1])
  }

  /** The last state Control answered it had recorded. */
  function LastProjection(log: seq<Event>): Option<Projection> {
    if log == [] then None
    else if Answered(log[|log| - 1]) then Some(log[|log| - 1].state)
    else LastProjection(log[..|log| - 1])
  }

  /** What must be true of the log before a state is recorded. */
  ghost predicate MayRecord(log: seq<Event>, state: Projection, subject: nat) {
    match state
    case AwaitingApproval => HasSucceeded(log, ReviewMutation)
    case ApprovalRejected => Refused(log, subject)
    case Reconciling => Uncertain(log)
    case Publishing => DecisionRead(Decision(Approved, subject)) in log
    case PartiallyPublished => HasSucceeded(log, NpmTarget) || HasSucceeded(log, BrowserTarget)
    case Published => HasSucceeded(log, NpmTarget) && HasSucceeded(log, BrowserTarget)
    case ReleaseActivated => HasSucceeded(log, ActivationMutation)
    case _ => true
  }

  /** Every record expects the revision the previous answered one returned, and
      records only what happened. */
  ghost predicate Chained(log: seq<Event>, subject: nat) {
    forall i :: 0 <= i < |log| && log[i].Recorded? ==>
      log[i].expected == LastRevision(log[..i]) && MayRecord(log[..i], log[i].state, subject)
  }

  /** A settled chain settled last, once, and as succeeded exactly when the last
      recorded state is the activation. */
  ghost predicate SettledRight(log: seq<Event>) {
    forall i :: 0 <= i < |log| && log[i].Settled? ==>
      && i == |log| - 1
      && (log[i].outcome.OutcomeSucceeded? <==> LastProjection(log[..i]) == Some(ReleaseActivated))
  }

  ghost predicate Right(log: seq<Event>, subject: nat) {
    Ordered(log, subject) && Chained(log, subject) && SettledRight(log)
  }

  ghost predicate Open(log: seq<Event>) {
    forall i :: 0 <= i < |log| ==> !log[i].Settled?
  }

  /** One more event keeps the log right. */
  lemma Push(log: seq<Event>, e: Event, subject: nat)
    requires Right(log, subject) && Open(log)
    requires e.Called? ==> MayCall(log, e.mutation, subject) && (e.sent ==> !WasCalled(log, e.mutation))
    requires e.Recorded? ==> e.expected == LastRevision(log) && MayRecord(log, e.state, subject)
    requires e.Settled? ==> (e.outcome.OutcomeSucceeded? <==> LastProjection(log) == Some(ReleaseActivated))
    ensures Right(log + [e], subject) && (!e.Settled? ==> Open(log + [e]))
    ensures LastRevision(log + [e]) == if Answered(e) then e.next.value else LastRevision(log)
    ensures LastProjection(log + [e]) == if Answered(e) then Some(e.state) else LastProjection(log)
    ensures Grows(log, log + [e])
    ensures forall m :: WasCalled(log + [e], m) <==>
              WasCalled(log, m) || (e.Called? && e.mutation == m && (e.answer.Some? || e.sent))
    ensures forall m :: HasSucceeded(log + [e], m) <==>
              HasSucceeded(log, m) || (e.Called? && e.mutation == m && e.answer == Some(Succeeded))
    ensures Uncertain(log + [e]) <==> Uncertain(log) || (e.Called? && e.answer == Some(Unknown))
    ensures e.DecisionRead? && Refuses(e.decision, subject) ==> Refused(log + [e], subject)
    ensures e == DecisionRead(Decision(Approved, subject)) ==>
              FreshlyApproved(log + [e], subject) && MayRecord(log + [e], Publishing, subject)
    ensures FreshlyApproved(log, subject) && !e.Called? && !e.DecisionRead? ==> FreshlyApproved(log + [e], subject)
  {
    var l := log + [e];
    assert forall i :: 0 <= i <= |log| ==> l[..i] == log[..i];
    assert log[..|log|] == log;
    assert l[|log|] == e;
    assert forall x :: x in log ==> x in l;
    assert e in l;
    assert forall i :: 0 <= i < |log| ==> l[i] == log[i];
    if FreshlyApproved(log, subject) && !e.Called? && !e.DecisionRead? {
      var j :| 0 <= j < |log| && log[j] == DecisionRead(Decision(Approved, subject))
               && forall k :: j < k < |log| ==> !log[k].Called? && !log[k].DecisionRead?;
      assert l[j] == log[j];
    }
  }

  /** What happened stays so in the longer log. */
  ghost predicate Grows(log: seq<Event>, longer: seq<Event>) {
    && (forall m :: HasSucceeded(log, m) ==> HasSucceeded(longer, m))
    && (forall m :: WasCalled(log, m) ==> WasCalled(longer, m))
    && (forall d :: DecisionRead(d) in log ==> DecisionRead(d) in longer)
    && (Uncertain(log) ==> Uncertain(longer))
  }

  /** What the events of the log sent to the effect ports, in order. */
  function SentOf(log: seq<Event>): seq<E.Command> {
    if log == [] then []
    else
      var e := log[|log| - 1];
      SentOf(log[..|log| - 1]) + if e.Called? && e.sent then [CommandOf(e.mutation)] else []
  }

  /** The event asks Control's record or the review port. */
  predicate Asks(e: Event) {
    e.Recorded? || e.DecisionRead? || e.CatalogRead?
  }

  function AskedOf(log: seq<Event>): seq<Event> {
    if log == [] then []
    else AskedOf(log[..|log| - 1]) + if Asks(log[|log| - 1]) then [log[|log| - 1]] else []
  }

  /** The log holds exactly what was sent and asked since base, in order: nothing
      went out beside it. */
  ghost predicate Complete(log: seq<Event>, base: seq<E.Command>, sent: seq<E.Command>, asked: seq<Event>) {
    sent == base + SentOf(log) && asked == AskedOf(log)
  }

  lemma CompletePush(log: seq<Event>, e: Event, base: seq<E.Command>, sent: seq<E.Command>, asked: seq<Event>,
                     sentNow: seq<E.Command>, askedNow: seq<Event>)
    requires Complete(log, base, sent, asked)
    requires sentNow == sent + if e.Called? && e.sent then [CommandOf(e.mutation)] else []
    requires askedNow == asked + if Asks(e) then [e] else []
    ensures Complete(log + [e], base, sentNow, askedNow)
  {
    assert (log + [e])[..|log|] == log;
  }

  /** The k-th send of a log is one of its events. */
  lemma {:induction false} WhenSent(log: seq<Event>, k: nat) returns (i: nat)
    requires k < |SentOf(log)|
    ensures i < |log| && log[i].Called? && log[i].sent && CommandOf(log[i].mutation) == SentOf(log)[k]
    ensures SentOf(log[..i]) == SentOf(log)[..k]
    decreases |log|
  {
    var n := |log| - 1;
    if k < |SentOf(log[..n])| {
      i := WhenSent(log[..n], k);
      assert log[..n][..i] == log[..i];
    } else {
      i := n;
    }
  }

  /** Control's record of the release and the review port, with all they were
      asked. */
  class Desk {
    /** What the review port answers at each instant. */
    const decide: int -> Decision
    var asked: seq<Event>

    constructor (decide: int -> Decision)
      ensures this.decide == decide && asked == []
    {
      this.decide, asked := decide, [];
    }

    method ReviewDecision(now: int) returns (d: Option<Decision>)
      modifies this
      ensures d.Some? ==> d.value == decide(now)
      ensures asked == if d.Some? then old(asked) + [DecisionRead(d.value)] else old(asked)
    {
      var answered: bool := *;
      if !answered {
        return None;
      }
      d := Some(decide(now));
      asked := asked + [DecisionRead(d.value)];
    }

    method RecordRelease(state: Projection, expected: nat) returns (next: Option<nat>)
      modifies this
      ensures asked == old(asked) + [Recorded(state, expected, next)]
    {
      next :| true;
      asked := asked + [Recorded(state, expected, next)];
    }

    method CatalogRevision() returns (answered: bool)
      modifies this
      ensures asked == if answered then old(asked) + [CatalogRead] else old(asked)
    {
      answered := *;
      if answered {
        asked := asked + [CatalogRead];
      }
    }
  }

  /** What a release carries into the run it continues as. */
  datatype Carry = Carry(revision: nat, subject: nat, approvalDeadline: int)

  datatype Bounds = Bounds(pollsPerRun: int, approvalPoll: int, approvalWait: int, reconcileRounds: nat)

  /** The effect command of a mutation: its kind and occurrence under the
      operation. */
  function CommandOf(m: Mutation): E.Command {
    match m
    case ReviewMutation => E.Command(E.Review, 1)
    case NpmTarget => E.Command(E.Publication, 1)
    case BrowserTarget => E.Command(E.Publication, 2)
    case ActivationMutation => E.Command(E.Activation, 1)
  }

  function AnswerOf(r: G.ResultState): Answer {
    match r
    case ResultSucceeded => Succeeded
    case ResultFailed => Failed
    case ResultUnknown => Unknown
    case ResultDenied => Denied
    case ResultConflict => Conflict
  }

  /** The port recorded that the mutation took place and answered with a receipt
      of exactly what was asked for. */
  ghost predicate Delivered(w: E.World, m: Mutation) {
    && CommandOf(m) in w.commands && w.commands[CommandOf(m)] in w.records
    && w.records[w.commands[CommandOf(m)]].happened && w.records[w.commands[CommandOf(m)]].binds
  }

  /** The ports know what the log says. */
  ghost predicate PortsAgree(w: E.World, log: seq<Event>) {
    && (forall m :: WasCalled(log, m) ==> CommandOf(m) in w.commands)
    && (forall m :: HasSucceeded(log, m) ==> Delivered(w, m))
  }

  lemma PortsAgreeLater(w: E.World, x: E.World, log: seq<Event>)
    requires PortsAgree(w, log) && E.Later(w, x)
    ensures PortsAgree(x, log)
  {
  }

  /** How a chain's approval wait ended: when its first poll was, its absolute
      deadline, and what was decided when. */
  datatype Verdict = Verdict(began: int, deadline: int, wait: Wait, at: int)

  /** How a publication ended: the run is over, the targets decide, or the next
      target may be published. */
  datatype Step = Return | Break | Next

  class Release {
    const bounds: Bounds
    /** Control's effect service and the ports the release mutates. */
    const ports: E.Ports
    const desk: Desk
    /** What the ports' client had sent before the chain. */
    ghost const base: seq<E.Command>
    /** The digest of the subject the certified stage builds. */
    const built: nat
    /** Everything the chain of runs asked for, in order. */
    var log: seq<Event>
    var now: int
    // The run's view of the projection.
    var canceled: bool
    var revision: nat
    var subject: nat
    var approvalDeadline: int
    var npm: TargetState
    var browser: TargetState
    var activation: TargetState
    var recorded: Option<Projection>
    var outcome: Outcome

    constructor (bounds: Bounds, ports: E.Ports, desk: Desk, built: nat, now: int)
      ensures this.bounds == bounds && this.ports == ports && this.desk == desk && this.built == built && log == []
      ensures base == ports.sent
    {
      this.bounds, this.ports, this.desk, this.built, this.now := bounds, ports, desk, built, now;
      base := ports.sent;
      log, canceled, recorded := [], false, None;
      revision, subject, approvalDeadline := 0, 0, 0;
      npm, browser, activation := TargetPending, TargetPending, TargetPending;
      outcome := OutcomeFailed;
    }

    /** The log is right so far, nothing settled yet, and the run's view agrees
        with it. */
    ghost predicate InStep()
      reads this`log, this`revision, this`npm, this`browser, ports, desk
    {
      && Right(log, built) && Open(log)
      && E.Sound(ports.w) && PortsAgree(ports.w, log) && Complete(log, base, ports.sent, desk.asked)
      && revision == LastRevision(log)
      && (npm.TargetSucceeded? ==> HasSucceeded(log, NpmTarget))
      && (browser.TargetSucceeded? ==> HasSucceeded(log, BrowserTarget))
      && (npm.TargetUnknown? || browser.TargetUnknown? ==> Uncertain(log))
    }

    ghost predicate Valid()
      reads this`log, this`revision, this`npm, this`browser, this`outcome, ports, desk
    {
      InStep() && (outcome.OutcomeSucceeded? <==> LastProjection(log) == Some(ReleaseActivated))
    }

    /** The run works on its subject under an approval it read. */
    ghost predicate Approving()
      reads this`log, this`revision, this`npm, this`browser, this`outcome, this`subject, ports, desk
    {
      Valid() && subject == built && !outcome.OutcomeSucceeded? && MayRecord(log, Publishing, built)
    }

    method CheckCanceled() returns (c: bool)
      modifies this`canceled
      ensures c == canceled
    {
      if !canceled {
        canceled := *;
      }
      c := canceled;
    }

    /** Maps a failure: a cancellation is canceled, everything else failed. */
    method Fails()
      modifies this`canceled, this`outcome
      ensures !outcome.OutcomeSucceeded?
    {
      var c := CheckCanceled();
      outcome := if c then OutcomeCanceled else OutcomeFailed;
    }

    /** Commits one transition of the projection under the revision the previous
        one returned. */
    method Record(state: Projection) returns (ok: bool)
      requires Valid() && !outcome.OutcomeSucceeded? && MayRecord(log, state, built)
      modifies this`log, this`revision, this`recorded, this`outcome, this`canceled, desk
      ensures InStep() && Grows(old(log), log) && old(log) <= log
      ensures LastProjection(log) == if ok then Some(state) else LastProjection(old(log))
      ensures ok ==> recorded == Some(state) && outcome == old(outcome)
      ensures !outcome.OutcomeSucceeded?
      ensures FreshlyApproved(old(log), built) ==> FreshlyApproved(log, built)
    {
      hide Complete, PortsAgree, E.Sound, Right, Open, MayRecord, FreshlyApproved, HasSucceeded, Grows;
      ghost var before, asked := log, desk.asked;
      var next := desk.RecordRelease(state, revision);
      Pushed(ports.w, before, Recorded(state, revision, next), built, npm, browser);
      CompletePush(before, Recorded(state, revision, next), base, ports.sent, asked, ports.sent, desk.asked);
      log := log + [Recorded(state, revision, next)];
      ok := next.Some?;
      if ok {
        revision, recorded := next.value, Some(state);
      } else {
        Fails();
      }
    }

    method Fail()
      requires Valid() && !outcome.OutcomeSucceeded?
      modifies this`log, this`revision, this`recorded, this`outcome, this`canceled, desk
      ensures Valid() && !outcome.OutcomeSucceeded? && old(log) <= log
    {
      hide Complete, Right, Open, HasSucceeded, FreshlyApproved;
      outcome := OutcomeFailed;
      var _ := Record(ReleaseFailed);
    }

    /** Reads the decision now. */
    method ReadDecision() returns (d: Option<Decision>)
      requires Valid()
      modifies this`log, desk
      ensures Valid() && Grows(old(log), log) && old(log) <= log && LastProjection(log) == LastProjection(old(log))
      ensures d.Some? ==> d.value == desk.decide(now)
      ensures d == Some(Decision(Approved, built)) ==> FreshlyApproved(log, built) && MayRecord(log, Publishing, built)
      ensures d.Some? && Refuses(d.value, built) ==> Refused(log, built)
    {
      hide Complete, PortsAgree, E.Sound, KnownTo, Right, Open, FreshlyApproved, HasSucceeded, Refused, Uncertain, Grows, MayRecord;
      GrowsSelf(log);
      ghost var asked := desk.asked;
      d := desk.ReviewDecision(now);
      if d.Some? {
        Pushed(ports.w, log, DecisionRead(d.value), built, npm, browser);
        CompletePush(log, DecisionRead(d.value), base, ports.sent, asked, ports.sent, desk.asked);
        log := log + [DecisionRead(d.value)];
      }
    }

    /** Re-reads the decision: only an approval of exactly the subject counts. */
    method StillApproved() returns (ok: bool)
      requires Approving()
      modifies this`log, this`now, desk
      ensures Approving() && (ok ==> FreshlyApproved(log, built)) && Grows(old(log), log) && old(log) <= log
    {
      hide InStep, FreshlyApproved, Grows, MayRecord, Refused;
      ghost var before := log;
      var elapsed: nat :| true;
      now := now + elapsed;
      var d := ReadDecision();
      GrowsRecords(before, log, built);
      return d.Some? && d.value.state.Approved? && d.value.subject == subject;
    }

    /** Asks for one guarded mutation under its own attempt; None when the attempt
        could not be opened or no Activity attempt answered. */
    method Effect(m: Mutation) returns (answer: Option<Answer>)
      requires Valid() && MayCall(log, m, built)
      modifies this`log, ports
      ensures Valid() && Grows(old(log), log) && old(log) <= log && LastProjection(log) == LastProjection(old(log))
      ensures answer.Some? ==> WasCalled(log, m) && (answer.value.Succeeded? ==> HasSucceeded(log, m))
      ensures answer == Some(Unknown) ==> Uncertain(log)
    {
      hide Complete, Right, Open, MayCall, HasSucceeded, WasCalled, Grows, FreshlyApproved, PortsAgree, Delivered, E.Sound, E.Later, KnownTo, G.TookPlace;
      GrowsSelf(log);
      var attempted: bool := *;
      if !attempted {
        return None;
      }
      var attempts: nat :| true;
      ghost var before, sent := ports.w, ports.sent;
      var results, sends := G.Retried(ports, CommandOf(m), attempts);
      PortsAgreeLater(before, ports.w, log);
      answer := None;
      if results != [] && results[|results| - 1].Ok? {
        answer := Some(AnswerOf(results[|results| - 1].value.state));
      }
      SentOnlyFirst(before, log, m);
      AnswerIsKnown(ports.w, m, answer, sends > 0);
      var e := Called(m, answer, sends > 0);
      Pushed(ports.w, log, e, built, npm, browser);
      CompletePush(log, e, base, sent, desk.asked, ports.sent, desk.asked);
      log := log + [e];
    }

    /** Polls the review port up to the absolute approval deadline or the poll
        bound of this run. */
    method AwaitApproval() returns (w: Wait)
      requires Valid() && !outcome.OutcomeSucceeded?
      modifies this`log, this`now, this`canceled, desk
      ensures Valid() && old(log) <= log
      ensures w.Decided? ==> !w.decision.state.Undecided?
      ensures w.Decided? && w.decision == Decision(Approved, built) ==> MayRecord(log, Publishing, built)
      ensures w.Decided? && w.decision != Decision(Approved, built) ==> Refused(log, built)
      ensures w.Expired? ==> now >= approvalDeadline
      ensures w.Continue? ==> now < approvalDeadline
      // It decides as one run of the wait against the decisions over time.
      ensures !w.Canceled? && !w.Unavailable? ==>
                (w, now) == OneRun(desk.decide, old(now), approvalDeadline, bounds.approvalPoll, bounds.pollsPerRun, 0)
    {
      hide InStep, Refused, FreshlyApproved, Grows, MayRecord;
      var polls := 0;
      while true
        invariant Valid() && old(log) <= log
        invariant polls == 0 || polls < bounds.pollsPerRun
        invariant OneRun(desk.decide, old(now), approvalDeadline, bounds.approvalPoll, bounds.pollsPerRun, 0) ==
                  OneRun(desk.decide, now, approvalDeadline, bounds.approvalPoll, bounds.pollsPerRun, polls)
        decreases bounds.pollsPerRun - polls
      {
        var c := CheckCanceled();
        if c {
          return Canceled;
        }
        var read := ReadDecision();
        if read.None? {
          c := CheckCanceled();
          return if c then Canceled else Unavailable;
        }
        var d := read.value;
        if !d.state.Undecided? {
          return Decided(d);
        }
        if now >= approvalDeadline {
          return Expired;
        }
        if polls + 1 >= bounds.pollsPerRun {
          return Continue;
        }
        var left := approvalDeadline - now;
        var pause := if left < bounds.approvalPoll then left else bounds.approvalPoll;
        c := CheckCanceled();
        if c {
          return Canceled;
        }
        now := now + pause;
        polls := polls + 1;
      }
    }

    /** Certification, the subject and its review registration. */
    method Prepare() returns (ok: bool)
      requires Valid() && !outcome.OutcomeSucceeded?
      modifies this, ports, desk
      ensures Valid() && !outcome.OutcomeSucceeded? && old(log) <= log
      ensures ok ==> subject == built
      ensures ok ==> approvalDeadline <= now + bounds.approvalWait
    {
      hide Complete, PortsAgree, E.Sound, KnownTo, Right, Open, HasSucceeded, Uncertain, Refused, FreshlyApproved, Grows;
      ok := Record(Certifying);
      if !ok {
        return;
      }
      // The binding, the certification step and the subject.
      var certified: bool := *;
      if !certified {
        Fail();
        return false;
      }
      subject := built;
      var review := Effect(ReviewMutation);
      if review != Some(Succeeded) {
        Fail();
        return false;
      }
      var bindingDeadline: int := *;
      approvalDeadline := now + bounds.approvalWait;
      if bindingDeadline < approvalDeadline {
        approvalDeadline := bindingDeadline;
      }
      ok := Record(AwaitingApproval);
    }

    function TargetRecord(m: Mutation): TargetState
      reads this
    {
      if m.NpmTarget? then npm else browser
    }

    method SetTarget(m: Mutation, answer: Answer)
      requires Approving() && (m.NpmTarget? || m.BrowserTarget?)
      requires answer.Succeeded? ==> HasSucceeded(log, m)
      requires answer.Unknown? ==> Uncertain(log)
      modifies this`npm, this`browser
      ensures Approving() && TargetRecord(m) == TargetOf(answer)
      ensures m.BrowserTarget? ==> npm == old(npm)
      ensures MayRecord(log, PublicationState(npm, browser), built)
    {
      hide Complete, PortsAgree, E.Sound, KnownTo, Right, Open, FreshlyApproved;
      if m.NpmTarget? {
        npm := TargetOf(answer);
      } else {
        browser := TargetOf(answer);
      }
    }

    /** Records what the two targets support. */
    method RecordTargets() returns (ok: bool)
      requires Approving()
      modifies this`log, this`revision, this`recorded, this`outcome, this`canceled, desk
      ensures Approving() && Grows(old(log), log) && old(log) <= log
      ensures ok ==> recorded == Some(PublicationState(npm, browser))
    {
      hide Complete, PortsAgree, E.Sound, KnownTo, Right, Open, FreshlyApproved, Grows;
      ghost var before := log;
      ok := Record(PublicationState(npm, browser));
      GrowsRecords(before, log, built);
    }

    lemma NpmSucceeded()
      requires Valid() && npm.TargetSucceeded?
      ensures HasSucceeded(log, NpmTarget)
    {
    }

    lemma BothSucceeded()
      requires Valid() && npm.TargetSucceeded? && browser.TargetSucceeded?
      ensures HasSucceeded(log, NpmTarget) && HasSucceeded(log, BrowserTarget)
    {
    }

    /** One target under its own identity, with bounded queries of an unknown one. */
    method Publish(m: Mutation) returns (step: Step)
      requires Approving()
      requires m.NpmTarget? || (m.BrowserTarget? && npm.TargetSucceeded?)
      modifies this, ports, desk
      ensures Valid() && !outcome.OutcomeSucceeded? && (!step.Return? ==> Approving()) && old(log) <= log
      ensures step.Next? && m.NpmTarget? ==> npm.TargetSucceeded?
      ensures approvalDeadline == old(approvalDeadline)
    {
      hide InStep, HasSucceeded, Uncertain, FreshlyApproved, Grows, MayRecord, WasCalled, MayCall;
      var c := CheckCanceled();
      if c {
        outcome := OutcomeCanceled;
        var _ := RecordTargets();
        return Return;
      }
      var approved := StillApproved();
      if !approved {
        Fail();
        return Return;
      }
      if m.BrowserTarget? {
        NpmSucceeded();
      }
      MayCallFresh(log, m, built);
      ghost var before := log;
      var answer := Effect(m);
      GrowsRecords(before, log, built);
      if answer.None? {
        Fail();
        return Return;
      }
      ghost var called := log;
      SetTarget(m, answer.value);
      var ok := RecordTargets();
      GrowsCalls(called, log, m);
      if !ok {
        return Return;
      }
      QueryTarget(m);
      if TargetRecord(m).TargetUnknown? {
        return Break;
      }
      if m.NpmTarget? && npm.TargetFailed? {
        // A definitely failed npm target: the browser target is not sent.
        Fail();
        return Return;
      }
      return Next;
    }

    /** An unknown target: its original identity is asked, a bounded number of
        times, before anything else is sent. */
    method QueryTarget(m: Mutation)
      requires Approving() && WasCalled(log, m) && !TargetRecord(m).TargetPending?
      requires m.NpmTarget? || (m.BrowserTarget? && npm.TargetSucceeded?)
      modifies this`log, this`revision, this`recorded, this`outcome, this`canceled, this`npm, this`browser, ports, desk
      ensures Approving() && old(log) <= log && !TargetRecord(m).TargetPending?
    {
      hide InStep, HasSucceeded, Uncertain, FreshlyApproved, Grows, MayRecord, WasCalled, MayCall;
      var round := 0;
      while TargetRecord(m).TargetUnknown? && round < bounds.reconcileRounds
        invariant Approving() && WasCalled(log, m) && old(log) <= log
        invariant m.BrowserTarget? ==> npm.TargetSucceeded?
        invariant !TargetRecord(m).TargetPending?
      {
        var c := CheckCanceled();
        if c {
          break;
        }
        if m.BrowserTarget? {
          NpmSucceeded();
        }
        MayCallAgain(log, m, built, npm);
        ghost var before := log;
        var again := Effect(m);
        GrowsRecords(before, log, built);
        GrowsCalls(before, log, m);
        if again.Some? && !again.value.Unknown? {
          ghost var called := log;
          SetTarget(m, again.value);
          var _ := RecordTargets();
          GrowsCalls(called, log, m);
        }
        round := round + 1;
      }
    }

    /** The activation under its own identity, with bounded queries of an unknown
        one. */
    method AskActivation() returns (answer: Option<Answer>)
      requires Valid() && !outcome.OutcomeSucceeded? && npm.TargetSucceeded? && browser.TargetSucceeded?
      requires FreshlyApproved(log, built)
      modifies this`log, this`revision, this`recorded, this`outcome, this`canceled, this`activation, ports, desk
      ensures Valid() && !outcome.OutcomeSucceeded? && old(log) <= log
      ensures answer == Some(Succeeded) ==> HasSucceeded(log, ActivationMutation)
      ensures answer == Some(Unknown) ==> Uncertain(log)
    {
      hide InStep, HasSucceeded, Uncertain, Refused, FreshlyApproved, Grows, WasCalled, MayCall, MayRecord;
      BothSucceeded();
      MayActivate(log, built);
      answer := Effect(ActivationMutation);
      var round := 0;
      while answer == Some(Unknown) && round < bounds.reconcileRounds
        invariant Valid() && !outcome.OutcomeSucceeded? && old(log) <= log
        invariant npm.TargetSucceeded? && browser.TargetSucceeded?
        invariant answer.Some? ==> WasCalled(log, ActivationMutation)
        invariant answer == Some(Succeeded) ==> HasSucceeded(log, ActivationMutation)
        invariant answer == Some(Unknown) ==> Uncertain(log)
      {
        if round == 0 {
          activation := TargetOf(answer.value);
          MayAlways(log, Reconciling, built);
          ghost var before := log;
          var _ := Record(Reconciling);
          GrowsCalls(before, log, ActivationMutation);
        }
        var c := CheckCanceled();
        if c {
          break;
        }
        BothSucceeded();
        MayActivate(log, built);
        answer := Effect(ActivationMutation);
        round := round + 1;
      }
    }

    /** Reads the catalog revision the activation is conditional on. */
    method ReadCatalog() returns (read: bool)
      requires Valid() && FreshlyApproved(log, built)
      modifies this`log, desk
      ensures Valid() && FreshlyApproved(log, built) && old(log) <= log
    {
      hide Complete, PortsAgree, E.Sound, KnownTo, Right, Open, HasSucceeded, Uncertain, FreshlyApproved, Grows;
      ghost var asked := desk.asked;
      read := desk.CatalogRevision();
      if read {
        Pushed(ports.w, log, CatalogRead, built, npm, browser);
        CompletePush(log, CatalogRead, base, ports.sent, asked, ports.sent, desk.asked);
        log := log + [CatalogRead];
      }
    }

    /** Activation after both verified targets and a re-read approval. */
    method Activate()
      requires Approving() && npm.TargetSucceeded? && browser.TargetSucceeded?
      modifies this, ports, desk
      ensures Valid() && approvalDeadline == old(approvalDeadline) && old(log) <= log
    {
      hide InStep, HasSucceeded, Uncertain, Refused, FreshlyApproved, Grows, WasCalled, MayCall, MayRecord;
      var c := CheckCanceled();
      if c {
        outcome := OutcomeCanceled;
        return;
      }
      var approved := StillApproved();
      if !approved {
        outcome := OutcomeFailed;
        return;
      }
      var read := ReadCatalog();
      if !read {
        Fails();
        return;
      }
      var answer := AskActivation();
      if answer.None? {
        outcome := OutcomeFailed;
        return;
      }
      activation := TargetOf(answer.value);
      match answer.value {
        case Succeeded =>
          MayAlways(log, ReleaseActivated, built);
          var ok := Record(ReleaseActivated);
          if !ok {
            return;
          }
          outcome := OutcomeSucceeded;
        case Unknown =>
          outcome := OutcomeFailed;
        case _ =>
          Fail();
      }
    }

    /** What an approval starts: both targets, then the activation. */
    method PublishAndActivate()
      requires Approving()
      modifies this, ports, desk
      ensures Valid() && approvalDeadline == old(approvalDeadline) && old(log) <= log
    {
      hide InStep, HasSucceeded, Uncertain, FreshlyApproved, Grows, WasCalled, MayCall;
      ghost var before := log;
      var ok := Record(Publishing);
      if !ok {
        return;
      }
      GrowsRecords(before, log, built);
      var step := Publish(NpmTarget);
      if step.Return? {
        return;
      }
      if step.Next? {
        step := Publish(BrowserTarget);
        if step.Return? {
          return;
        }
      }
      var reached := PublicationState(npm, browser);
      if reached.Reconciling? || reached.PartiallyPublished? {
        outcome := OutcomeFailed;
        return;
      }
      if !reached.Published? {
        Fail();
        return;
      }
      if recorded != Some(Published) {
        before := log;
        BothSucceeded();
        ok := Record(Published);
        if !ok {
          return;
        }
        GrowsRecords(before, log, built);
      }
      Activate();
    }

    /** What a run finds when it starts: the log of the runs before it, nothing
        settled, and the carry those runs agreed on. */
    ghost predicate Handed(carry: Option<Carry>)
      reads this, ports, desk
    {
      && Right(log, built) && Open(log) && LastProjection(log) != Some(ReleaseActivated)
      && E.Sound(ports.w) && PortsAgree(ports.w, log) && Complete(log, base, ports.sent, desk.asked)
      && (carry.None? ==> log == [])
      && (carry.Some? ==> carry.value.revision == LastRevision(log) && carry.value.subject == built)
    }

    /** The run's state: what the carry holds, everything else from the start. */
    method Begin(carry: Option<Carry>)
      requires Handed(carry)
      modifies this`canceled, this`recorded, this`outcome, this`revision, this`subject, this`approvalDeadline,
               this`npm, this`browser, this`activation
      ensures Valid() && !outcome.OutcomeSucceeded?
      ensures carry.Some? ==> subject == built && approvalDeadline == carry.value.approvalDeadline
    {
      hide Complete, E.Sound, PortsAgree, Right, Open, HasSucceeded;
      canceled, recorded, outcome := false, None, OutcomeFailed;
      revision, subject, approvalDeadline := 0, 0, 0;
      npm, browser, activation := TargetPending, TargetPending, TargetPending;
      if carry.Some? {
        revision, subject, approvalDeadline := carry.value.revision, carry.value.subject, carry.value.approvalDeadline;
      }
    }

    /** What the end of the approval wait leads to. */
    method Act(w: Wait)
      requires Valid() && subject == built && !outcome.OutcomeSucceeded?
      requires w.Decided? && w.decision == Decision(Approved, built) ==> MayRecord(log, Publishing, built)
      requires w.Decided? && w.decision != Decision(Approved, built) ==> Refused(log, built)
      modifies this, ports, desk
      ensures Valid() && old(log) <= log
      ensures outcome.OutcomeSucceeded? ==> w == Decided(Decision(Approved, built))
    {
      hide Complete, PortsAgree, E.Sound, KnownTo, Right, Open, HasSucceeded, Uncertain, Refused, FreshlyApproved, Grows, WasCalled, MayCall, MayRecord;
      match w {
        case Canceled =>
          outcome := OutcomeCanceled;
          MayAlways(log, ReleaseFailed, built);
          var _ := Record(ReleaseFailed);
        case Decided(d) =>
          if d == Decision(Approved, subject) {
            PublishAndActivate();
          } else {
            // Rejected, invalidated, or approved for another subject.
            outcome := OutcomeFailed;
            MayAlways(log, ApprovalRejected, built);
            var _ := Record(ApprovalRejected);
          }
        case _ =>
          Fail();
      }
    }

    /** The wait that goes on now ends as the one that began at from. */
    ghost predicate Waiting(from: int, deadline: int)
      reads this`now
    {
      bounds.approvalPoll > 0 ==>
        Unsplit(desk.decide, now, deadline, bounds.approvalPoll) == Unsplit(desk.decide, from, deadline, bounds.approvalPoll)
    }

    /** The verdict is the unsplit wait's against the decisions over time. */
    ghost predicate Unsplits(v: Verdict) {
      && !v.wait.Continue?
      && v.deadline <= v.began + bounds.approvalWait
      && (bounds.approvalPoll > 0 ==> (v.wait, v.at) == Unsplit(desk.decide, v.began, v.deadline, bounds.approvalPoll))
    }

    /** One run of the chain: it settles the operation, or hands everything it
        knows to the run it continues as. from is when the chain's approval wait
        began, if it did. */
    method RunOnce(carry: Option<Carry>, ghost from: int) returns (next: Option<Carry>, ghost began: int, ghost verdict: Option<Verdict>)
      requires Handed(carry)
      requires carry.Some? ==> Waiting(from, carry.value.approvalDeadline) && carry.value.approvalDeadline <= from + bounds.approvalWait
      modifies this, ports, desk
      ensures Right(log, built) && PortsAgree(ports.w, log) && Complete(log, base, ports.sent, desk.asked) && old(log) <= log
      ensures next.Some? ==>
                Handed(next) && Waiting(began, next.value.approvalDeadline) && next.value.approvalDeadline <= began + bounds.approvalWait
      ensures next.None? ==> log != [] && log[|log| - 1].Settled?
      // Nothing the run carries is reset by the rollover.
      ensures carry.Some? && next.Some? ==> next.value.approvalDeadline == carry.value.approvalDeadline && began == from
      ensures verdict.Some? ==> next.None? && Unsplits(verdict.value)
      ensures verdict.Some? && carry.Some? ==> verdict.value.began == from && verdict.value.deadline == carry.value.approvalDeadline
      ensures next.None? && log[|log| - 1].outcome.OutcomeSucceeded? ==>
                verdict.Some? && verdict.value.wait == Decided(Decision(Approved, built))
    {
      hide Complete, PortsAgree, E.Sound, KnownTo, Right, Open, HasSucceeded, Uncertain, Refused, FreshlyApproved, Grows, WasCalled, MayCall, MayRecord;
      Begin(carry);
      verdict := None;
      var go := true;
      if carry.None? {
        go := Prepare();
      }
      began := if carry.Some? then from else now;
      if go {
        ghost var deadline, polled := approvalDeadline, now;
        var w := AwaitApproval();
        if bounds.approvalPoll > 0 {
          RunIsPrefix(desk.decide, polled, deadline, bounds.approvalPoll, bounds.pollsPerRun, 0);
        }
        if w.Continue? {
          Pushed(ports.w, log, ContinuedAsNew, built, npm, browser);
          CompletePush(log, ContinuedAsNew, base, ports.sent, desk.asked, ports.sent, desk.asked);
          log := log + [ContinuedAsNew];
          return Some(Carry(revision, subject, approvalDeadline)), began, verdict;
        }
        if !w.Canceled? && !w.Unavailable? {
          verdict := Some(Verdict(began, deadline, w, now));
        }
        Act(w);
      }
      Pushed(ports.w, log, Settled(outcome), built, npm, browser);
      CompletePush(log, Settled(outcome), base, ports.sent, desk.asked, ports.sent, desk.asked);
      log := log + [Settled(outcome)];
      return None, began, verdict;
    }

    /** A chain of runs, watched for any number of them. Its log is right and holds
        everything the chain sent and asked; its approval wait decides as the
        unsplit one. */
    method Chain(runs: nat) returns (settled: bool, ghost verdict: Option<Verdict>)
      requires log == [] && E.Sound(ports.w) && base == ports.sent && desk.asked == []
      modifies this, ports, desk
      ensures Right(log, built)
      ensures ports.sent == old(ports.sent) + SentOf(log) && desk.asked == AskedOf(log)
      ensures settled <==> log != [] && log[|log| - 1].Settled?
      ensures verdict.Some? ==> settled && Unsplits(verdict.value)
      ensures log != [] && log[|log| - 1] == Settled(OutcomeSucceeded) ==>
                && Delivered(ports.w, NpmTarget) && Delivered(ports.w, BrowserTarget) && Delivered(ports.w, ActivationMutation)
                && verdict.Some? && verdict.value.wait == Decided(Decision(Approved, built))
    {
      hide Right, FreshlyApproved;
      EmptyIsRight(ports.w, built);
      var carry := None;
      ghost var began := now;
      verdict := None;
      var i := 0;
      while i < runs
        invariant Handed(carry)
        invariant carry.Some? ==> Waiting(began, carry.value.approvalDeadline) && carry.value.approvalDeadline <= began + bounds.approvalWait
      {
        carry, began, verdict := RunOnce(carry, began);
        if carry.None? {
          if log[|log| - 1] == Settled(OutcomeSucceeded) {
            SuccessIsDelivered(ports.w, log, built);
          }
          return true, verdict;
        }
        i := i + 1;
      }
      return false, None;
    }
  }

  lemma EmptyIsRight(w: E.World, subject: nat)
    ensures Right([], subject) && Open([]) && PortsAgree(w, [])
  {
  }

  lemma SentOnlyFirst(w: E.World, log: seq<Event>, m: Mutation)
    requires PortsAgree(w, log)
    ensures WasCalled(log, m) ==> CommandOf(m) in w.commands
  {
  }

  ghost predicate KnownTo(w: E.World, e: Event) {
    e.Called? ==>
      && (e.answer.Some? || e.sent ==> CommandOf(e.mutation) in w.commands)
      && (e.answer == Some(Succeeded) ==> Delivered(w, e.mutation))
  }

  lemma AnswerIsKnown(w: E.World, m: Mutation, answer: Option<Answer>, sent: bool)
    requires answer.Some? || sent ==> CommandOf(m) in w.commands
    requires answer == Some(Succeeded) ==> G.TookPlace(w, CommandOf(m))
    ensures KnownTo(w, Called(m, answer, sent))
  {
  }

  lemma NotCalled(w: E.World, e: Event)
    requires !e.Called?
    ensures KnownTo(w, e)
  {
  }

  lemma NowKnown(w: E.World, log: seq<Event>, e: Event)
    requires PortsAgree(w, log) && KnownTo(w, e)
    ensures PortsAgree(w, log + [e])
  {
    var l := log + [e];
    forall m | WasCalled(l, m) ensures CommandOf(m) in w.commands {
      var i :| 0 <= i < |l| && l[i].Called? && l[i].mutation == m && (l[i].answer.Some? || l[i].sent);
      assert i < |log| ==> log[i] == l[i];
    }
    forall m | HasSucceeded(l, m) ensures Delivered(w, m) {
      var i :| 0 <= i < |l| && l[i].Called? && l[i].mutation == m && l[i].answer == Some(Succeeded);
      assert i < |log| ==> log[i] == l[i];
    }
  }

  lemma GrowsSelf(log: seq<Event>)
    ensures Grows(log, log)
  {
  }

  /** Push, with what the run's view and the ports say about the longer log. */
  lemma Pushed(w: E.World, log: seq<Event>, e: Event, subject: nat, npm: TargetState, browser: TargetState)
    requires Right(log, subject) && Open(log) && PortsAgree(w, log) && (e.Called? ==> KnownTo(w, e))
    requires e.Called? ==> MayCall(log, e.mutation, subject) && (e.sent ==> !WasCalled(log, e.mutation))
    requires e.Recorded? ==> e.expected == LastRevision(log) && MayRecord(log, e.state, subject)
    requires e.Settled? ==> (e.outcome.OutcomeSucceeded? <==> LastProjection(log) == Some(ReleaseActivated))
    ensures var l := log + [e];
      && Right(l, subject) && (!e.Settled? ==> Open(l)) && PortsAgree(w, l) && Grows(log, l)
      && LastRevision(l) == (if Answered(e) then e.next.value else LastRevision(log))
      && LastProjection(l) == (if Answered(e) then Some(e.state) else LastProjection(log))
      && (npm.TargetSucceeded? && HasSucceeded(log, NpmTarget) ==> HasSucceeded(l, NpmTarget))
      && (browser.TargetSucceeded? && HasSucceeded(log, BrowserTarget) ==> HasSucceeded(l, BrowserTarget))
      && (e.Called? && (e.answer.Some? || e.sent) ==> WasCalled(l, e.mutation))
      && (e.Called? && e.answer == Some(Succeeded) ==> HasSucceeded(l, e.mutation))
      && (Uncertain(log) || (e.Called? && e.answer == Some(Unknown)) ==> Uncertain(l))
      && (e.DecisionRead? && Refuses(e.decision, subject) ==> Refused(l, subject))
      && (e == DecisionRead(Decision(Approved, subject)) ==> FreshlyApproved(l, subject) && MayRecord(l, Publishing, subject))
      && (FreshlyApproved(log, subject) && !e.Called? && !e.DecisionRead? ==> FreshlyApproved(l, subject))
  {
    hide Right, Open, PortsAgree, FreshlyApproved, MayCall, HasSucceeded, WasCalled, MayRecord;
    Push(log, e, subject);
    if !e.Called? {
      NotCalled(w, e);
    }
    NowKnown(w, log, e);
  }

  lemma GrowsRecords(log: seq<Event>, longer: seq<Event>, subject: nat)
    requires Grows(log, longer)
    ensures MayRecord(log, Publishing, subject) ==> MayRecord(longer, Publishing, subject)
  {
  }

  lemma GrowsCalls(log: seq<Event>, longer: seq<Event>, m: Mutation)
    requires Grows(log, longer)
    ensures WasCalled(log, m) ==> WasCalled(longer, m)
    ensures Uncertain(log) ==> Uncertain(longer)
  {
  }

  lemma MayCallFresh(log: seq<Event>, m: Mutation, subject: nat)
    requires FreshlyApproved(log, subject) && !m.ActivationMutation?
    requires m.BrowserTarget? ==> HasSucceeded(log, NpmTarget)
    ensures MayCall(log, m, subject)
  {
  }

  lemma MayCallAgain(log: seq<Event>, m: Mutation, subject: nat, npm: TargetState)
    requires WasCalled(log, m) && !m.ActivationMutation?
    requires m.BrowserTarget? ==> HasSucceeded(log, NpmTarget)
    ensures MayCall(log, m, subject)
  {
  }

  lemma MayActivate(log: seq<Event>, subject: nat)
    requires HasSucceeded(log, NpmTarget) && HasSucceeded(log, BrowserTarget)
    requires FreshlyApproved(log, subject) || WasCalled(log, ActivationMutation)
    ensures MayCall(log, ActivationMutation, subject)
  {
  }

  lemma MayAlways(log: seq<Event>, state: Projection, subject: nat)
    requires state.ReleaseFailed? || (state.Reconciling? && Uncertain(log)) || (state.ApprovalRejected? && Refused(log, subject))
             || (state.ReleaseActivated? && HasSucceeded(log, ActivationMutation))
    ensures MayRecord(log, state, subject)
  {
  }

  /** Reading a right log: a mutation that reached its port came after a read of
      an approval of exactly the subject with nothing mutated in between, was not
      sent or answered before, and comes after what it builds on succeeded. */
  lemma EverySendIsApproved(log: seq<Event>, subject: nat, i: nat)
    requires Right(log, subject) && i < |log| && log[i].Called? && log[i].sent
    ensures !log[i].mutation.ReviewMutation? ==>
              exists j :: 0 <= j < i && log[j] == DecisionRead(Decision(Approved, subject))
                          && forall k :: j < k < i ==> !log[k].Called? && !log[k].DecisionRead?
    ensures forall k :: 0 <= k < i && log[k].Called? && log[k].mutation == log[i].mutation ==>
              !log[k].sent && log[k].answer.None?
    ensures log[i].mutation.BrowserTarget? || log[i].mutation.ActivationMutation? ==>
              exists j :: 0 <= j < i && SucceededAt(log, j, NpmTarget)
    ensures log[i].mutation.ActivationMutation? ==>
              exists j :: 0 <= j < i && SucceededAt(log, j, BrowserTarget)
  {
    var before := log[..i];
    assert MayCall(before, log[i].mutation, subject) && !WasCalled(before, log[i].mutation);
    assert forall k :: 0 <= k < i ==> before[k] == log[k];
    if !log[i].mutation.ReviewMutation? {
      var j :| 0 <= j < |before| && before[j] == DecisionRead(Decision(Approved, subject))
               && forall k :: j < k < |before| ==> !before[k].Called? && !before[k].DecisionRead?;
      assert log[j] == DecisionRead(Decision(Approved, subject));
      assert forall k :: j < k < i ==> before[k] == log[k];
    }
    if log[i].mutation.BrowserTarget? || log[i].mutation.ActivationMutation? {
      var j := WhenSucceeded(before, NpmTarget);
      assert SucceededAt(log, j, NpmTarget);
    }
    if log[i].mutation.ActivationMutation? {
      var j := WhenSucceeded(before, BrowserTarget);
      assert SucceededAt(log, j, BrowserTarget);
    }
  }

  /** The same of what the port really got: each send of a chain is the first of
      its mutation, comes after a read of an approval of exactly the subject, and
      after what it builds on succeeded. */
  lemma EveryPortSendIsApproved(log: seq<Event>, subject: nat, k: nat) returns (i: nat)
    requires Right(log, subject) && k < |SentOf(log)|
    ensures i < |log| && log[i].Called? && log[i].sent && CommandOf(log[i].mutation) == SentOf(log)[k]
    ensures SentOf(log)[k] !in SentOf(log)[..k]
    ensures !log[i].mutation.ReviewMutation? ==>
              exists j :: 0 <= j < i && log[j] == DecisionRead(Decision(Approved, subject))
                          && forall l :: j < l < i ==> !log[l].Called? && !log[l].DecisionRead?
    ensures log[i].mutation.BrowserTarget? || log[i].mutation.ActivationMutation? ==>
              exists j :: 0 <= j < i && SucceededAt(log, j, NpmTarget)
    ensures log[i].mutation.ActivationMutation? ==>
              exists j :: 0 <= j < i && SucceededAt(log, j, BrowserTarget)
  {
    i := WhenSent(log, k);
    EverySendIsApproved(log, subject, i);
    forall h | 0 <= h < k ensures SentOf(log)[h] != SentOf(log)[k] {
      var before := log[..i];
      var j := WhenSent(before, h);
      assert log[j] == before[j];
    }
  }

  ghost predicate SucceededAt(log: seq<Event>, i: nat, m: Mutation) {
    i < |log| && log[i].Called? && log[i].mutation == m && log[i].answer == Some(Succeeded)
  }

  lemma WhenSucceeded(log: seq<Event>, m: Mutation) returns (i: nat)
    requires HasSucceeded(log, m)
    ensures SucceededAt(log, i, m)
  {
    i :| 0 <= i < |log| && log[i].Called? && log[i].mutation == m && log[i].answer == Some(Succeeded);
  }

  lemma {:induction false} WhenRecorded(log: seq<Event>, state: Projection) returns (i: nat)
    requires LastProjection(log) == Some(state)
    ensures i < |log| && Answered(log[i]) && log[i].state == state
  {
    if Answered(log[|log| - 1]) {
      i := |log| - 1;
    } else {
      i := WhenRecorded(log[..|log| - 1], state);
    }
  }

  /** A release that settled as succeeded was delivered: the ports recorded both
      targets and the activation of exactly this subject. */
  lemma SuccessIsDelivered(w: E.World, log: seq<Event>, subject: nat)
    requires Right(log, subject) && PortsAgree(w, log)
    requires log != [] && log[|log| - 1] == Settled(OutcomeSucceeded)
    ensures Delivered(w, NpmTarget) && Delivered(w, BrowserTarget) && Delivered(w, ActivationMutation)
  {
    var n := |log| - 1;
    assert log[n].Settled?;
    assert LastProjection(log[..n]) == Some(ReleaseActivated);
    var r := WhenRecorded(log[..n], ReleaseActivated);
    assert log[r].state == ReleaseActivated && MayRecord(log[..r], log[r].state, subject);
    var a := WhenSucceeded(log[..r], ActivationMutation);
    assert SucceededAt(log, a, ActivationMutation);
    assert MayCall(log[..a], ActivationMutation, subject);
    var p := WhenSucceeded(log[..a], NpmTarget);
    var b := WhenSucceeded(log[..a], BrowserTarget);
    assert SucceededAt(log, p, NpmTarget) && SucceededAt(log, b, BrowserTarget);
  }
}
