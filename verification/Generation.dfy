/** The Generation run's coroutines: the main loop (codegen, independent
    validation, bounded repair, registration), and the lease supervisor. Each
    takes only events the shared state allows, and lets the others run wherever
    it blocks. */
module Generation {
  import opened Wrappers
  import opened GenerationState

  /** A definition this worker registered; a negative bound keeps the view's. */
  datatype Definition = Definition(id: nat, maxRepairs: int)

  /** The last registered definition of the id that sets a bound decides. */
  function MaxRepairsOf(defs: seq<Definition>, id: nat, view: nat): nat {
    if defs == [] then view
    else
      var d := defs[|defs| - 1];
      if d.id == id && d.maxRepairs >= 0 then d.maxRepairs else MaxRepairsOf(defs[..|defs| - 1], id, view)
  }

  /** Every round read the bound of the definition in force. */
  ghost predicate InForce(log: seq<Event>, defs: seq<Definition>, view: nat) {
    forall i :: 0 <= i < |log| && log[i].RoundBegan? ==> log[i].maxRepairs == MaxRepairsOf(defs, log[i].definition, view)
  }

  /** A registration was started and answered as succeeded. */
  ghost predicate Registered(log: seq<Event>) {
    exists i, j :: 0 <= i < j < |log| && log[i].RegisterStarted? && log[j] == RegisterAnswered(true)
  }

  lemma RegisteredStays(log: seq<Event>, longer: seq<Event>)
    requires log <= longer
    ensures Registered(log) ==> Registered(longer)
  {
    if Registered(log) {
      var i, j :| 0 <= i < j < |log| && log[i].RegisterStarted? && log[j] == RegisterAnswered(true);
      assert longer[i] == log[i] && longer[j] == log[j];
    }
  }

  datatype SupervisorEnd = LeaseFenced | SupervisorStopped | Watched

  /** How a round of the loop ended. */
  datatype RoundEnd = AllCertified | Repair | Rerun | Stop

  datatype RunEnd = Succeeded | Ended | StillRunning

  /** What the main loop keeps while it blocks. */
  ghost predicate Undisturbed(c: Control, d: Control) {
    && d.done == c.done && d.working == c.working && d.round == c.round
    && d.step.inflight == c.step.inflight && d.step.opening == c.step.opening
    && d.step.current == c.step.current && d.step.ordinals == c.step.ordinals && d.step.registering == c.step.registering
    && (c.fenced ==> d.fenced) && (c.workCanceled ==> d.workCanceled) && (c.stopped ==> d.stopped)
    && (!c.working ==> d.fenced == c.fenced && d.lease == c.lease)
    // No hold is applied while an attempt is in flight.
    && (c.step.inflight > 0 && d.step.held ==> c.step.held)
  }

  /** What the supervisor keeps while it blocks. */
  ghost predicate LeaseAlone(c: Control, d: Control) {
    d.lease == c.lease && d.fenced == c.fenced && (c.working ==> d.working) && c.now <= d.now
  }

  lemma UndisturbedStep(c: Control, d: Control, e: Event)
    requires Undisturbed(c, d) && Enabled(d, e) && Interferes(d, e)
    ensures Undisturbed(c, Apply(d, e))
  {
  }

  lemma LeaseAloneStep(c: Control, d: Control, e: Event)
    requires LeaseAlone(c, d) && LeavesLease(e)
    ensures LeaseAlone(c, Apply(d, e))
  {
  }

  class Run {
    const defs: seq<Definition>
    const viewRepairs: nat
    /** The lease Control's record holds for a restarted run. */
    const found: Option<(nat, Time)>
    /** How long before the known expiry a renewal is due. */
    const lead: Time
    ghost const start: Control
    var c: Control
    ghost var log: seq<Event>

    constructor (c: Control, defs: seq<Definition>, viewRepairs: nat, found: Option<(nat, Time)>, lead: Time)
      requires Starting(c)
      ensures this.c == c && this.defs == defs && this.viewRepairs == viewRepairs && this.found == found && this.lead == lead
      ensures Valid() && log == [] && start == c
    {
      this.c, this.start, this.defs, this.viewRepairs, this.found, this.lead := c, c, defs, viewRepairs, found, lead;
      log := [];
    }

    ghost predicate Valid()
      reads this
    {
      && Starting(start) && Allowed(start, log) && After(start, log) == c && Sound(c)
      && InForce(log, defs, viewRepairs)
    }

    /** Takes one event. */
    method Do(e: Event)
      requires Valid() && Enabled(c, e)
      requires e.RoundBegan? ==> e.maxRepairs == MaxRepairsOf(defs, e.definition, viewRepairs)
      modifies this`c, this`log
      ensures Valid() && c == Apply(old(c), e) && log == old(log) + [e]
    {
      hide Enabled, Apply, Sound, Starting;
      OneEvent(c, e);
      RunsJoin(start, log, [e]);
      StepKeeps(c, e);
      c := Apply(c, e);
      log := log + [e];
    }

    /** The main loop blocks: the others take any events. */
    method Block()
      requires Valid()
      modifies this`c, this`log
      ensures Valid() && Undisturbed(old(c), c) && |old(log)| <= |log| && log[..|old(log)|] == old(log)
    {
      hide Valid, Enabled, Apply, Interferes, Undisturbed;
      UndisturbedSelf(c);
      var n: nat :| true;
      var i := 0;
      while i < n
        invariant Valid() && Undisturbed(old(c), c)
        invariant |old(log)| <= |log| && log[..|old(log)|] == old(log)
      {
        var e: Event :| true;
        if Enabled(c, e) && Interferes(c, e) {
          UndisturbedStep(old(c), c, e);
          NoRound(c, e);
          Do(e);
        }
        i := i + 1;
      }
    }

    /** The supervisor blocks: the others take any events. */
    method Yield()
      requires Valid()
      modifies this`c, this`log
      ensures Valid() && LeaseAlone(old(c), c)
    {
      hide Valid, Enabled, Apply, LeavesLease, LeaseAlone;
      LeaseAloneSelf(c);
      var n: nat :| true;
      var i := 0;
      while i < n
        invariant Valid() && LeaseAlone(old(c), c)
      {
        var e: Event :| true;
        if Enabled(c, e) && LeavesLease(e) && (e.RoundBegan? ==> e.maxRepairs == MaxRepairsOf(defs, e.definition, viewRepairs)) {
          LeaseAloneStep(old(c), c, e);
          Do(e);
        }
        i := i + 1;
      }
    }

    /** A durable timer of the supervisor. */
    method Sleep(d: Time)
      requires Valid() && d > 0
      modifies this`c, this`log
      ensures Valid() && LeaseAlone(old(c), c) && c.now >= old(c).now + d
    {
      hide Valid, Enabled, Apply;
      var due := c.now + d;
      Yield();
      if c.now < due {
        var e := Tick(due - c.now);
        TickAlways(c, e);
        LeaseAloneStep(old(c), c, e);
        Do(e);
      }
    }

    /** The fence falls for good, and the loss is recorded if Control takes it. */
    method Fence()
      requires Valid() && Enabled(c, Event.Fenced)
      modifies this`c, this`log
      ensures Valid() && c.fenced && c.working
    {
      Do(Event.Fenced);
      Yield();
      var recorded: bool := *;
      if recorded {
        Do(RecordedEnd(c.lease.occurrence));
      }
    }

    /** The protected supervisor, watched for a number of confirmed renewals.
        However long the answers stay unknown, it comes to an end: only a
        confirmed renewal keeps it going, and the fence falls once the known
        expiry passed. */
    method SuperviseLease(renewals: nat) returns (end: SupervisorEnd, confirmed: nat)
      requires Valid() && c.working && lead >= 2
      modifies this`c, this`log
      ensures Valid() && c.working
      ensures end.LeaseFenced? ==> c.fenced
      ensures end.SupervisorStopped? ==> c.stopped || c.fenced
      ensures end.Watched? ==> confirmed == renewals + 1
    {
      hide Valid, Apply, After, Allowed;
      confirmed := 0;
      while !c.done && !c.fenced
        invariant Valid() && c.working && confirmed <= renewals
        decreases renewals - confirmed, if c.lease.expires.Some? && c.now < c.lease.expires.value then c.lease.expires.value - c.now else 0
      {
        if c.lease.expires.None? {
          Fence();
          return LeaseFenced, confirmed;
        }
        var known := c.lease.expires.value;
        if known - c.now - lead > 0 {
          Sleep(known - c.now - lead);
        }
        Yield();
        DoneIsStopped();
        if c.stopped {
          return SupervisorStopped, confirmed;
        }
        var o := c.lease.occurrence + 1;
        var answer: LeaseAnswer :| !answer.Unrecorded?;
        Ask(Asked(o, answer));
        if answer.UnknownAnswer? {
          Yield();
          if c.stopped {
            return SupervisorStopped, confirmed;
          }
          var queried: LeaseAnswer :| !queried.Unrecorded?;
          Ask(Queried(o, queried));
          answer := queried;
        }
        if answer.Held? {
          Yield();
          if c.stopped {
            return SupervisorStopped, confirmed;
          }
          var recorded: bool := *;
          Ask(RecordedHeld(o, answer.expires, recorded));
          if !recorded {
            Fence();
            return LeaseFenced, confirmed;
          }
          confirmed := confirmed + 1;
          if confirmed > renewals {
            return Watched, confirmed;
          }
        } else if answer.Lost? {
          Fence();
          return LeaseFenced, confirmed;
        } else {
          // The known expiry stands.
          if known <= c.now {
            Fence();
            return LeaseFenced, confirmed;
          }
          Sleep(if lead / 2 < known - c.now then lead / 2 else known - c.now);
          if c.stopped {
            return SupervisorStopped, confirmed;
          }
        }
      }
      DoneIsStopped();
      return SupervisorStopped, confirmed;
    }

    lemma DoneIsStopped()
      requires Valid()
      ensures c.done ==> c.stopped
    {
    }

    /** Waits out a hold; false when the run is fenced or canceled, or still held
        when it is no longer watched. */
    method AwaitRunnable() returns (ok: bool)
      requires Valid()
      modifies this`c, this`log
      ensures Valid() && Undisturbed(old(c), c)
      ensures ok ==> !c.step.held && !c.fenced
    {
      Block();
      ok := !c.step.held && !c.fenced && !c.stopped;
    }

    /** The lease under occurrence 1, or the confirmed one Control's record holds:
        nothing authored runs before it is confirmed and recorded. */
    method AcquireLease() returns (ok: bool)
      requires Valid() && !c.working && !c.fenced && !c.done && c.lease == start.lease
      modifies this`c, this`log
      ensures Valid() && !c.working && !c.fenced && !c.done
      ensures c.step.inflight == old(c).step.inflight && c.step.opening == old(c).step.opening && c.round == old(c).round
      ensures ok ==> c.lease.confirmed && log != [] && Confirms(log[|log| - 1])
    {
      hide Allowed, After;
      if found.Some? && found.value.1 > c.now {
        Do(FoundLease(found.value.0, found.value.1));
        return true;
      }
      Block();
      var answer: LeaseAnswer :| !answer.Unrecorded?;
      Do(Asked(1, answer));
      if answer.UnknownAnswer? {
        Block();
        var queried: LeaseAnswer :| !queried.Unrecorded?;
        Do(Queried(1, queried));
        answer := queried;
      }
      if !answer.Held? {
        return false;
      }
      Block();
      ok := *;
      Do(RecordedHeld(1, answer.expires, ok));
    }

    /** Opens an attempt under a command identity never used before; needsWork: the
        open runs under the work context. */
    method Open(attempt: Attempt, needsWork: bool) returns (ok: bool)
      requires Valid() && c.working && Enabled(c, OpenAsked(attempt, NextOrdinal(c, attempt.work, attempt.visit)))
      modifies this`c, this`log
      ensures Valid() && c.working && c.done == old(c).done && c.round == old(c).round
      ensures !c.step.opening && c.step.inflight == (if ok then 1 else 0)
      ensures c.step.current == Some(attempt)
    {
      hide Allowed, After, InForce, Starting, Sound;
      Do(OpenAsked(attempt, NextOrdinal(c, attempt.work, attempt.visit)));
      Block();
      ok := *;
      ok := ok && !(needsWork && c.workCanceled);
      Do(Opened(ok));
    }

    /** One Job attempt of a step: it is in flight from its open to its close. The
        accepted stage, or None when the step produced none it may be used for. */
    method RunJobStep(work: Work, inputs: seq<nat>) returns (r: Option<Stage>)
      requires Valid() && c.working && c.step.inflight == 0 && !c.step.opening && !c.step.held && !c.fenced
      requires !work.Register?
      requires work.Validate? ==>
                 && c.round.coded.Some? && c.round.coded.value.attempt.visit == c.round.repairs
                 && c.round.coded.value.stage.verdict.Certified? && inputs == SourceInputs(c.round.coded.value.stage)
      modifies this`c, this`log
      ensures Valid() && c.working && c.step.inflight == 0 && !c.step.opening && c.done == old(c).done
      ensures c.round.repairs == old(c).round.repairs && c.round.bound == old(c).round.bound
      ensures var accepted := Accepted(Attempt(work, old(c).round.repairs, inputs), if r.Some? then r.value else Stage(OtherVerdict, None, None));
              r.Some? ==> if work.Codegen? then c.round.coded == Some(accepted) && c.round.judged == None
                          else c.round.judged == Some(accepted) && c.round.coded == old(c).round.coded
    {
      hide Allowed, After, InForce, Starting, Sound;
      var attempt := Attempt(work, c.round.repairs, inputs);
      var ok := Open(attempt, true);
      if !ok {
        return None;
      }
      r := Attempted(attempt);
      Block();
      Do(Closed);
      var closed: bool := *;
      if !closed {
        return None;
      }
    }

    /** The launch, its create requests and the accepted stage of an open attempt. */
    method Attempted(attempt: Attempt) returns (r: Option<Stage>)
      requires Valid() && c.working && c.step.inflight == 1 && c.step.current == Some(attempt) && !attempt.work.Register?
      requires !c.step.opening
      modifies this`c, this`log
      ensures Valid() && c.working && c.step.inflight == 1 && !c.step.opening && c.step.current == Some(attempt) && c.done == old(c).done
      ensures r.Some? ==> c.round == RoundAfter(old(c).round, StageAccepted(Accepted(attempt, r.value)))
      ensures r.None? ==> c.round == old(c).round
    {
      hide Allowed, After, InForce, Starting, Sound;
      var expired: bool := *;
      if expired || c.workCanceled {
        return None;
      }
      Do(Launched);
      Block();
      var prepared: bool, requests: nat :| true;
      if !prepared {
        return None;
      }
      var i := 0;
      while i < requests && !c.workCanceled
        invariant Valid() && c.working && c.step.inflight == 1 && !c.step.opening && c.step.current == Some(attempt)
        invariant c.round == old(c).round && c.done == old(c).done
      {
        Do(Created);
        Block();
        i := i + 1;
      }
      Block();
      var found: bool, stage: Stage :| true;
      if !found {
        return None;
      }
      Do(StageAccepted(Accepted(attempt, stage)));
      return Some(stage);
    }

    /** Registers the certified source under its own attempt. */
    method RegisterCandidate() returns (ok: bool)
      requires Valid() && c.working && c.step.inflight == 0 && !c.step.opening && !c.step.held && !c.fenced
      requires c.round.coded.Some? && c.round.judged.Some? && c.round.judged.value.stage.verdict.Certified?
      modifies this`c, this`log
      ensures Valid() && c.done == old(c).done
      ensures ok ==> !c.fenced && Registered(log)
    {
      hide Allowed, After, InForce, Starting, Sound;
      var source, certification := c.round.coded.value.stage.source, c.round.judged.value.stage.evidence;
      if source.None? || certification.None? {
        return false;
      }
      // This open does not run under the work context.
      var open := Open(Attempt(Register, 0, []), false);
      if !open {
        return false;
      }
      ok := AskRegistration(source.value, certification.value);
      ghost var before := log;
      Do(Closed);
      RegisteredStays(before, log);
      // A fence that fell meanwhile fails the run; so does any other answer.
      ok := ok && !c.fenced;
    }

    /** The guarded registration, unless the work was canceled before it started. */
    method AskRegistration(source: nat, certification: nat) returns (ok: bool)
      requires Valid() && c.working && c.step.inflight == 1
      requires c.workCanceled || Enabled(c, RegisterStarted(source, certification))
      modifies this`c, this`log
      ensures Valid() && c.done == old(c).done && c.step.inflight == 1
      ensures ok ==> Registered(log)
    {
      hide Allowed, After, InForce, Starting, Sound;
      ok := false;
      if !c.workCanceled {
        Do(RegisterStarted(source, certification));
        ghost var at, before := |log| - 1, log;
        Block();
        ok := *;
        Do(RegisterAnswered(ok));
        ghost var to := |log| - 1;
        assert at < to && log[at] == before[at] && log[at].RegisterStarted? && log[to] == RegisterAnswered(ok);
      }
    }

    /** The lease ends with the run: one release occurrence, asked about until it
        is confirmed or the poll bound is reached, and recorded only then. */
    method ReleaseLease(polls: nat)
      requires Valid() && c.done
      modifies this`c, this`log
      ensures Valid() && |old(log)| <= |log| && log[..|old(log)|] == old(log) && c.fenced == old(c).fenced
    {
      hide Allowed, After, InForce, Starting, Sound;
      if c.lease.expires.None? || c.fenced {
        return;
      }
      var o := c.lease.occurrence + 1;
      var answer: LeaseAnswer :| !answer.Unrecorded?;
      Do(ReleaseAsked(o, answer));
      var i := 0;
      while !answer.Lost? && !answer.Released?
        invariant Valid() && c.done && !c.fenced && c.lease.occurrence == o && c.lease.last == Some(LeaseFact(o, answer))
        invariant !answer.Unrecorded? && |old(log)| <= |log| && log[..|old(log)|] == old(log)
        decreases polls - i
      {
        if i >= polls {
          return;
        }
        answer :| !answer.Unrecorded?;
        Do(Queried(o, answer));
        i := i + 1;
      }
      var recorded: bool := *;
      if recorded {
        Do(RecordedEnd(o));
      }
    }

    /** The bound of the definition in force. */
    method MaxRepairs(id: nat) returns (m: nat)
      ensures m == MaxRepairsOf(defs, id, viewRepairs)
    {
      m := viewRepairs;
      var i := 0;
      while i < |defs|
        invariant i <= |defs| && m == MaxRepairsOf(defs[..i], id, viewRepairs)
      {
        assert defs[..i + 1][..i] == defs[..i];
        if defs[i].id == id && defs[i].maxRepairs >= 0 {
          m := defs[i].maxRepairs;
        }
        i := i + 1;
      }
      assert defs[..i] == defs;
    }

    /** One round: a codegen attempt and the independent validation of its source. */
    method OneRound(inputs: seq<nat>) returns (end: RoundEnd, repair: seq<nat>)
      requires Valid() && c.working && !c.done && c.step.inflight == 0 && !c.step.opening
      modifies this`c, this`log
      ensures Valid() && c.working && !c.done && c.step.inflight == 0 && !c.step.opening
      // A round reruns only under a hold.
      ensures end.Rerun? ==> c.step.held && !c.fenced
      ensures end.AllCertified? ==>
                c.round.coded.Some? && c.round.judged.Some? && c.round.judged.value.stage.verdict.Certified?
    {
      hide Allowed, After, InForce, Starting, Sound;
      repair := [];
      var ok := AwaitRunnable();
      if !ok {
        return Stop, repair;
      }
      var bound := MaxRepairs(c.definition);
      Do(RoundBegan(c.definition, bound));
      var coded := RunJobStep(Codegen, inputs);
      if c.fenced {
        return Stop, repair;
      }
      if c.step.held && !c.stopped && coded.None? {
        // A hold was applied while the step ran: the step reruns after the
        // resume. A stage accepted before the hold is kept.
        return Rerun, repair;
      }
      if coded.None? || !coded.value.verdict.Certified? {
        return Stop, repair;
      }
      ok := AwaitRunnable();
      if !ok {
        return Stop, repair;
      }
      var judged := RunJobStep(Validate, SourceInputs(coded.value));
      if c.fenced {
        return Stop, repair;
      }
      if c.step.held && !c.stopped && judged.None? {
        return Rerun, repair;
      }
      if judged.None? {
        return Stop, repair;
      }
      if judged.value.verdict.Certified? {
        return AllCertified, repair;
      }
      if !judged.value.verdict.Repairable? || c.round.repairs >= bound {
        return Stop, repair;
      }
      Do(Repaired);
      repair := SourceInputs(coded.value) + (if judged.value.evidence.Some? then [judged.value.evidence.value] else []);
      return Repair, repair;
    }

    /** The whole run, watched for a number of rounds. It succeeds only when it
        registered a candidate. */
    method Generate(rounds: nat, polls: nat) returns (end: RunEnd)
      requires Valid() && c == start
      modifies this`c, this`log
      ensures Valid()
      ensures end.Succeeded? ==> !c.fenced && Registered(log)
    {
      hide Allowed, After, InForce, Registered;
      var ok := AwaitRunnable();
      var admitted: bool := *;
      if ok && admitted {
        ok := AcquireLease();
        if ok {
          Do(StartedWork);
          end := Author(rounds);
          if end.StillRunning? {
            return;
          }
        } else {
          end := Ended;
        }
      } else {
        end := Ended;
      }
      ghost var before := log;
      Finish(polls);
      RegisteredStays(before, log);
    }

    /** However it ended, the run stops its supervisor and gives its lease back. */
    method Finish(polls: nat)
      requires Valid() && !c.done
      modifies this`c, this`log
      ensures Valid() && c.fenced == old(c).fenced && old(log) <= log
    {
      hide Allowed, After, InForce;
      FinishAlways();
      Do(Finished);
      ReleaseLease(polls);
    }

    lemma FinishAlways()
      requires Valid()
      ensures Enabled(c, Finished) <==> !c.done
    {
    }

    /** The authored part, under the supervised lease. */
    method Author(rounds: nat) returns (end: RunEnd)
      requires Valid() && c.working && !c.done && c.step.inflight == 0 && !c.step.opening
      modifies this`c, this`log
      ensures Valid() && !c.done
      ensures end.Succeeded? ==> !c.fenced && Registered(log)
    {
      hide Valid, Apply, Enabled;
      var inputs: seq<nat> := [];
      var i := 0;
      while i < rounds
        invariant Valid() && c.working && !c.done && c.step.inflight == 0 && !c.step.opening
      {
        var round, repair := OneRound(inputs);
        if round.Stop? {
          return Ended;
        }
        if round.Repair? {
          inputs := repair;
        }
        if round.AllCertified? {
          var ok := AwaitRunnable();
          if ok {
            ok := RegisterCandidate();
          }
          return if ok then Succeeded else Ended;
        }
        i := i + 1;
      }
      return StillRunning;
    }

    /** Takes a lease event of the supervisor. */
    method Ask(e: Event)
      requires Valid() && Enabled(c, e) && c.working && !c.fenced
      requires e.Asked? || e.Queried? || e.RecordedHeld?
      modifies this`c, this`log
      ensures Valid() && c.working && !c.fenced && c.done == old(c).done && c.stopped == old(c).stopped && c.now == old(c).now
      ensures c.lease == LeaseAfter(old(c).lease, e)
    {
      hide Valid;
      Do(e);
    }
  }

  lemma OneEvent(c: Control, e: Event)
    requires Enabled(c, e)
    ensures Allowed(c, [e]) && After(c, [e]) == Apply(c, e)
  {
    assert [e][1..] == [];
  }

  lemma UndisturbedSelf(c: Control)
    ensures Undisturbed(c, c)
  {
  }

  lemma LeaseAloneSelf(c: Control)
    ensures LeaseAlone(c, c)
  {
  }

  lemma NoRound(c: Control, e: Event)
    requires Interferes(c, e)
    ensures !e.RoundBegan?
  {
  }

  lemma TickAlways(c: Control, e: Event)
    requires e.Tick?
    ensures Enabled(c, e) && Apply(c, e).now == c.now + e.elapsed && LeavesLease(e)
  {
  }
}
