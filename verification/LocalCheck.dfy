/** The LocalCheck run: one attempt, one launch, its cleanup and the close of the
    attempt, over the chain of runs a long close continues as new. */
module LocalCheck {
  import opened Wrappers
  import opened ApiServer
  import opened Launcher
  import opened CreateLedger
  import R = LaunchRun
  import W = Waits

  datatype Outcome = Completed | Failed | InfrastructureFailed | Canceled | OutcomeUnknown

  datatype Cleanup = NotRequired | CleanupUnknown | Complete

  /** The first close of the attempt, and the one that settles an unknown cleanup. */
  datatype CloseId = First | SettledClose

  datatype CloseCommand = CloseCommand(id: CloseId, outcome: Outcome, cleanup: Cleanup, failureCode: nat)

  type Log = seq<W.Event<CloseCommand>>

  /** What a close continues as new with. */
  datatype CloseCarry = CloseCarry(launched: bool, command: CloseCommand, interval: Time)

  datatype CloseEnd = Delivered | Declined(notFound: bool) | RollsOver(interval: Time)

  datatype End = Ends | Fails | Continues(carry: CloseCarry)

  /** A close that is not waited on is delivered by the first accepted answer. */
  predicate WaitsOn(wait: bool, c: CloseCommand) {
    wait && !c.cleanup.CleanupUnknown? && !c.outcome.OutcomeUnknown?
  }

  /** The run may resume this log: nothing was polled yet, or the last run rolled
      over, or the command was kept and is due again. */
  ghost predicate Resumes(log: Log, start: Time, c: CloseCommand, p: W.Pacing) {
    && W.Right(log, c, p) && (log == [] || !log[|log| - 1].Polled?) && W.PollerWaits(log) == 0
    && var first := if start > 0 then start else p.initial;
       W.Split(log, p) == W.Pace(first, first)
  }

  /** What a finished close wait says about its log. */
  ghost predicate Closed(end: CloseEnd, log: Log, start: Time, c: CloseCommand, wait: bool, p: W.Pacing) {
    && W.Right(log, c, p) && log != []
    && (W.Split(log, p).resume == if start > 0 then start else p.initial)
    && log[|log| - 1].Polled? && log[|log| - 1].command == c
    && (end.Delivered? ==> (WaitsOn(wait, c) ==> log[|log| - 1].answer.Settled?) && !log[|log| - 1].answer.Refused?)
    && (end.Declined? ==> log[|log| - 1].answer == W.Refused(end.notFound))
    && (end.RollsOver? ==> WaitsOn(wait, c) && W.Reconciled(log) && end.interval == W.Split(log, p).next)
  }

  class Closer {
    const cluster: Cluster
    const bounds: R.Bounds
    const p: W.Pacing

    constructor (cluster: Cluster, bounds: R.Bounds, p: W.Pacing)
      ensures this.cluster == cluster && this.bounds == bounds && this.p == p
    {
      this.cluster, this.bounds, this.p := cluster, bounds, p;
    }

    /** Reenters the one close command until Control answers, and while Control
        keeps the operation reconciling after a definite cleanup. */
    method CloseAttemptFrom(c: CloseCommand, start: Time, wait: bool, keep: set<nat>, before: Log) returns (end: CloseEnd, log: Log)
      requires Sound(cluster.s) && Resumes(before, start, c, p) && 0 < p.initial && 0 < p.max
      modifies cluster`s
      ensures Sound(cluster.s) && Reaches(old(cluster.s), cluster.s, keep)
      ensures Closed(end, log, start, c, wait, p)
    {
      ReadResumes(before, start, c, p);
      hide W.Right, W.Split, W.PollerWaits, W.May, W.Reconciled, W.Unkept, Sound, Reaches, Later, Resumes, Closed;
      log := before;
      var poller := new W.Poller(p, start);
      ReachesSelf(cluster.s, keep);
      while true
        invariant Sound(cluster.s) && Reaches(old(cluster.s), cluster.s, keep)
        invariant W.Right(log, c, p) && (log == [] || !log[|log| - 1].Polled?)
        invariant W.Split(log, p).resume == if start > 0 then start else p.initial
        invariant poller.interval == W.Split(log, p).next && poller.polls == W.PollerWaits(log)
        invariant fresh(poller) && poller.max == p.max && poller.bound == p.bound && poller.polls <= p.bound
        decreases p.bound - poller.polls
      {
        var answer: W.PollAnswer :| true;
        var e := W.Polled(c, answer);
        W.MayPoll(log, e, c, p);
        W.Push(log, e, c, p);
        log := log + [e];
        var suggested: bool := *;
        MayClose(log, start, c, wait, p, poller.interval);
        if answer.Refused? {
          return Declined(answer.notFound), log;
        }
        if !wait || !answer.Reconciling? || c.cleanup.CleanupUnknown? || c.outcome.OutcomeUnknown? {
          return Delivered, log;
        }
        if poller.Exhausted(suggested) {
          return RollsOver(poller.interval), log;
        }
        var d := poller.Wait();
        W.MayPause(log, W.Waited(d), c, p);
        W.Push(log, W.Waited(d), c, p);
        log := log + [W.Waited(d)];
        ghost var s := cluster.s;
        cluster.Wait(d, keep);
        ReachesKeeps(s, cluster.s, keep);
        ReachesTrans(old(cluster.s), s, cluster.s, keep);
      }
    }

    /** Keeps the close of a prepared launch for the recovery while Control does
        not know the attempt, on timers with capped backoff up to the bound. */
    method CloseLaunchAttemptFrom(launched: bool, c: CloseCommand, resume: Time, wait: bool, keep: set<nat>, before: Log)
      returns (end: CloseEnd, log: Log, waits: seq<Time>, began: seq<Time>, from: Time)
      requires Sound(cluster.s) && Resumes(before, resume, c, p) && 0 < p.initial && 0 < p.max
      requires 0 < bounds.reconcileInitial && 0 < bounds.reconcileMax
      modifies cluster`s
      ensures Sound(cluster.s) && Reaches(old(cluster.s), cluster.s, keep)
      ensures Closed(end, log, resume, c, wait, p)
      // Only a launch's close is kept, and the timers stay within the bound.
      ensures waits != [] ==> launched
      ensures |began| == |waits|
      ensures waits != [] ==> R.Paced(waits, began, bounds, from, cluster.s.clock)
      ensures from >= old(cluster.s.clock)
      ensures end == Declined(true) && launched ==>
                cluster.s.clock + R.Backoff(bounds.reconcileInitial, bounds.reconcileMax, |waits|) > from + bounds.reconcileDuration
    {
      hide Resumes, Closed, Sound, Reaches, Later, R.Paced, R.Backoff;
      waits, began := [], [];
      end, log := CloseAttemptFrom(c, resume, wait, keep, before);
      ClockMoves(old(cluster.s), cluster.s, keep);
      from := cluster.s.clock;
      if !launched || end != Declined(true) {
        return;
      }
      var interval := bounds.reconcileInitial;
      R.PacedStarts(bounds, from);
      while end == Declined(true)
        invariant Sound(cluster.s) && Reaches(old(cluster.s), cluster.s, keep) && from >= old(cluster.s.clock)
        invariant Closed(end, log, resume, c, wait, p)
        invariant R.Paced(waits, began, bounds, from, cluster.s.clock) && |began| == |waits|
        invariant interval == R.Backoff(bounds.reconcileInitial, bounds.reconcileMax, |waits|)
        decreases from + bounds.reconcileDuration - cluster.s.clock
      {
        R.BackoffPositive(bounds.reconcileInitial, bounds.reconcileMax, |waits|);
        if cluster.s.clock - from + interval > bounds.reconcileDuration {
          return;
        }
        ghost var s, at := cluster.s, cluster.s.clock;
        var began' := cluster.s.clock;
        cluster.Wait(interval, keep);
        ReachesKeeps(s, cluster.s, keep);
        ReachesTrans(old(cluster.s), s, cluster.s, keep);
        ghost var due := cluster.s;
        KeptClose(end, log, W.Resubmitted(interval), resume, c, wait, p);
        log := log + [W.Resubmitted(interval)];
        end, log := CloseAttemptFrom(c, resume, wait, keep, log);
        ReachesTrans(old(cluster.s), due, cluster.s, keep);
        ClockMoves(due, cluster.s, keep);
        R.PacedPush(waits, began, bounds, from, at, cluster.s.clock);
        waits, began := waits + [interval], began + [began'];
        interval := R.Doubled(interval, bounds.reconcileMax);
      }
    }

    /** Delivers a close, and continues the run as new when the wait rolls over.
        The command never changes. */
    method CloseOrContinue(carry: CloseCarry, keep: set<nat>, before: Log) returns (end: End, log: Log)
      requires Sound(cluster.s) && Resumes(before, carry.interval, carry.command, p) && 0 < p.initial && 0 < p.max
      requires 0 < bounds.reconcileInitial && 0 < bounds.reconcileMax
      modifies cluster`s
      ensures Sound(cluster.s) && Reaches(old(cluster.s), cluster.s, keep)
      ensures W.Right(log, carry.command, p) && log != []
      ensures end.Ends? ==> TookClose(log, carry.command)
      ensures end.Fails? ==> log[|log| - 1].Polled? && log[|log| - 1].answer.Refused?
      ensures end.Continues? ==>
                && end.carry.(interval := carry.interval) == carry && WaitsOn(true, carry.command)
                && Resumes(log, end.carry.interval, carry.command, p) && log[|log| - 1].RolledOver?
    {
      hide Resumes, Closed, Sound, Reaches, Later;
      var closed, waits, began, from;
      closed, log, waits, began, from := CloseLaunchAttemptFrom(carry.launched, carry.command, carry.interval, true, keep, before);
      ReadClosed(closed, log, carry.interval, carry.command, p);
      match closed {
        case Delivered => end := Ends;
        case Declined(_) => end := Fails;
        case RollsOver(interval) =>
          Rolled(closed, log, carry.interval, carry.command, p);
          log := log + [W.RolledOver];
          end := Continues(carry.(interval := interval));
      }
    }
  }

  /** Control accepted the close: after a definite cleanup, with nothing left to
      wait for. */
  ghost predicate TookClose(log: Log, c: CloseCommand) {
    && log != [] && log[|log| - 1].Polled? && log[|log| - 1].command == c && !log[|log| - 1].answer.Refused?
    && (WaitsOn(true, c) ==> log[|log| - 1].answer.Settled?)
  }

  lemma ClockMoves(s: Server, t: Server, keep: set<nat>)
    requires Sound(s) && Reaches(s, t, keep)
    ensures Later(s, t) && s.clock <= t.clock
  {
    ReachesKeeps(s, t, keep);
  }

  lemma KeptClose(end: CloseEnd, log: Log, e: W.Event<CloseCommand>, start: Time, c: CloseCommand, wait: bool, p: W.Pacing)
    requires Closed(end, log, start, c, wait, p) && end == Declined(true) && e.Resubmitted?
    ensures Resumes(log + [e], start, c, p)
  {
    W.Push(log, e, c, p);
  }

  lemma ReadResumes(log: Log, start: Time, c: CloseCommand, p: W.Pacing)
    requires Resumes(log, start, c, p)
    ensures var first := if start > 0 then start else p.initial;
            && W.Right(log, c, p) && (log == [] || !log[|log| - 1].Polled?) && W.PollerWaits(log) == 0
            && W.Split(log, p) == W.Pace(first, first)
  {
  }

  lemma MayClose(log: Log, start: Time, c: CloseCommand, wait: bool, p: W.Pacing, interval: Time)
    requires W.Right(log, c, p) && log != [] && log[|log| - 1].Polled? && log[|log| - 1].command == c
    requires W.Split(log, p) == W.Pace(interval, if start > 0 then start else p.initial)
    ensures var a := log[|log| - 1].answer;
      && (a.Refused? ==> Closed(Declined(a.notFound), log, start, c, wait, p))
      && (!a.Refused? && (!WaitsOn(wait, c) || !a.Reconciling?) ==> Closed(Delivered, log, start, c, wait, p))
      && (a.Reconciling? && WaitsOn(wait, c) ==> Closed(RollsOver(interval), log, start, c, wait, p))
  {
  }

  lemma ReadClosed(end: CloseEnd, log: Log, start: Time, c: CloseCommand, p: W.Pacing)
    requires Closed(end, log, start, c, true, p)
    ensures W.Right(log, c, p) && log != [] && (end.Delivered? ==> TookClose(log, c))
    ensures end.RollsOver? ==> WaitsOn(true, c)
    ensures end.Declined? ==> log[|log| - 1].Polled? && log[|log| - 1].answer.Refused?
  {
  }

  lemma Rolled(end: CloseEnd, log: Log, start: Time, c: CloseCommand, p: W.Pacing)
    requires Closed(end, log, start, c, true, p) && end.RollsOver? && 0 < p.initial && 0 < p.max
    ensures Resumes(log + [W.RolledOver], end.interval, c, p)
  {
    W.Push(log, W.RolledOver, c, p);
    W.PacePositive(log, p);
  }

  /** A fresh close resumes nothing. */
  lemma FreshClose(c: CloseCommand, p: W.Pacing)
    ensures Resumes([], 0, c, p)
  {
  }

  class LocalCheck {
    const run: R.Run
    const closer: Closer
    /** The close that left cleanup unknown, if there was one, and the close of
        which the chain's end decides. */
    var unsettled: Log
    var closing: Log

    constructor (run: R.Run, p: W.Pacing)
      ensures this.run == run && closer.cluster == run.cluster && closer.bounds == run.bounds && closer.p == p
      ensures unsettled == [] && closing == []
    {
      this.run := run;
      closer := new Closer(run.cluster, run.bounds, p);
      unsettled, closing := [], [];
    }

    ghost predicate Ready()
      reads this
    {
      && closer.cluster == run.cluster && closer.bounds == run.bounds
      && 0 < closer.p.initial && 0 < closer.p.max
      && 0 < run.bounds.reconcileInitial && 0 < run.bounds.reconcileMax
    }

    /** The command that ends the chain is the evidence: complete with the launch
        stopped for good, not required without a launch; a cleanup that was
        unknown first is settled under the same outcome. */
    ghost predicate Evident(launched: bool, c: CloseCommand)
      reads this, run.cluster
    {
      && (c.cleanup.Complete? <==> launched) && (c.cleanup.NotRequired? <==> !launched)
      && (launched ==> Stopped(run.cluster.s))
      && !c.outcome.OutcomeUnknown?
      && (c.id.SettledClose? <==> unsettled != [])
      && (unsettled != [] ==> launched && TookClose(unsettled, c.(id := First, cleanup := CleanupUnknown)))
    }

    /** The business part: what the attempt's outcome is, and whether a launch was
        prepared for it. */
    method Check(spec: LaunchSpec) returns (outcome: Outcome, failureCode: nat, launched: bool)
      requires run.Valid() && run.ledger.View() == NOTHING
      modifies run`now, run.ledger, run.cluster`s
      ensures run.Valid() && !outcome.OutcomeUnknown?
      ensures !launched ==> run.ledger.View() == NOTHING
    {
      failureCode := *;
      var expired: bool, prepared: bool := *, *;
      if expired || !prepared {
        var o: Outcome :| !o.OutcomeUnknown? && !o.Completed?;
        return o, failureCode, false;
      }
      var retried, last, canceled := run.CreateJob(spec);
      if !last.JobRef? {
        return if canceled then Canceled else InfrastructureFailed, failureCode, true;
      }
      // Observing the Job, registering its Pods, verifying and accepting the result.
      var o: Outcome :| !o.OutcomeUnknown?;
      return o, failureCode, true;
    }

    /** Delivers one close while the run keeps its agreement with the server. */
    method Close(carry: CloseCarry) returns (end: End)
      requires Ready() && run.Valid() && closing == [] && carry.interval == 0
      modifies this`closing, run`now, run.cluster`s
      ensures run.Valid() && run.now == run.cluster.s.clock && Later(old(run.cluster.s), run.cluster.s)
      ensures W.Right(closing, carry.command, closer.p) && closing != []
      ensures end.Ends? ==> TookClose(closing, carry.command)
      ensures end.Continues? ==>
                && end.carry.(interval := carry.interval) == carry && WaitsOn(true, carry.command)
                && Resumes(closing, end.carry.interval, carry.command, closer.p)
    {
      hide Resumes, TookClose, Sound, Reaches, Later, W.Right, WellKept, Timed, Covered, Evidenced, Numbered, ApiServer.Kept;
      ghost var before, v := run.cluster.s, run.ledger.View();
      FreshClose(carry.command, closer.p);
      end, closing := closer.CloseOrContinue(carry, Members(run.ledger.unaccounted), []);
      AgreementIsStable(before, run.cluster.s, v, run.cluster.maxHandling);
      R.LaterClock(before, run.cluster.s);
      run.now := run.cluster.s.clock;
    }

    /** What the chain knows after a run: an end without an error only after
        Control accepted a close that is the evidence, or everything the next run
        needs to deliver the same command. */
    ghost predicate Reached(end: End, launched: bool, c: CloseCommand)
      reads this, run.cluster
    {
      && Sound(run.cluster.s)
      && (end.Ends? ==> Evident(launched, c) && TookClose(closing, c) && W.Right(closing, c, closer.p))
      && (end.Continues? ==>
           && Evident(launched, c) && end.carry.launched == launched && end.carry.command == c
           && Resumes(closing, end.carry.interval, c, closer.p) && closing != [])
    }

    /** The first run: the attempt, its launch, the cleanup and the close; a
        cleanup that stays unknown is reconciled and settled, or fails visibly. */
    method Start(spec: LaunchSpec, lifetimeRule: bool) returns (end: End, launched: bool, c: CloseCommand)
      requires Ready() && run.Valid() && run.ledger.View() == NOTHING && unsettled == [] && closing == []
      modifies this, run, run.ledger, run.client, run.cluster
      ensures Ready() && Reached(end, launched, c)
    {
      hide Resumes, TookClose, Later, W.Right, WellKept, Timed, Covered, Evidenced, Numbered, Stopped;
      launched, c := false, CloseCommand(First, Failed, NotRequired, 0);
      var attempted: bool := *;
      if !attempted {
        // Fenced or unknown operation: nothing was launched.
        return Fails, launched, c;
      }
      var outcome, failureCode;
      outcome, failureCode, launched := Check(spec);
      var cleanup := NotRequired;
      if launched {
        cleanup := CleanupUnknown;
        var done, passes := run.CleanupRound(lifetimeRule);
        if done {
          cleanup := Complete;
        }
      }
      c := CloseCommand(First, outcome, cleanup, failureCode);
      ghost var cleaned := run.cluster.s;
      end := Close(CloseCarry(launched, c, 0));
      if cleanup.Complete? {
        StoppedLater(cleaned, run.cluster.s);
      }
      if !end.Ends? || !cleanup.CleanupUnknown? {
        return;
      }
      // Durable recovery owner: reconcile the original launch until the backend
      // settles it, then settle the operation with a second close.
      unsettled, closing := closing, [];
      var settled, waits, began := run.ReconcileCleanup(lifetimeRule);
      if !settled {
        return Fails, launched, c;
      }
      c := CloseCommand(SettledClose, outcome, Complete, failureCode);
      cleaned := run.cluster.s;
      end := Close(CloseCarry(launched, c, 0));
      StoppedLater(cleaned, run.cluster.s);
    }

    /** The run a close continued as new into: it only delivers the close. */
    method CloseOnly(carry: CloseCarry) returns (end: End)
      requires Ready() && Sound(run.cluster.s) && Evident(carry.launched, carry.command)
      requires Resumes(closing, carry.interval, carry.command, closer.p)
      modifies this`closing, run.cluster`s
      ensures Ready() && Reached(end, carry.launched, carry.command)
      // It fails only when Control refused the close.
      ensures end.Fails? ==> closing != [] && closing[|closing| - 1].Polled? && closing[|closing| - 1].answer.Refused?
    {
      hide Resumes, TookClose, Later, W.Right, Stopped, Sound, Reaches;
      ghost var before := run.cluster.s;
      end, closing := closer.CloseOrContinue(carry, {}, closing);
      ClockMoves(before, run.cluster.s, {});
      if carry.launched {
        StoppedLater(before, run.cluster.s);
      }
    }

    /** The chain, watched for any number of runs after the first. It ends without
        an error only when Control accepted a close of exactly the attempt's
        outcome, with cleanup complete when a launch was prepared: then nothing
        runs under the launch key and nothing ever will. */
    method Chain(spec: LaunchSpec, lifetimeRule: bool, runs: nat) returns (end: End, launched: bool, c: CloseCommand)
      requires Ready() && run.Valid() && run.ledger.View() == NOTHING && unsettled == [] && closing == []
      modifies this, run, run.ledger, run.client, run.cluster
      ensures Reached(end, launched, c)
      ensures end.Ends? ==> closing != [] && closing[|closing| - 1] == W.Polled(c, W.Settled)
      ensures end.Ends? && launched ==> c.cleanup.Complete? && Stopped(run.cluster.s)
      ensures end.Ends? && !launched ==> c.cleanup.NotRequired?
    {
      hide Resumes, Later, W.Right, Stopped, Sound;
      end, launched, c := Start(spec, lifetimeRule);
      var i := 0;
      while end.Continues? && i < runs
        invariant Ready() && Reached(end, launched, c)
      {
        end := CloseOnly(end.carry);
        i := i + 1;
      }
    }
  }
}
