/** The wait for the maintainer's decision: polls on durable timers up to an
    absolute deadline, split over runs of a bounded number of polls. */
module ApprovalWait {

  datatype DecisionState = Undecided | Approved | Rejected | Invalidated

  datatype Decision = Decision(state: DecisionState, subject: nat)

  /** How a wait ended: Continue at the poll bound of a run. */
  datatype Wait = Decided(decision: Decision) | Expired | Continue | Canceled | Unavailable

  /** The time of the next poll: a full pause, or what is left to the deadline. */
  function NextPoll(now: int, deadline: int, poll: int): int {
    now + if deadline - now < poll then deadline - now else poll
  }

  /** One wait that is never split, against a decision that depends on the time it
      is read; and when it ended. */
  function Unsplit(decide: int -> Decision, now: int, deadline: int, poll: int): (Wait, int)
    requires poll > 0
    decreases deadline - now
  {
    if !decide(now).state.Undecided? then (Decided(decide(now)), now)
    else if now >= deadline then (Expired, now)
    else Unsplit(decide, NextPoll(now, deadline, poll), deadline, poll)
  }

  /** One run of the wait, after some polls. */
  function OneRun(decide: int -> Decision, now: int, deadline: int, poll: int, bound: int, polls: nat): (Wait, int)
    decreases bound - polls
  {
    if !decide(now).state.Undecided? then (Decided(decide(now)), now)
    else if now >= deadline then (Expired, now)
    else if polls + 1 >= bound then (Continue, now)
    else OneRun(decide, NextPoll(now, deadline, poll), deadline, poll, bound, polls + 1)
  }

  /** The wait over a chain of runs; each starts when the one before continued as
      new, with the same deadline. */
  function Chain(decide: int -> Decision, now: int, deadline: int, poll: int, bound: int, runs: nat): (Wait, int)
    decreases runs
  {
    if runs == 0 then (Continue, now)
    else
      var (w, at) := OneRun(decide, now, deadline, poll, bound, 0);
      if w.Continue? then Chain(decide, at, deadline, poll, bound, runs - 1) else (w, at)
  }

  /** A run that ends decides as the unsplit wait; one that continues stopped at a
      poll of the unsplit wait, and with a bound above one it moved on. */
  lemma {:induction false} RunIsPrefix(decide: int -> Decision, now: int, deadline: int, poll: int, bound: int, polls: nat)
    requires poll > 0
    ensures var (w, at) := OneRun(decide, now, deadline, poll, bound, polls);
            && (!w.Continue? ==> (w, at) == Unsplit(decide, now, deadline, poll))
            && (w.Continue? ==>
                 && Unsplit(decide, at, deadline, poll) == Unsplit(decide, now, deadline, poll)
                 && now <= at < deadline && decide(at).state.Undecided?
                 && (polls + 1 < bound ==> now < at))
    decreases bound - polls
  {
    if decide(now).state.Undecided? && now < deadline && polls + 1 < bound {
      RunIsPrefix(decide, NextPoll(now, deadline, poll), deadline, poll, bound, polls + 1);
    }
  }

  /** The split wait decides as the unsplit one, when it does, and it does within
      as many runs as instants are left when runs may poll twice. */
  lemma {:induction false} ChainIsUnsplit(decide: int -> Decision, now: int, deadline: int, poll: int, bound: int, runs: nat)
    requires poll > 0
    ensures var (w, at) := Chain(decide, now, deadline, poll, bound, runs);
            && (!w.Continue? ==> (w, at) == Unsplit(decide, now, deadline, poll))
            && (w.Continue? ==> Unsplit(decide, at, deadline, poll) == Unsplit(decide, now, deadline, poll))
            && (bound >= 2 && runs > 0 && now + runs > deadline ==> !w.Continue?)
    decreases runs
  {
    if runs > 0 {
      RunIsPrefix(decide, now, deadline, poll, bound, 0);
      var (w, at) := OneRun(decide, now, deadline, poll, bound, 0);
      if w.Continue? {
        ChainIsUnsplit(decide, at, deadline, poll, bound, runs - 1);
      }
    }
  }

  /** Some number of runs ends the wait. */
  ghost predicate Ends(decide: int -> Decision, now: int, deadline: int, poll: int, bound: int) {
    exists runs: nat :: !Chain(decide, now, deadline, poll, bound, runs).0.Continue?
  }

  /** A chain whose runs may poll only once never waits: it stays where it is. */
  lemma {:induction false} OnePollNeverWaits(decide: int -> Decision, now: int, deadline: int, poll: int, bound: int, runs: nat)
    requires bound <= 1 && decide(now).state.Undecided? && now < deadline
    ensures Chain(decide, now, deadline, poll, bound, runs) == (Continue, now)
    decreases runs
  {
    if runs > 0 {
      OnePollNeverWaits(decide, now, deadline, poll, bound, runs - 1);
    }
  }

  /** Exactly when the split wait ends as the unsplit one does: runs may poll
      twice, or there is nothing to wait for. */
  lemma SplitEndsExactlyWhen(decide: int -> Decision, now: int, deadline: int, poll: int, bound: int)
    requires poll > 0
    ensures Ends(decide, now, deadline, poll, bound) <==>
            bound >= 2 || !decide(now).state.Undecided? || now >= deadline
  {
    if bound >= 2 {
      var runs := if deadline > now then deadline - now + 1 else 1;
      ChainIsUnsplit(decide, now, deadline, poll, bound, runs);
      assert !Chain(decide, now, deadline, poll, bound, runs).0.Continue?;
    } else if !decide(now).state.Undecided? || now >= deadline {
      assert !Chain(decide, now, deadline, poll, bound, 1).0.Continue?;
    } else {
      forall runs: nat ensures Chain(decide, now, deadline, poll, bound, runs).0.Continue? {
        OnePollNeverWaits(decide, now, deadline, poll, bound, runs);
      }
    }
  }
}
