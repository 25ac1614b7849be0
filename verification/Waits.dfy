/** The waits on Control: a durable command polled with capped backoff, over a
    chain of runs that continue as new after a bounded number of polls. */
module Waits {
  import opened ApiServer
  import opened LaunchRun

  datatype PollAnswer = Refused(notFound: bool) | Reconciling | Settled

  /** What the chain of one wait did, in order. */
  datatype Event<C> =
    | Polled(command: C, answer: PollAnswer)
    | Waited(duration: Time)
    /** The command was kept for a while and is submitted again. */
    | Resubmitted(duration: Time)
    | RolledOver

  const DEFAULT_MAX: Time := 300_000_000_000
  const DEFAULT_BOUND: nat := 500

  datatype Pacing = Pacing(initial: Time, max: Time, bound: nat)

  /** The configured pacing; what a history did not record has a default. */
  function PacingOf(initial: Time, max: Time, bound: int): Pacing {
    Pacing(initial, if max <= 0 then DEFAULT_MAX else max, if bound <= 0 then DEFAULT_BOUND else bound)
  }

  /** Paces one wait of one run. */
  class Poller {
    var interval: Time
    const max: Time
    const bound: nat
    var polls: nat

    /** start is the backoff a continued run carries, zero for a fresh one. */
    constructor (p: Pacing, start: Time)
      ensures interval == (if start > 0 then start else p.initial) && max == p.max && bound == p.bound && polls == 0
    {
      interval := if start > 0 then start else p.initial;
      max, bound, polls := p.max, p.bound, 0;
    }

    predicate Exhausted(suggested: bool)
      reads this
    {
      polls >= bound || suggested
    }

    /** The wait to sleep now. */
    method Wait() returns (d: Time)
      modifies this
      ensures d == old(interval) && polls == old(polls) + 1 && interval == Doubled(old(interval), max)
    {
      d := interval;
      polls := polls + 1;
      interval := if 2 * interval < max then 2 * interval else max;
    }
  }

  /** The pace of a chain: the wait that comes next, and the one a resubmission
      starts from again. */
  datatype Pace = Pace(next: Time, resume: Time)

  /** The pace after what a chain of runs did: a rollover carries the interval. */
  function Split<C>(log: seq<Event<C>>, p: Pacing): Pace {
    if log == [] then Pace(p.initial, p.initial)
    else
      var before := Split(log[..|log| - 1], p);
      match log[|log| - 1]
      case Polled(_, _) => before
      case Waited(_) => before.(next := Doubled(before.next, p.max))
      case Resubmitted(_) => before.(next := before.resume)
      case RolledOver => before.(resume := before.next)
  }

  /** The next wait of one unbounded run that did the same. */
  function Whole<C>(log: seq<Event<C>>, p: Pacing): Time {
    if log == [] then p.initial
    else
      var before := Whole(log[..|log| - 1], p);
      match log[|log| - 1]
      case Waited(_) => Doubled(before, p.max)
      case Resubmitted(_) => p.initial
      case _ => before
  }

  /** The waits since the poller was made. */
  function PollerWaits<C>(log: seq<Event<C>>): nat {
    if log == [] then 0
    else
      match log[|log| - 1]
      case Waited(_) => PollerWaits(log[..|log| - 1]) + 1
      case Polled(_, _) => PollerWaits(log[..|log| - 1])
      case _ => 0
  }

  ghost predicate Reconciled<C>(log: seq<Event<C>>) {
    log != [] && log[|log| - 1].Polled? && log[|log| - 1].answer.Reconciling?
  }

  /** What may come next: the one command is polled first and after every pause;
      only a reconciling answer is waited on or carried over; only a command
      Control does not know is kept for later. */
  ghost predicate May<C>(log: seq<Event<C>>, e: Event<C>, command: C, p: Pacing) {
    match e
    case Polled(c, _) => c == command && (log == [] || !log[|log| - 1].Polled?)
    case Waited(d) => Reconciled(log) && d == Split(log, p).next && PollerWaits(log) < p.bound
    case RolledOver => Reconciled(log)
    case Resubmitted(_) => log != [] && log[|log| - 1] == Polled(command, Refused(true))
  }

  ghost predicate Right<C>(log: seq<Event<C>>, command: C, p: Pacing) {
    forall i :: 0 <= i < |log| ==> May(log[..i], log[i], command, p)
  }

  lemma Push<C>(log: seq<Event<C>>, e: Event<C>, command: C, p: Pacing)
    requires Right(log, command, p) && May(log, e, command, p)
    ensures var l := log + [e];
      && Right(l, command, p)
      && Split(l, p) == (match e
                         case Polled(_, _) => Split(log, p)
                         case Waited(_) => Split(log, p).(next := Doubled(Split(log, p).next, p.max))
                         case Resubmitted(_) => Split(log, p).(next := Split(log, p).resume)
                         case RolledOver => Split(log, p).(resume := Split(log, p).next))
      && PollerWaits(l) == (match e
                            case Waited(_) => PollerWaits(log) + 1
                            case Polled(_, _) => PollerWaits(log)
                            case _ => 0)
      && Reconciled(l) == (e.Polled? && e.answer.Reconciling?)
  {
    var l := log + [e];
    assert forall i :: 0 <= i <= |log| ==> l[..i] == log[..i];
    assert log[..|log|] == log && l[..|l| - 1] == log && l[|log|] == e;
  }

  lemma MayPoll<C>(log: seq<Event<C>>, e: Event<C>, command: C, p: Pacing)
    requires e.Polled? && e.command == command && (log == [] || !log[|log| - 1].Polled?)
    ensures May(log, e, command, p) && (Unkept(log) ==> Unkept(log + [e]))
  {
  }

  lemma MayPause<C>(log: seq<Event<C>>, e: Event<C>, command: C, p: Pacing)
    requires Reconciled(log)
    requires e.RolledOver? || (e.Waited? && e.duration == Split(log, p).next && PollerWaits(log) < p.bound)
    ensures May(log, e, command, p) && (Unkept(log) ==> Unkept(log + [e]))
  {
  }

  lemma NothingYet<C>(log: seq<Event<C>>, command: C, p: Pacing)
    requires log == []
    ensures Right(log, command, p) && Split(log, p) == Pace(p.initial, p.initial) && PollerWaits(log) == 0 && Unkept(log)
  {
  }

  function WaitsOf<C>(log: seq<Event<C>>): seq<Time> {
    if log == [] then []
    else WaitsOf(log[..|log| - 1]) + if log[|log| - 1].Waited? then [log[|log| - 1].duration] else []
  }

  ghost predicate Unkept<C>(log: seq<Event<C>>) {
    forall i :: 0 <= i < |log| ==> !log[i].Resubmitted?
  }

  /** Rollovers are transparent: the waits of a chain, however it was split into
      runs, are the capped doubling of one unbounded run. */
  lemma {:induction false} SplitWaitsAreWhole<C>(log: seq<Event<C>>, command: C, p: Pacing)
    requires Right(log, command, p) && Unkept(log)
    ensures Split(log, p).next == Whole(log, p) == Backoff(p.initial, p.max, |WaitsOf(log)|)
    ensures forall i :: 0 <= i < |WaitsOf(log)| ==> WaitsOf(log)[i] == Backoff(p.initial, p.max, i)
  {
    if log != [] {
      var n := |log| - 1;
      assert forall i :: 0 <= i <= n ==> log[..n][..i] == log[..i];
      SplitWaitsAreWhole(log[..n], command, p);
      assert May(log[..n], log[n], command, p);
    }
  }

  /** The interval the waits started from that go on now: the one carried into the
      run when the command was kept last, the initial one before that. */
  function Start<C>(log: seq<Event<C>>, p: Pacing): Time {
    if log == [] then p.initial
    else
      var before := log[..|log| - 1];
      if log[|log| - 1].Resubmitted? then Split(before, p).resume else Start(before, p)
  }

  /** The waits since then. */
  function WaitsSinceKept<C>(log: seq<Event<C>>): nat {
    if log == [] then 0
    else
      match log[|log| - 1]
      case Waited(_) => WaitsSinceKept(log[..|log| - 1]) + 1
      case Resubmitted(_) => 0
      case _ => WaitsSinceKept(log[..|log| - 1])
  }

  /** What the next wait is, in closed form: the capped doubling of the interval
      carried when the command was kept last; of the initial one in one run. */
  lemma {:induction false} PaceInClosedForm<C>(log: seq<Event<C>>, p: Pacing)
    ensures Split(log, p).next == Backoff(Start(log, p), p.max, WaitsSinceKept(log))
    ensures Whole(log, p) == Backoff(p.initial, p.max, WaitsSinceKept(log))
  {
    if log != [] {
      PaceInClosedForm(log[..|log| - 1], p);
    }
  }

  /** The waits one unbounded run would make where this chain waits. */
  function WholeWaits<C>(log: seq<Event<C>>, p: Pacing): seq<Time> {
    if log == [] then []
    else WholeWaits(log[..|log| - 1], p) + if log[|log| - 1].Waited? then [Whole(log[..|log| - 1], p)] else []
  }

  /** The wait at j is the first after the command was kept at i. */
  ghost predicate FirstWait<C>(log: seq<Event<C>>, i: nat, j: nat) {
    && i < j < |log| && log[i].Resubmitted? && log[j].Waited?
    && forall k :: i < k < j ==> !log[k].Resubmitted? && !log[k].Waited?
  }

  /** Every kept command that was waited on again carried the initial interval. */
  ghost predicate CarriedNothing<C>(log: seq<Event<C>>, p: Pacing) {
    forall i: nat, j: nat :: FirstWait(log, i, j) ==> Split(log[..i], p).resume == p.initial
  }

  /** Where the current waits started, if the command was kept. */
  lemma {:induction false} StartedAt<C>(log: seq<Event<C>>, p: Pacing) returns (i: nat)
    ensures Start(log, p) == p.initial || (i < |log| && log[i].Resubmitted? && Start(log, p) == Split(log[..i], p).resume)
    ensures i < |log| && log[i].Resubmitted? ==> forall k :: i < k < |log| ==> !log[k].Resubmitted?
    ensures i < |log| && log[i].Resubmitted? && WaitsSinceKept(log) == 0 ==> forall k :: i < k < |log| ==> !log[k].Waited?
  {
    i := 0;
    if log != [] {
      var n := |log| - 1;
      if log[n].Resubmitted? {
        i := n;
      } else {
        i := StartedAt(log[..n], p);
        assert i < n ==> log[..n][..i] == log[..i];
        assert forall k :: 0 <= k < n ==> log[..n][k] == log[k];
        if i >= n {
          i := |log|;
        }
      }
    }
  }

  /** And where a first wait is made, it started where the command was kept. */
  lemma {:induction false} StartOfFirst<C>(log: seq<Event<C>>, p: Pacing, i: nat, j: nat)
    requires FirstWait(log, i, j)
    ensures Start(log[..j], p) == Split(log[..i], p).resume && WaitsSinceKept(log[..j]) == 0
  {
    StartSince(log[..j], p, i);
    assert log[..j][..i] == log[..i];
  }

  lemma {:induction false} StartSince<C>(log: seq<Event<C>>, p: Pacing, i: nat)
    requires i < |log| && log[i].Resubmitted? && forall k :: i < k < |log| ==> !log[k].Resubmitted? && !log[k].Waited?
    ensures Start(log, p) == Split(log[..i], p).resume && WaitsSinceKept(log) == 0
    decreases |log|
  {
    var n := |log| - 1;
    if i < n {
      StartSince(log[..n], p, i);
      assert log[..n][..i] == log[..i];
    }
  }

  lemma {:induction false} WaitsAsMany<C>(log: seq<Event<C>>, p: Pacing)
    ensures |WaitsOf(log)| == |WholeWaits(log, p)|
  {
    if log != [] {
      WaitsAsMany(log[..|log| - 1], p);
    }
  }

  /** A command kept for later is the one place where a rollover shows, and exactly
      when: the chain's waits are those of one unbounded run if and only if every
      command that was kept and waited on again was kept by a run that carried the
      initial interval. */
  lemma {:induction false} RolloversShowExactlyWhen<C>(log: seq<Event<C>>, command: C, p: Pacing)
    requires Right(log, command, p)
    ensures WaitsOf(log) == WholeWaits(log, p) <==> CarriedNothing(log, p)
    decreases |log|
  {
    hide FirstWait, CarriedNothing, Split, Whole, May, WaitsOf, WholeWaits, Right;
    if log == [] {
      NothingKept(log, p);
    } else {
      var n := |log| - 1;
      var before := log[..n];
      RightBefore(log, command, p);
      RolloversShowExactlyWhen(before, command, p);
      WaitsAsMany(before, p);
      assert before + [log[n]] == log;
      WaitsPush(before, log[n], p);
      if log[n].Waited? {
        LastWait(log, command, p);
      } else {
        LastOther(log, p);
        assert WaitsOf(before) + [] == WaitsOf(before) && WholeWaits(before, p) + [] == WholeWaits(before, p);
      }
    }
  }

  lemma NothingKept<C>(log: seq<Event<C>>, p: Pacing)
    requires log == []
    ensures WaitsOf(log) == WholeWaits(log, p) && CarriedNothing(log, p)
  {
  }

  lemma RightBefore<C>(log: seq<Event<C>>, command: C, p: Pacing)
    requires Right(log, command, p) && log != []
    ensures Right(log[..|log| - 1], command, p) && May(log[..|log| - 1], log[|log| - 1], command, p)
  {
    var n := |log| - 1;
    assert forall i :: 0 <= i <= n ==> log[..n][..i] == log[..i];
  }

  lemma LastOther<C>(log: seq<Event<C>>, p: Pacing)
    requires log != [] && !log[|log| - 1].Waited?
    ensures CarriedNothing(log, p) <==> CarriedNothing(log[..|log| - 1], p)
  {
    hide Split;
    var n := |log| - 1;
    var before := log[..n];
    assert forall i :: 0 <= i <= n ==> before[..i] == log[..i];
    assert forall i: nat, j: nat :: FirstWait(before, i, j) <==> FirstWait(log, i, j);
  }

  /** The step at a wait: it is the whole one, if what came before was, exactly when
      the wait is no first one after a kept command that carried something else. */
  lemma LastWait<C>(log: seq<Event<C>>, command: C, p: Pacing)
    requires log != [] && Right(log, command, p) && log[|log| - 1].Waited?
    requires WaitsOf(log[..|log| - 1]) == WholeWaits(log[..|log| - 1], p) <==> CarriedNothing(log[..|log| - 1], p)
    requires |WaitsOf(log[..|log| - 1])| == |WholeWaits(log[..|log| - 1], p)|
    ensures WaitsOf(log) == WholeWaits(log, p) <==> CarriedNothing(log, p)
  {
    hide Split, Whole, WaitsOf, WholeWaits, FirstWait, Right, Backoff;
    var n := |log| - 1;
    var before := log[..n];
    assert before + [log[n]] == log;
    RightBefore(log, command, p);
    PaceInClosedForm(before, p);
    WaitsPush(before, log[n], p);
    FirstWaitsBefore(log, p);
    var d, w := log[n].duration, Whole(before, p);
    SameLast(WaitsOf(before), d, WholeWaits(before, p), w);
    if CarriedNothing(log, p) {
      StartsInitially(before, p, log[n]);
    } else if CarriedNothing(before, p) {
      var k, j := SomethingCarried(log, p);
      StartOfFirst(log, p, k, n);
      FirstBackoff(Start(before, p), p);
      FirstBackoff(p.initial, p);
    }
  }

  lemma FirstBackoff(initial: Time, p: Pacing)
    ensures Backoff(initial, p.max, 0) == initial
  {
  }

  lemma SomethingCarried<C>(log: seq<Event<C>>, p: Pacing) returns (i: nat, j: nat)
    requires !CarriedNothing(log, p)
    ensures i < j < |log| && FirstWait(log, i, j) && Split(log[..i], p).resume != p.initial
  {
    hide Split;
    i, j :| FirstWait(log, i, j) && Split(log[..i], p).resume != p.initial;
  }

  lemma SameLast(xs: seq<Time>, x: Time, ys: seq<Time>, y: Time)
    requires |xs| == |ys|
    ensures xs + [x] == ys + [y] <==> xs == ys && x == y
  {
    if xs + [x] == ys + [y] {
      assert xs == (xs + [x])[..|xs|] && ys == (ys + [y])[..|ys|];
      assert x == (xs + [x])[|xs|] && y == (ys + [y])[|ys|];
    }
  }

  lemma FirstWaitsBefore<C>(log: seq<Event<C>>, p: Pacing)
    requires log != []
    ensures CarriedNothing(log, p) ==> CarriedNothing(log[..|log| - 1], p)
    ensures CarriedNothing(log[..|log| - 1], p) ==>
              forall i: nat, j: nat :: FirstWait(log, i, j) && j < |log| - 1 ==> Split(log[..i], p).resume == p.initial
  {
    hide Split;
    var n := |log| - 1;
    var before := log[..n];
    assert forall i :: 0 <= i <= n ==> before[..i] == log[..i];
    assert forall i: nat, j: nat :: FirstWait(before, i, j) ==> FirstWait(log, i, j);
    assert forall i: nat, j: nat :: FirstWait(log, i, j) && j < n ==> FirstWait(before, i, j);
  }

  /** With nothing carried, the waits that go on started from the initial interval. */
  lemma {:induction false} StartsInitially<C>(log: seq<Event<C>>, p: Pacing, e: Event<C>)
    requires e.Waited? && CarriedNothing(log + [e], p)
    ensures Start(log, p) == p.initial
    decreases |log|
  {
    var i := StartedAt(log, p);
    var l := log + [e];
    if i < |log| && log[i].Resubmitted? {
      var j := FirstAfter(l, i);
      assert FirstWait(l, i, j);
      assert l[..i] == log[..i];
    }
  }

  /** The first wait after i. */
  lemma FirstAfter<C>(log: seq<Event<C>>, i: nat) returns (j: nat)
    requires i < |log| - 1 && log[|log| - 1].Waited?
    ensures i < j < |log| && log[j].Waited? && forall k :: i < k < j ==> !log[k].Waited?
  {
    j := i + 1;
    while !log[j].Waited?
      invariant i < j < |log| && forall k :: i < k < j ==> !log[k].Waited?
      decreases |log| - j
    {
      j := j + 1;
    }
  }

  /** A chain in which it does show: the second wait doubles the first, one run
      would have started again. */
  lemma RolloverMayShow<C>(command: C) returns (log: seq<Event<C>>)
    ensures Right(log, command, Pacing(10, 100, 1))
    ensures WaitsOf(log) == [10, 20] && WholeWaits(log, Pacing(10, 100, 1)) == [10, 10]
  {
    var p := Pacing(10, 100, 1);
    var l1 := [Polled(command, Reconciling)];
    var l2 := l1 + [Waited(10)];
    var l3 := l2 + [Polled(command, Reconciling)];
    var l4 := l3 + [RolledOver];
    var l5 := l4 + [Polled(command, Refused(true))];
    var l6 := l5 + [Resubmitted(5)];
    var l7 := l6 + [Polled(command, Reconciling)];
    log := l7 + [Waited(20)];
    NothingYet([], command, p);
    assert l1 == [] + [Polled(command, Reconciling)];
    Push([], Polled(command, Reconciling), command, p);
    Push(l1, Waited(10), command, p);
    Push(l2, Polled(command, Reconciling), command, p);
    Push(l3, RolledOver, command, p);
    Push(l4, Polled(command, Refused(true)), command, p);
    Push(l5, Resubmitted(5), command, p);
    Push(l6, Polled(command, Reconciling), command, p);
    Push(l7, Waited(20), command, p);
    WaitsPush([], Polled(command, Reconciling), p);
    WaitsPush(l1, Waited(10), p);
    WaitsPush(l2, Polled(command, Reconciling), p);
    WaitsPush(l3, RolledOver, p);
    WaitsPush(l4, Polled(command, Refused(true)), p);
    WaitsPush(l5, Resubmitted(5), p);
    WaitsPush(l6, Polled(command, Reconciling), p);
    WaitsPush(l7, Waited(20), p);
  }

  lemma WaitsPush<C>(log: seq<Event<C>>, e: Event<C>, p: Pacing)
    ensures WaitsOf(log + [e]) == WaitsOf(log) + if e.Waited? then [e.duration] else []
    ensures WholeWaits(log + [e], p) == WholeWaits(log, p) + if e.Waited? then [Whole(log, p)] else []
    ensures Whole(log + [e], p) ==
            if e.Waited? then Doubled(Whole(log, p), p.max) else if e.Resubmitted? then p.initial else Whole(log, p)
    ensures RunWaits(log + [e]) == if e.RolledOver? then 0 else RunWaits(log) + if e.Waited? then 1 else 0
    ensures RunKept(log + [e]) == if e.RolledOver? then 0 else RunKept(log) + if e.Resubmitted? then 1 else 0
  {
    assert (log + [e])[..|log|] == log;
  }

  function Count<C>(log: seq<Event<C>>): (int, int) {
    if log == [] then (0, 0)
    else
      var (polls, pauses) := Count(log[..|log| - 1]);
      if log[|log| - 1].Polled? then (polls + 1, pauses) else (polls, pauses + 1)
  }

  /** What a rollover does change: it polls once more without waiting. Polls are
      as many as waits, rollovers and resubmissions together, and one more once
      the last of them was polled after. */
  lemma {:induction false} PollsCountPauses<C>(log: seq<Event<C>>, command: C, p: Pacing)
    requires Right(log, command, p)
    ensures Count(log).0 == Count(log).1 + if log != [] && log[|log| - 1].Polled? then 1 else 0
  {
    if log != [] {
      var n := |log| - 1;
      assert forall i :: 0 <= i <= n ==> log[..n][..i] == log[..i];
      PollsCountPauses(log[..n], command, p);
      assert May(log[..n], log[n], command, p);
    }
  }

  /** The waits of the run that goes on now, over all its pollers. */
  function RunWaits<C>(log: seq<Event<C>>): nat {
    if log == [] then 0
    else
      match log[|log| - 1]
      case RolledOver => 0
      case Waited(_) => RunWaits(log[..|log| - 1]) + 1
      case _ => RunWaits(log[..|log| - 1])
  }

  /** How often that run kept its command and submitted it again. */
  function RunKept<C>(log: seq<Event<C>>): nat {
    if log == [] then 0
    else
      match log[|log| - 1]
      case RolledOver => 0
      case Resubmitted(_) => RunKept(log[..|log| - 1]) + 1
      case _ => RunKept(log[..|log| - 1])
  }

  /** A run waits at most as often as its poll bound for each time it submits: a run
      that never kept its command at most as often as the bound. */
  lemma {:induction false} RunWaitsAreBounded<C>(log: seq<Event<C>>, command: C, p: Pacing)
    requires Right(log, command, p)
    ensures PollerWaits(log) <= p.bound
    ensures RunWaits(log) <= p.bound * RunKept(log) + PollerWaits(log) <= p.bound * (1 + RunKept(log))
    ensures RunKept(log) == 0 ==> RunWaits(log) <= p.bound
  {
    if log != [] {
      var n := |log| - 1;
      assert forall i :: 0 <= i <= n ==> log[..n][..i] == log[..i];
      RunWaitsAreBounded(log[..n], command, p);
      assert May(log[..n], log[n], command, p);
      OnceMore(p.bound, RunKept(log[..n]));
    }
  }

  lemma OnceMore(bound: nat, kept: nat)
    ensures bound * (kept + 1) == bound * kept + bound && bound * (1 + kept) == bound * kept + bound
  {
  }

  /** A run that kept its command does wait more often than its bound. */
  lemma KeptRunMayWaitLonger<C>(command: C) returns (log: seq<Event<C>>)
    ensures Right(log, command, Pacing(10, 100, 1)) && RunWaits(log) == 2 && RunKept(log) == 1
    ensures forall i :: 0 <= i < |log| ==> !log[i].RolledOver?
  {
    var p := Pacing(10, 100, 1);
    var l1 := [Polled(command, Reconciling)];
    var l2 := l1 + [Waited(10)];
    var l3 := l2 + [Polled(command, Refused(true))];
    var l4 := l3 + [Resubmitted(5)];
    var l5 := l4 + [Polled(command, Reconciling)];
    log := l5 + [Waited(10)];
    NothingYet([], command, p);
    assert l1 == [] + [Polled(command, Reconciling)];
    Push([], Polled(command, Reconciling), command, p);
    Push(l1, Waited(10), command, p);
    Push(l2, Polled(command, Refused(true)), command, p);
    Push(l3, Resubmitted(5), command, p);
    Push(l4, Polled(command, Reconciling), command, p);
    Push(l5, Waited(10), command, p);
    WaitsPush([], Polled(command, Reconciling), p);
    WaitsPush(l1, Waited(10), p);
    WaitsPush(l2, Polled(command, Refused(true)), p);
    WaitsPush(l3, Resubmitted(5), p);
    WaitsPush(l4, Polled(command, Reconciling), p);
    WaitsPush(l5, Waited(10), p);
  }

  lemma {:induction false} PacePositive<C>(log: seq<Event<C>>, p: Pacing)
    requires 0 < p.initial && 0 < p.max
    ensures 0 < Split(log, p).next && 0 < Split(log, p).resume
  {
    if log != [] {
      PacePositive(log[..|log| - 1], p);
    }
  }

  datatype SettleCommand = SettleCommand(id: nat, outcome: nat, failureCode: nat, phase: nat)

  /** What a settling run continues as new with. */
  datatype SettleCarry = SettleCarry(command: SettleCommand, interval: Time)

  datatype SettleEnd = SettleDone | SettleRefused | SettleContinues(carry: SettleCarry)

  /** The run that settles, or that a settlement continued as new into; before is
      what the chain did so far. */
  method SettleWith(carry: SettleCarry, p: Pacing, before: seq<Event<SettleCommand>>)
    returns (end: SettleEnd, log: seq<Event<SettleCommand>>)
    requires 0 < p.initial && 0 < p.max
    requires Right(before, carry.command, p) && PollerWaits(before) == 0
    requires if before == [] then carry.interval == 0
             else before[|before| - 1].RolledOver? && carry.interval == Split(before, p).next
    ensures Right(log, carry.command, p) && |log| > |before| && log[..|before|] == before
    ensures Unkept(before) ==> Unkept(log)
    ensures end.SettleDone? <==> log[|log| - 1] == Polled(carry.command, Settled)
    ensures end.SettleRefused? <==> log[|log| - 1].Polled? && log[|log| - 1].answer.Refused?
    ensures end.SettleContinues? ==>
              && log[|log| - 1].RolledOver? && PollerWaits(log) == 0
              && end.carry == SettleCarry(carry.command, Split(log, p).next)
  {
    hide Right, Split, PollerWaits, May, Reconciled, Unkept;
    log := before;
    var poller := new Poller(p, carry.interval);
    NothingYet([], carry.command, p);
    PacePositive(before, p);
    while true
      invariant Right(log, carry.command, p) && |log| >= |before| && log[..|before|] == before
      invariant Unkept(before) ==> Unkept(log)
      invariant log == [] || !log[|log| - 1].Polled?
      invariant poller.interval == Split(log, p).next && poller.polls == PollerWaits(log)
      invariant fresh(poller) && poller.max == p.max && poller.bound == p.bound && poller.polls <= p.bound
      decreases p.bound - poller.polls
    {
      var answer: PollAnswer :| true;
      var e := Polled(carry.command, answer);
      MayPoll(log, e, carry.command, p);
      Push(log, e, carry.command, p);
      log := log + [e];
      if answer.Refused? {
        return SettleRefused, log;
      }
      if answer.Settled? {
        return SettleDone, log;
      }
      assert answer.Reconciling?;
      var suggested: bool := *;
      if poller.Exhausted(suggested) {
        MayPause(log, RolledOver, carry.command, p);
        Push(log, RolledOver, carry.command, p);
        log := log + [RolledOver];
        return SettleContinues(carry.(interval := poller.interval)), log;
      }
      var d := poller.Wait();
      MayPause(log, Waited(d), carry.command, p);
      Push(log, Waited(d), carry.command, p);
      log := log + [Waited(d)];
    }
  }

  /** A settlement watched for any number of runs: one unchanged command, the
      waits of one unbounded run, and an end only when Control answered. */
  method Settlement(command: SettleCommand, p: Pacing, runs: nat) returns (ended: bool, log: seq<Event<SettleCommand>>)
    requires 0 < p.initial && 0 < p.max
    ensures Right(log, command, p)
    ensures forall i :: 0 <= i < |WaitsOf(log)| ==> WaitsOf(log)[i] == Backoff(p.initial, p.max, i)
    ensures ended ==> log != [] && log[|log| - 1].Polled? && !log[|log| - 1].answer.Reconciling?
  {
    var carry := SettleCarry(command, 0);
    log, ended := [], false;
    var i := 0;
    while i < runs && !ended
      invariant ended || PollerWaits(log) == 0
      invariant Right(log, command, p) && Unkept(log) && carry.command == command
      invariant !ended ==> if log == [] then carry.interval == 0
                           else log[|log| - 1].RolledOver? && carry.interval == Split(log, p).next
      invariant ended ==> log != [] && log[|log| - 1].Polled? && !log[|log| - 1].answer.Reconciling?
    {
      var end;
      end, log := SettleWith(carry, p, log);
      if end.SettleContinues? {
        carry := end.carry;
      } else {
        ended := true;
      }
      i := i + 1;
    }
    SplitWaitsAreWhole(log, command, p);
  }
}
