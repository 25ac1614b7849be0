/** Guarded effects: Control issues one permit per command, the port is called
    once under the effect id, and every later call asks the port about that
    original identity. The state is Control's records and the port's; attempts of
    one Activity may overlap, crash anywhere and lose answers. */
module Effects {
  import opened Wrappers

  /** Control's record of an effect. */
  datatype EffectState = Permitted | Unknown | Succeeded | Failed | Denied

  datatype Kind = Candidate | Save | Review | Publication | Activation

  /** What a port recorded for an effect: whether it took place, whether it was
      refused as a conflict, whether what the port answered binds exactly what
      was asked for, and the identity it produced. */
  datatype Answer = Answer(happened: bool, conflict: bool, binds: bool, ref: nat)

  /** A command names what it does and to what; the same command is the same
      effect. */
  datatype Command = Command(kind: Kind, subject: nat)

  datatype World = World(
    /** Command to effect id. */
    commands: map<Command, nat>,
    kinds: map<nat, Kind>,
    states: map<nat, EffectState>,
    /** Effects whose permit was answered to an attempt that has not used it. */
    tickets: set<nat>,
    /** How often each effect was sent to its port. */
    sends: multiset<nat>,
    /** Sends the port may still carry out. */
    pending: set<nat>,
    records: map<nat, Answer>,
    nextEffect: nat)

  datatype Event =
    | Prepare(command: Command, denied: bool)
    | LoseTicket(effect: nat)
    | Send(effect: nat)
    | Land(effect: nat, answer: Answer)
    | Drop(effect: nat)
    | Observe(effect: nat, state: EffectState)

  /** An observation states what the port recorded, or that nothing is known. */
  predicate Truthful(w: World, effect: nat, state: EffectState) {
    match state
    case Succeeded => effect in w.records && w.records[effect].happened
    case Failed => effect in w.records && !w.records[effect].happened
    case Unknown => true
    case _ => false
  }

  /** What other attempts and the port may do while one attempt holds the tickets
      in mine. */
  predicate Enabled(w: World, e: Event, mine: set<nat>) {
    match e
    case Prepare(c, _) => c !in w.commands
    case LoseTicket(x) => x in w.tickets && x !in mine
    case Send(x) => x in w.tickets && x !in mine
    case Land(x, a) =>
      // A recorded review is a review: registering it cannot be refused.
      x in w.pending && x in w.kinds && (w.kinds[x].Review? ==> a.happened)
    case Drop(x) => x in w.pending
    case Observe(x, st) => x in w.states && Truthful(w, x, st)
  }

  function Apply(w: World, e: Event): World {
    match e
    case Prepare(c, denied) =>
      w.(commands := w.commands[c := w.nextEffect], nextEffect := w.nextEffect + 1,
         kinds := w.kinds[w.nextEffect := c.kind],
         states := w.states[w.nextEffect := if denied then Denied else Permitted],
         tickets := if denied then w.tickets else w.tickets + {w.nextEffect})
    case LoseTicket(x) => w.(tickets := w.tickets - {x})
    case Send(x) => w.(tickets := w.tickets - {x}, sends := w.sends + multiset{x}, pending := w.pending + {x})
    case Land(x, a) =>
      // The port is idempotent by effect id: it keeps its original record.
      w.(pending := w.pending - {x}, records := if x in w.records then w.records else w.records[x := a])
    case Drop(x) => w.(pending := w.pending - {x})
    case Observe(x, st) =>
      // A settled effect keeps its outcome.
      w.(states := if x in w.states && (w.states[x].Permitted? || w.states[x].Unknown?) then w.states[x := st] else w.states)
  }

  predicate Allowed(w: World, es: seq<Event>, mine: set<nat>)
    decreases |es|
  {
    es != [] ==> Enabled(w, es[0], mine) && Allowed(Apply(w, es[0]), es[1..], mine)
  }

  function After(w: World, es: seq<Event>): World
    decreases |es|
  {
    if es == [] then w else After(Apply(w, es[0]), es[1..])
  }

  ghost predicate Reaches(w: World, x: World, mine: set<nat>) {
    exists es :: Allowed(w, es, mine) && After(w, es) == x
  }

  /** The protocol's invariant: a ticket and a send exclude each other, nothing
      is sent, recorded or observed that Control did not permit, and Control
      calls an effect succeeded only when the port recorded it. */
  ghost predicate Sound(w: World) {
    Identified(w) && SentOnce(w) && Honest(w)
  }

  ghost predicate Identified(w: World) {
    && (forall c :: c in w.commands ==> w.commands[c] in w.states && w.commands[c] in w.kinds && w.kinds[w.commands[c]] == c.kind)
    && (forall c, d :: c in w.commands && d in w.commands && w.commands[c] == w.commands[d] ==> c == d)
    && (forall x :: x in w.states ==> x < w.nextEffect)
    && w.kinds.Keys == w.states.Keys
  }

  ghost predicate SentOnce(w: World) {
    && (forall x :: x in w.tickets ==> x in w.states && w.sends[x] == 0 && !w.states[x].Denied?)
    && (forall x :: x in w.sends ==> x in w.states && w.sends[x] == 1 && !w.states[x].Denied?)
  }

  ghost predicate Honest(w: World) {
    && (forall x :: x in w.pending ==> x in w.sends)
    && (forall x :: x in w.records ==> x in w.sends && x in w.kinds && (w.kinds[x].Review? ==> w.records[x].happened))
    && (forall x :: x in w.states && (w.states[x].Succeeded? || w.states[x].Failed?) ==> Truthful(w, x, w.states[x]))
  }

  predicate Settled(st: EffectState) {
    st.Succeeded? || st.Failed? || st.Denied?
  }

  /** x comes later: identities, records and sends are never taken back, and no
      effect already known gains a ticket. */
  ghost predicate Later(w: World, x: World) {
    && (forall c :: c in w.commands ==> c in x.commands && x.commands[c] == w.commands[c])
    && (forall e :: e in w.kinds ==> e in x.kinds && x.kinds[e] == w.kinds[e])
    && w.states.Keys <= x.states.Keys && w.nextEffect <= x.nextEffect
    && (forall e :: e in w.records ==> e in x.records && x.records[e] == w.records[e])
    && (forall e :: e in w.states ==> w.sends[e] <= x.sends[e])
    && (forall e :: e in x.tickets ==> e in w.tickets || e !in w.states)
    && (forall e :: e in w.states && Settled(w.states[e]) ==> e in x.states && x.states[e] == w.states[e])
    && (forall e :: e in w.states && e !in w.tickets ==> x.sends[e] == w.sends[e])
  }

  lemma PreparedIdentified(w: World, c: Command, denied: bool)
    requires Identified(w) && c !in w.commands
    ensures Identified(Apply(w, Prepare(c, denied)))
  {
  }

  lemma PreparedSentOnce(w: World, c: Command, denied: bool)
    requires Identified(w) && SentOnce(w)
    ensures SentOnce(Apply(w, Prepare(c, denied)))
  {
    assert w.nextEffect !in w.sends;
  }

  lemma PreparedHonest(w: World, c: Command, denied: bool)
    requires Identified(w) && Honest(w)
    ensures Honest(Apply(w, Prepare(c, denied)))
  {
  }

  lemma PreparedLater(w: World, c: Command, denied: bool)
    requires Identified(w) && c !in w.commands
    ensures Later(w, Apply(w, Prepare(c, denied)))
  {
  }

  lemma PrepareKeeps(w: World, c: Command, denied: bool)
    requires Sound(w) && c !in w.commands
    ensures Sound(Apply(w, Prepare(c, denied))) && Later(w, Apply(w, Prepare(c, denied)))
  {
    PreparedIdentified(w, c, denied);
    PreparedSentOnce(w, c, denied);
    PreparedHonest(w, c, denied);
    PreparedLater(w, c, denied);
  }

  lemma SendKeeps(w: World, x: nat)
    requires Sound(w) && x in w.tickets
    ensures Sound(Apply(w, Send(x))) && Later(w, Apply(w, Send(x)))
  {
    hide Identified, SentOnce, Honest, Later;
    SameIdentities(w, Apply(w, Send(x)));
    SentSentOnce(w, x);
    SentHonest(w, x);
    SentLater(w, x);
  }

  lemma SameIdentities(w: World, x: World)
    requires Identified(w) && x.commands == w.commands && x.kinds == w.kinds && x.states.Keys == w.states.Keys
    requires x.nextEffect == w.nextEffect
    ensures Identified(x)
  {
  }

  lemma SentSentOnce(w: World, x: nat)
    requires SentOnce(w) && x in w.tickets
    ensures SentOnce(Apply(w, Send(x)))
  {
  }

  lemma SentHonest(w: World, x: nat)
    requires Honest(w) && x in w.tickets
    ensures Honest(Apply(w, Send(x)))
  {
  }

  lemma SentLater(w: World, x: nat)
    requires x in w.tickets
    ensures Later(w, Apply(w, Send(x)))
  {
  }

  lemma LandKeeps(w: World, x: nat, a: Answer)
    requires Sound(w) && x in w.pending && x in w.kinds && (w.kinds[x].Review? ==> a.happened)
    ensures Sound(Apply(w, Land(x, a))) && Later(w, Apply(w, Land(x, a)))
  {
    hide Identified, SentOnce, Honest, Later;
    SameIdentities(w, Apply(w, Land(x, a)));
    LandedSentOnce(w, x, a);
    LandedHonest(w, x, a);
    LandedLater(w, x, a);
  }

  lemma LandedSentOnce(w: World, x: nat, a: Answer)
    requires SentOnce(w)
    ensures SentOnce(Apply(w, Land(x, a)))
  {
  }

  lemma LandedHonest(w: World, x: nat, a: Answer)
    requires Honest(w) && x in w.pending && x in w.kinds && (w.kinds[x].Review? ==> a.happened)
    ensures Honest(Apply(w, Land(x, a)))
  {
  }

  lemma LandedLater(w: World, x: nat, a: Answer)
    ensures Later(w, Apply(w, Land(x, a)))
  {
  }

  lemma ObservedSentOnce(w: World, x: nat, st: EffectState)
    requires SentOnce(w) && x in w.states && Truthful(w, x, st)
    ensures SentOnce(Apply(w, Observe(x, st)))
  {
  }

  lemma ObservedHonest(w: World, x: nat, st: EffectState)
    requires Honest(w) && x in w.states && Truthful(w, x, st)
    ensures Honest(Apply(w, Observe(x, st)))
  {
  }

  lemma ObservedLater(w: World, x: nat, st: EffectState)
    requires x in w.states
    ensures Later(w, Apply(w, Observe(x, st)))
  {
  }

  lemma ObserveKeeps(w: World, x: nat, st: EffectState)
    requires Sound(w) && x in w.states && Truthful(w, x, st)
    ensures Sound(Apply(w, Observe(x, st))) && Later(w, Apply(w, Observe(x, st)))
  {
    hide Identified, SentOnce, Honest, Later;
    SameIdentities(w, Apply(w, Observe(x, st)));
    ObservedSentOnce(w, x, st);
    ObservedHonest(w, x, st);
    ObservedLater(w, x, st);
  }

  lemma DroppedKeeps(w: World, x: World)
    requires Sound(w) && x == w.(tickets := x.tickets, pending := x.pending)
    requires x.tickets <= w.tickets && x.pending <= w.pending
    ensures Sound(x) && Later(w, x)
  {
  }

  lemma StepKeeps(w: World, e: Event, mine: set<nat>)
    requires Sound(w) && Enabled(w, e, mine)
    ensures Sound(Apply(w, e)) && Later(w, Apply(w, e))
    ensures mine <= w.tickets ==> mine <= Apply(w, e).tickets
  {
    match e
    case Prepare(c, denied) => PrepareKeeps(w, c, denied);
    case Send(x) => SendKeeps(w, x);
    case Land(x, a) => LandKeeps(w, x, a);
    case Observe(x, st) => ObserveKeeps(w, x, st);
    case LoseTicket(_) => DroppedKeeps(w, Apply(w, e));
    case Drop(_) => DroppedKeeps(w, Apply(w, e));
  }

  lemma LaterSelf(w: World)
    ensures Later(w, w)
  {
  }

  lemma LaterTrans(w: World, x: World, y: World)
    requires Sound(w) && Later(w, x) && Later(x, y)
    ensures Later(w, y)
  {
  }

  /** Every run of overlapping attempts keeps the protocol's invariant. */
  lemma {:induction false} RunKeeps(w: World, es: seq<Event>, mine: set<nat>)
    requires Sound(w) && Allowed(w, es, mine)
    ensures Sound(After(w, es)) && Later(w, After(w, es))
    ensures mine <= w.tickets ==> mine <= After(w, es).tickets
    decreases |es|
  {
    if es != [] {
      StepKeeps(w, es[0], mine);
      RunKeeps(Apply(w, es[0]), es[1..], mine);
      LaterTrans(w, Apply(w, es[0]), After(w, es));
    }
  }

  const NOTHING := World(map[], map[], map[], {}, multiset{}, {}, map[], 0)

  /** From nothing, under any run of attempts, crashes and lost answers, no
      effect is sent to its port twice, and Control calls an effect succeeded
      only if the port recorded that it took place. */
  lemma EachEffectIsSentAtMostOnce(es: seq<Event>, effect: nat)
    requires Allowed(NOTHING, es, {})
    ensures var w := After(NOTHING, es);
            && w.sends[effect] <= 1
            && (effect in w.states && w.states[effect].Succeeded? ==> effect in w.records && w.records[effect].happened)
            && (effect in w.states && w.states[effect].Denied? ==> w.sends[effect] == 0 && effect !in w.records)
  {
    RunKeeps(NOTHING, es, {});
    var w := After(NOTHING, es);
    assert effect in w.sends || w.sends[effect] == 0;
  }

  /** The price of never resending: an effect whose permit was answered and lost
      before its send is never sent, by anyone, ever. */
  lemma LostPermitIsNeverSent(w: World, es: seq<Event>, effect: nat)
    requires Sound(w) && effect in w.states && effect !in w.tickets && w.sends[effect] == 0
    requires Allowed(w, es, {})
    ensures After(w, es).sends[effect] == 0 && effect !in After(w, es).records
  {
    RunKeeps(w, es, {});
    assert effect !in After(w, es).sends;
  }

  lemma ReachesSelf(w: World, mine: set<nat>)
    ensures Reaches(w, w, mine)
  {
    assert Allowed(w, [], mine) && After(w, []) == w;
  }

  lemma {:induction false} RunsJoin(w: World, es: seq<Event>, fs: seq<Event>, mine: set<nat>)
    requires Allowed(w, es, mine) && Allowed(After(w, es), fs, mine)
    ensures Allowed(w, es + fs, mine) && After(w, es + fs) == After(After(w, es), fs)
    decreases |es|
  {
    if es == [] {
      assert es + fs == fs;
    } else {
      RunsJoin(Apply(w, es[0]), es[1..], fs, mine);
      assert (es + fs)[0] == es[0] && (es + fs)[1..] == es[1..] + fs;
    }
  }

  lemma ReachesStep(w: World, x: World, e: Event, mine: set<nat>)
    requires Reaches(w, x, mine) && Enabled(x, e, mine)
    ensures Reaches(w, Apply(x, e), mine)
  {
    var es :| Allowed(w, es, mine) && After(w, es) == x;
    assert [e][1..] == [];
    assert Allowed(x, [e], mine);
    assert After(x, [e]) == Apply(x, e);
    RunsJoin(w, es, [e], mine);
  }

  lemma ReachesKeeps(w: World, x: World, mine: set<nat>)
    requires Sound(w) && Reaches(w, x, mine)
    ensures Sound(x) && Later(w, x) && (mine <= w.tickets ==> mine <= x.tickets)
  {
    var es :| Allowed(w, es, mine) && After(w, es) == x;
    RunKeeps(w, es, mine);
  }

  datatype Permit = Permit(effect: nat, permitted: bool, state: EffectState)

  /** Control's effect service and the effect's port, as one attempt calls them.
      Other attempts and the port run between any two calls. */
  class Ports {
    var w: World
    /** What this client sent, in order, and how many permits it was answered. */
    var sent: seq<Command>
    var permits: nat
    /** What the port answered since the last prepare. */
    var seen: Option<Answer>

    constructor ()
      ensures w == NOTHING && sent == [] && permits == 0 && seen.None?
    {
      w, sent, permits, seen := NOTHING, [], 0, None;
    }

    method Environment(mine: set<nat>)
      requires Sound(w)
      modifies this`w
      ensures Sound(w) && Later(old(w), w) && (mine <= old(w).tickets ==> mine <= w.tickets)
    {
      ReachesSelf(w, mine);
      var n: nat :| true;
      var i := 0;
      while i < n
        invariant Reaches(old(w), w, mine)
      {
        var e: Event := *;
        if Enabled(w, e, mine) {
          ReachesStep(old(w), w, e, mine);
          w := Apply(w, e);
        }
        i := i + 1;
      }
      ReachesKeeps(old(w), w, mine);
    }

    /** The same command returns the same effect; only the call that created it
        is permitted to send. */
    method PrepareEffect(command: Command) returns (p: Result<Permit, ()>)
      requires Sound(w)
      modifies this`w, this`permits, this`seen
      ensures permits == old(permits) + (if p.Ok? && p.value.permitted then 1 else 0) && seen.None?
      ensures Sound(w) && Later(old(w), w)
      ensures p.Ok? ==> command in w.commands && w.commands[command] == p.value.effect && p.value.effect in w.states
      ensures p.Ok? && p.value.permitted ==>
                p.value.effect in w.tickets && command !in old(w).commands && p.value.state.Permitted?
      ensures p.Ok? && Settled(p.value.state) ==> w.states[p.value.effect] == p.value.state
    {
      hide Sound, Later;
      seen := None;
      Environment({});
      ghost var before := w;
      var failed: bool, denied: bool, lost: bool := *, *, *;
      if failed {
        return Err(());
      }
      if command in w.commands {
        EffectOf(w, command);
        var x := w.commands[command];
        p := Ok(Permit(x, false, w.states[x]));
        Environment({});
      } else {
        var x := w.nextEffect;
        StepKeeps(w, Prepare(command, denied), {});
        w := Apply(w, Prepare(command, denied));
        p := Ok(Permit(x, !denied, if denied then Denied else Permitted));
        LaterTrans(old(w), before, w);
        NotBefore(old(w), before, command);
        before := w;
        Environment(if denied then {} else {x});
      }
      LaterTrans(old(w), before, w);
      Stays(before, w, command);
      if lost {
        p := Err(());
      } else if p.value.permitted {
        permits := permits + 1;
      }
    }

    /** One call of the port under the command's effect id, with the attempt's own
        permit. */
    method SendToPort(command: Command, effect: nat) returns (answer: Result<Answer, ()>)
      requires Sound(w) && effect in w.tickets && command in w.commands && w.commands[command] == effect
      modifies this
      ensures sent == old(sent) + [command] && permits == old(permits)
      ensures seen == if answer.Ok? then Some(answer.value) else None
      ensures Sound(w) && Later(old(w), w)
      ensures answer.Ok? ==> effect in w.records && w.records[effect] == answer.value
    {
      hide Sound, Later;
      StepKeeps(w, Send(effect), {});
      w := Apply(w, Send(effect));
      sent := sent + [command];
      ghost var sent := w;
      Environment({});
      LaterTrans(old(w), sent, w);
      answer, seen := Err(()), None;
      var answered: bool := *;
      if answered && effect in w.records {
        answer, seen := Ok(w.records[effect]), Some(w.records[effect]);
        ghost var at := w;
        Environment({});
        RecordStays(at, w, effect);
        LaterTrans(old(w), at, w);
      }
    }

    /** Asks the port about the original identity; None when it knows nothing. */
    method Query(effect: nat) returns (answer: Result<Option<Answer>, ()>)
      requires Sound(w)
      modifies this`w, this`seen
      ensures seen == if answer.Ok? then answer.value else None
      ensures Sound(w) && Later(old(w), w)
      ensures answer.Ok? && answer.value.Some? ==> effect in w.records && w.records[effect] == answer.value.value
    {
      hide Sound, Later;
      Environment({});
      ghost var at := w;
      answer := if effect in w.records then Ok(Some(w.records[effect])) else Ok(None);
      var failed: bool := *;
      if failed {
        answer := Err(());
      }
      seen := if answer.Ok? then answer.value else None;
      Environment({});
      RecordStays(at, w, effect);
      LaterTrans(old(w), at, w);
    }

    /** Records one outcome of the effect with Control. */
    method ObserveEffect(effect: nat, state: EffectState) returns (ok: bool)
      requires Sound(w) && effect in w.states && Truthful(w, effect, state)
      modifies this`w
      ensures Sound(w) && Later(old(w), w)
    {
      hide Sound, Later;
      StepKeeps(w, Observe(effect, state), {});
      w := Apply(w, Observe(effect, state));
      ghost var at := w;
      Environment({});
      LaterTrans(old(w), at, w);
      ok := *;
    }
  }

  lemma EffectOf(w: World, command: Command)
    requires Sound(w) && command in w.commands
    ensures w.commands[command] in w.states
  {
  }

  lemma NotBefore(w: World, x: World, command: Command)
    requires Later(w, x) && command !in x.commands
    ensures command !in w.commands
  {
  }

  lemma Stays(w: World, x: World, command: Command)
    requires Later(w, x)
    ensures command in w.commands ==> command in x.commands && x.commands[command] == w.commands[command]
    ensures w.states.Keys <= x.states.Keys
    ensures forall e :: e in w.states && Settled(w.states[e]) ==> x.states[e] == w.states[e]
  {
  }

  lemma RecordStays(w: World, x: World, effect: nat)
    requires Later(w, x)
    ensures effect in w.records ==> effect in x.records && x.records[effect] == w.records[effect]
  {
  }
}
