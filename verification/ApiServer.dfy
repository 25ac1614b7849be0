/** The Kubernetes API server as one launch key sees it: an optional Job under
    the key, the Pods labelled with it, the create and delete requests that
    were written and whose fate is still open, and the history of every Job
    the key ever held. Everything the environment may do between two client
    calls is an Event; a client sees the server only between events, so two
    reads of one client call are never a snapshot. */
module ApiServer {
  import opened Wrappers

  /** Instants and durations, in nanoseconds. */
  type Time = int

  /** marker is the ordinal of the create request that made the object; 0 when
      the object carries none. */
  datatype Job = Job(uid: nat, marker: nat, deleting: bool)

  /** owner is the UID of the Pod's controller Job. */
  datatype Pod = Pod(uid: nat, owner: Option<nat>, marker: nat, created: Time)

  datatype Server = Server(
    job: Option<Job>,
    pods: seq<Pod>,
    /** Ordinals of create requests the server may still commit. */
    inflight: set<nat>,
    /** The instant from which a request can no longer commit, once its client
        side is over. */
    closes: map<nat, Time>,
    /** Every Job the key ever held: UID to marker. */
    makers: map<nat, nat>,
    /** UIDs named by delete requests written and not yet executed. */
    deletes: set<nat>,
    nextUid: nat,
    clock: Time)

  datatype Event =
    | Commit(request: nat)
    | Reject(request: nat)
    | StartPod(at: nat)
    | EndPod(at: nat)
    | EndJob
    | AskDelete(uid: nat)
    | ExecuteDelete(uid: nat)
    | Tick(elapsed: nat)

  /** What may happen while the markers in keep are protected: a request commits
      only while the name is free and its lifetime is not over, Pods start only
      under a Job that is not being deleted, a Job ends only after a delete
      reached it, and a delete is asked (by this client, an overlapping attempt
      or an earlier round) only for a Job whose marker is not protected. */
  predicate Enabled(s: Server, e: Event, keep: set<nat>) {
    match e
    case Commit(r) => r in s.inflight && s.job.None? && (r in s.closes ==> s.clock < s.closes[r])
    case Reject(r) => r in s.inflight
    case StartPod(at) => s.job.Some? && !s.job.value.deleting && at <= |s.pods|
    case EndPod(at) => at < |s.pods|
    case EndJob => s.job.Some? && s.job.value.deleting
    case AskDelete(u) => u in s.makers && s.makers[u] !in keep
    case ExecuteDelete(u) => u in s.deletes
    case Tick(_) => true
  }

  function Apply(s: Server, e: Event, keep: set<nat>): Server
    requires Enabled(s, e, keep)
  {
    match e
    case Commit(r) =>
      s.(job := Some(Job(s.nextUid, r, false)), inflight := s.inflight - {r},
         makers := s.makers[s.nextUid := r], nextUid := s.nextUid + 1)
    case Reject(r) => s.(inflight := s.inflight - {r})
    case StartPod(at) =>
      var p := Pod(s.nextUid, Some(s.job.value.uid), s.job.value.marker, s.clock);
      s.(pods := s.pods[..at] + [p] + s.pods[at..], nextUid := s.nextUid + 1)
    case EndPod(at) => s.(pods := s.pods[..at] + s.pods[at + 1..])
    case EndJob => s.(job := None)
    case AskDelete(u) => s.(deletes := s.deletes + {u})
    case ExecuteDelete(u) =>
      // The UID precondition: a Job that took the name meanwhile is untouched.
      s.(deletes := s.deletes - {u},
         job := if s.job.Some? && s.job.value.uid == u then Some(s.job.value.(deleting := true)) else s.job)
    case Tick(d) => s.(clock := s.clock + d)
  }

  predicate Allowed(s: Server, es: seq<Event>, keep: set<nat>)
    decreases |es|
  {
    es != [] ==> Enabled(s, es[0], keep) && Allowed(Apply(s, es[0], keep), es[1..], keep)
  }

  function After(s: Server, es: seq<Event>, keep: set<nat>): Server
    requires Allowed(s, es, keep)
    decreases |es|
  {
    if es == [] then s else After(Apply(s, es[0], keep), es[1..], keep)
  }

  /** t is the server after some run of events from s. */
  ghost predicate Reaches(s: Server, t: Server, keep: set<nat>) {
    exists es :: Allowed(s, es, keep) && After(s, es, keep) == t
  }

  lemma {:induction false} RunsJoin(s: Server, es: seq<Event>, fs: seq<Event>, keep: set<nat>)
    requires Allowed(s, es, keep) && Allowed(After(s, es, keep), fs, keep)
    ensures Allowed(s, es + fs, keep)
    ensures After(s, es + fs, keep) == After(After(s, es, keep), fs, keep)
    decreases |es|
  {
    if es == [] {
      assert es + fs == fs;
    } else {
      RunsJoin(Apply(s, es[0], keep), es[1..], fs, keep);
      assert (es + fs)[0] == es[0] && (es + fs)[1..] == es[1..] + fs;
    }
  }

  lemma ReachesSelf(s: Server, keep: set<nat>)
    ensures Reaches(s, s, keep)
  {
    assert Allowed(s, [], keep) && After(s, [], keep) == s;
  }

  lemma ReachesStep(s: Server, t: Server, e: Event, keep: set<nat>)
    requires Reaches(s, t, keep) && Enabled(t, e, keep)
    ensures Reaches(s, Apply(t, e, keep), keep)
  {
    var es :| Allowed(s, es, keep) && After(s, es, keep) == t;
    assert [e][1..] == [];
    assert Allowed(t, [e], keep);
    assert After(t, [e], keep) == Apply(t, e, keep);
    RunsJoin(s, es, [e], keep);
  }

  lemma ReachesTrans(s: Server, t: Server, u: Server, keep: set<nat>)
    requires Reaches(s, t, keep) && Reaches(t, u, keep)
    ensures Reaches(s, u, keep)
  {
    var es :| Allowed(s, es, keep) && After(s, es, keep) == t;
    var fs :| Allowed(t, fs, keep) && After(t, fs, keep) == u;
    RunsJoin(s, es, fs, keep);
  }

  /** Protecting fewer markers only allows more. */
  lemma {:induction false} AllowedLess(s: Server, es: seq<Event>, keep: set<nat>, less: set<nat>)
    requires Allowed(s, es, keep) && less <= keep
    ensures Allowed(s, es, less) && After(s, es, less) == After(s, es, keep)
    decreases |es|
  {
    if es != [] {
      assert Enabled(s, es[0], less) && Apply(s, es[0], less) == Apply(s, es[0], keep);
      AllowedLess(Apply(s, es[0], keep), es[1..], keep, less);
    }
  }

  lemma ReachesLess(s: Server, t: Server, keep: set<nat>, less: set<nat>)
    requires Reaches(s, t, keep) && less <= keep
    ensures Reaches(s, t, less)
  {
    var es :| Allowed(s, es, keep) && After(s, es, keep) == t;
    AllowedLess(s, es, keep, less);
  }

  /** The bookkeeping every server state satisfies: the Job and the Pods carry
      the marker of the request that made them, and a request makes at most one
      Job, which it cannot do while it is still open. */
  ghost predicate Sound(s: Server) {
    && (s.job.Some? ==> s.job.value.uid in s.makers && s.makers[s.job.value.uid] == s.job.value.marker)
    && (forall p :: p in s.pods ==>
         p.marker == 0 || (p.owner.Some? && p.owner.value in s.makers && s.makers[p.owner.value] == p.marker))
    && (forall u :: u in s.makers ==> u < s.nextUid && s.makers[u] !in s.inflight)
    && (forall u, v :: u in s.makers && v in s.makers && s.makers[u] == s.makers[v] && s.makers[u] != 0 ==> u == v)
    && 0 !in s.inflight
    && s.deletes <= s.makers.Keys
  }

  /** No object of a protected request was deleted, is being deleted or is named
      by a delete request on its way. */
  ghost predicate Kept(s: Server, keep: set<nat>) {
    forall u :: u in s.makers && s.makers[u] in keep ==> s.job == Some(Job(u, s.makers[u], false)) && u !in s.deletes
  }

  ghost predicate Made(s: Server, request: nat) {
    exists u :: u in s.makers && s.makers[u] == request
  }

  ghost predicate MayCommit(s: Server, request: nat) {
    request in s.inflight && (request in s.closes ==> s.clock < s.closes[request])
  }

  /** t is a later state of the same server: history only grows, what a Job or a
      Pod is now it already was or came from a request that could still commit. */
  ghost predicate Later(s: Server, t: Server) {
    && t.closes == s.closes && s.clock <= t.clock && t.inflight <= s.inflight
    && (forall u :: u in s.makers ==> u in t.makers && t.makers[u] == s.makers[u])
    && (forall u :: u in t.makers && u !in s.makers ==> MayCommit(s, t.makers[u]))
    && (t.job.Some? && t.job.value.uid in s.makers ==>
         s.job.Some? && s.job.value.uid == t.job.value.uid && s.job.value.marker == t.job.value.marker)
    && (forall i :: 0 <= i < |t.pods| && t.pods[i] !in s.pods ==>
         t.pods[i].owner.Some? && t.pods[i].owner.value in t.makers &&
         (t.pods[i].owner.value in s.makers ==> s.job.Some? && s.job.value.uid == t.pods[i].owner.value))
  }

  lemma StepSound(s: Server, e: Event, keep: set<nat>)
    requires Sound(s) && Enabled(s, e, keep)
    ensures Sound(Apply(s, e, keep))
  {
    var t := Apply(s, e, keep);
    match e
    case StartPod(at) =>
      assert forall p :: p in t.pods ==> p in s.pods || (p.owner == Some(s.job.value.uid) && p.marker == s.job.value.marker);
    case EndPod(at) =>
      assert forall p :: p in t.pods ==> p in s.pods;
    case _ =>
  }

  lemma StepLater(s: Server, e: Event, keep: set<nat>)
    requires Sound(s) && Enabled(s, e, keep)
    ensures Later(s, Apply(s, e, keep))
  {
    var t := Apply(s, e, keep);
    match e
    case StartPod(at) =>
      assert forall p :: p in t.pods ==> p in s.pods || (p.owner == Some(s.job.value.uid) && p.marker == s.job.value.marker);
    case EndPod(at) =>
      assert forall p :: p in t.pods ==> p in s.pods;
    case _ =>
  }

  lemma StepKept(s: Server, e: Event, keep: set<nat>)
    requires Sound(s) && Enabled(s, e, keep) && Kept(s, keep)
    ensures Kept(Apply(s, e, keep), keep)
  {
    if e.Commit? {
      assert forall u :: u in s.makers ==> s.makers[u] != e.request;
    }
  }

  lemma StepKeeps(s: Server, e: Event, keep: set<nat>)
    requires Sound(s) && Enabled(s, e, keep)
    ensures var t := Apply(s, e, keep);
            Sound(t) && Later(s, t) && (Kept(s, keep) ==> Kept(t, keep))
  {
    hide Sound, Later, Kept, Enabled, Apply;
    StepSound(s, e, keep);
    StepLater(s, e, keep);
    if Kept(s, keep) {
      StepKept(s, e, keep);
    }
  }

  lemma LaterTrans(s: Server, t: Server, u: Server)
    requires Sound(t) && Later(s, t) && Later(t, u)
    ensures Later(s, u)
  {
  }

  /** Over every run of the environment: the bookkeeping holds, protected
      objects survive, and the final state is a later state. */
  lemma {:induction false} RunKeeps(s: Server, es: seq<Event>, keep: set<nat>)
    requires Sound(s) && Allowed(s, es, keep)
    ensures Sound(After(s, es, keep)) && Later(s, After(s, es, keep))
    ensures Kept(s, keep) ==> Kept(After(s, es, keep), keep)
    decreases |es|
  {
    if es != [] {
      var t := Apply(s, es[0], keep);
      StepKeeps(s, es[0], keep);
      RunKeeps(t, es[1..], keep);
      LaterTrans(s, t, After(t, es[1..], keep));
    }
  }

  lemma ReachesKeeps(s: Server, t: Server, keep: set<nat>)
    requires Sound(s) && Reaches(s, t, keep)
    ensures Sound(t) && Later(s, t) && (Kept(s, keep) ==> Kept(t, keep))
  {
    var es :| Allowed(s, es, keep) && After(s, es, keep) == t;
    RunKeeps(s, es, keep);
  }

  lemma LaterSelf(s: Server)
    requires Sound(s)
    ensures Later(s, s)
  {
  }

  lemma MadeStays(s: Server, t: Server, request: nat)
    requires Later(s, t) && Made(s, request)
    ensures Made(t, request)
  {
  }

  /** Writing a fresh request keeps the bookkeeping, and what came before the
      write is also reached when the request counts as written from the start. */
  lemma WriteKeeps(s: Server, t: Server, request: nat, keep: set<nat>)
    requires Sound(t) && Later(s, t) && request > 0 && !Made(t, request)
    ensures Sound(Written(t, request)) && Later(Written(s, request), Written(t, request)) && Later(Written(s, request), t)
    ensures Kept(t, keep) ==> Kept(Written(t, request), keep)
  {
  }

  /** The Job is there, not being deleted, and no delete names it. */
  ghost predicate Untouched(s: Server, uid: nat)
    requires uid in s.makers
  {
    s.job == Some(Job(uid, s.makers[uid], false)) && uid !in s.deletes
  }

  /** Of the protected requests' objects, those in but aside, none was touched. */
  ghost predicate Spared(s: Server, keep: set<nat>, but: set<nat>) {
    forall u :: u in s.makers && s.makers[u] in keep && u !in but ==> Untouched(s, u)
  }

  lemma StepSpares(s: Server, e: Event, keep: set<nat>, but: set<nat>)
    requires Sound(s) && Enabled(s, e, keep) && Spared(s, keep, but)
    ensures Spared(Apply(s, e, keep), keep, but)
  {
    var t := Apply(s, e, keep);
    forall u | u in t.makers && t.makers[u] in keep && u !in but ensures Untouched(t, u) {
      if u in s.makers {
        assert Untouched(s, u);
      }
    }
  }

  lemma {:induction false} RunSpares(s: Server, es: seq<Event>, keep: set<nat>, but: set<nat>)
    requires Sound(s) && Allowed(s, es, keep) && Spared(s, keep, but)
    ensures Spared(After(s, es, keep), keep, but)
    decreases |es|
  {
    hide Sound, Spared, Enabled, Apply;
    if es != [] {
      StepSpares(s, es[0], keep, but);
      StepSound(s, es[0], keep);
      RunSpares(Apply(s, es[0], keep), es[1..], keep, but);
    }
  }

  lemma ReachesSpares(s: Server, t: Server, keep: set<nat>, but: set<nat>)
    requires Sound(s) && Reaches(s, t, keep) && Spared(s, keep, but)
    ensures Spared(t, keep, but)
  {
    var es :| Allowed(s, es, keep) && After(s, es, keep) == t;
    RunSpares(s, es, keep, but);
  }

  /** A request that is not open and made nothing never makes anything. */
  lemma NeverMade(s: Server, t: Server, request: nat)
    requires Later(s, t) && request !in s.inflight && !Made(s, request)
    ensures request !in t.inflight && !Made(t, request)
  {
  }

  /** Nothing runs under the key and no request can put anything there. */
  ghost predicate Stopped(s: Server) {
    s.job.None? && s.pods == [] && forall r :: r in s.inflight ==> !MayCommit(s, r)
  }

  /** With no Job and no request able to make one, every Pod seen later was
      there already. */
  lemma NoPodIsNew(s: Server, t: Server, i: nat)
    requires Sound(s) && Sound(t) && Later(s, t) && i < |t.pods|
    requires s.job.None? && forall r :: r in s.inflight ==> !MayCommit(s, r)
    ensures t.pods[i] in s.pods
  {
  }

  lemma StoppedLater(s: Server, t: Server)
    requires Sound(s) && Sound(t) && Later(s, t) && Stopped(s)
    ensures Stopped(t) && t.makers == s.makers
  {
    if t.pods != [] {
      NoPodIsNew(s, t, 0);
    }
  }

  /** A stopped launch stays stopped whatever happens next, and no create
      request ever commits again. */
  lemma StoppedForever(s: Server, es: seq<Event>, keep: set<nat>)
    requires Sound(s) && Stopped(s) && Allowed(s, es, keep)
    ensures Stopped(After(s, es, keep))
    ensures After(s, es, keep).makers == s.makers
  {
    RunKeeps(s, es, keep);
    StoppedLater(s, After(s, es, keep));
  }

  /** Two reads that are not a snapshot: a Job absent at a and Pods absent at a
      later b, with no request able to commit from a on, show a stopped launch. */
  lemma AbsenceIsFinal(a: Server, b: Server, c: Server)
    requires Sound(a) && Sound(b) && Sound(c) && Later(a, b) && Later(b, c)
    requires a.job.None? && b.pods == []
    requires forall r :: r in a.inflight ==> !MayCommit(a, r)
    ensures Stopped(c)
  {
    assert b.job.None?;
    assert forall r :: r in b.inflight ==> !MayCommit(b, r);
    if c.pods != [] {
      NoPodIsNew(b, c, 0);
    }
  }

  function Written(s: Server, request: nat): Server {
    s.(inflight := s.inflight + {request})
  }

  datatype GetAnswer = Found(job: Job) | NotFound | GetFailed
  datatype ListAnswer = Listed(pods: seq<Pod>) | ListFailed
  datatype DeleteAnswer = Accepted | Missing | Conflict | DeleteFailed
  datatype CreateAnswer = Created(job: Job) | AlreadyExists | Rejected | NotWritten | NoAnswer

  /** The server itself. Every call lets the environment run before and after
      it; the protected markers are those the caller's run protects. */
  class Cluster {
    var s: Server
    /** How long after its client side ended the server may still commit a
        create request. */
    const maxHandling: Time
    /** The launch key. */
    const key: nat

    constructor (key: nat, s: Server, maxHandling: Time)
      ensures this.key == key && this.s == s && this.maxHandling == maxHandling
    {
      this.key, this.s, this.maxHandling := key, s, maxHandling;
    }

    /** Any number of environment events. */
    method Environment(keep: set<nat>)
      requires Sound(s)
      modifies this`s
      ensures Reaches(old(s), s, keep)
      ensures Sound(s) && Later(old(s), s) && (Kept(old(s), keep) ==> Kept(s, keep))
    {
      ReachesSelf(s, keep);
      var n: nat :| true;
      var i := 0;
      while i < n
        invariant Reaches(old(s), s, keep)
      {
        var e: Event := *;
        if Enabled(s, e, keep) {
          ReachesStep(old(s), s, e, keep);
          s := Apply(s, e, keep);
        }
        i := i + 1;
      }
      ReachesKeeps(old(s), s, keep);
    }

    /** Reads the Job under the key; at is the state the read saw. */
    method GetJob(keep: set<nat>) returns (answer: GetAnswer, ghost at: Server)
      requires Sound(s)
      modifies this`s
      ensures Reaches(old(s), at, keep) && Reaches(at, s, keep)
      ensures answer.Found? ==> at.job == Some(answer.job)
      ensures answer.NotFound? ==> at.job.None?
    {
      Environment(keep);
      at := s;
      answer := match s.job case Some(j) => Found(j) case None => NotFound;
      var failed: bool := *;
      if failed {
        answer := GetFailed;
      }
      Environment(keep);
    }

    /** Lists the Pods labelled with the key; at is the state the list saw. */
    method ListPods(keep: set<nat>) returns (answer: ListAnswer, ghost at: Server)
      requires Sound(s)
      modifies this`s
      ensures Reaches(old(s), at, keep) && Reaches(at, s, keep)
      ensures answer.Listed? ==> at.pods == answer.pods
    {
      Environment(keep);
      at := s;
      answer := Listed(s.pods);
      var failed: bool := *;
      if failed {
        answer := ListFailed;
      }
      Environment(keep);
    }

    /** Asks for the foreground deletion of the Job of one UID. A failed answer
        says nothing: the request may still be executed later. */
    method DeleteByUid(uid: nat, keep: set<nat>) returns (answer: DeleteAnswer)
      requires Sound(s) && uid in s.makers && s.makers[uid] !in keep
      modifies this`s
      ensures Reaches(old(s), s, keep)
    {
      Environment(keep);
      ReachesStep(old(s), s, AskDelete(uid), keep);
      s := Apply(s, AskDelete(uid), keep);
      ghost var asked := s;
      ReachesKeeps(old(s), s, keep);
      Environment(keep);
      ReachesTrans(old(s), asked, s, keep);
      answer := DeleteFailed;
      var answered: bool := *;
      if answered && uid in s.deletes {
        answer := if s.job.None? then Missing else if s.job.value.uid != uid then Conflict else Accepted;
        ReachesStep(old(s), s, ExecuteDelete(uid), keep);
        s := Apply(s, ExecuteDelete(uid), keep);
      }
      ghost var done := s;
      ReachesKeeps(old(s), s, keep);
      Environment(keep);
      ReachesTrans(old(s), done, s, keep);
    }

    /** One create request of an ordinal never used before. A rejection, an
        existing Job and a request that never reached the wire are truthful: the
        request made nothing and never will. An answer that carries the Job names
        what the request made; without an answer nothing is known. */
    method CreateJob(request: nat, keep: set<nat>) returns (answer: CreateAnswer)
      requires Sound(s) && request > 0 && !Made(s, request) && request !in s.inflight
      modifies this`s
      ensures Sound(s) && Later(Written(old(s), request), s)
      ensures Kept(old(s), keep) ==> Kept(s, keep)
      ensures answer.Created? ==> answer.job.marker == request && Made(s, request)
      ensures answer.AlreadyExists? || answer.Rejected? || answer.NotWritten? ==>
                !Made(s, request) && request !in s.inflight
    {
      hide Later, Kept, Made;
      Environment(keep);
      NeverMade(old(s), s, request);
      WriteKeeps(old(s), s, request, keep);
      var written: bool := *;
      if !written {
        return NotWritten;
      }
      s := Written(s, request);
      ghost var asked := s;
      Environment(keep);
      ghost var open := s;
      LaterTrans(Written(old(s), request), asked, open);
      answer := AnswerCreate(request, keep);
      ghost var done := s;
      LaterTrans(Written(old(s), request), open, done);
      Environment(keep);
      LaterTrans(Written(old(s), request), done, s);
      if answer.AlreadyExists? || answer.Rejected? {
        NeverMade(done, s, request);
      } else if answer.Created? {
        MadeStays(done, s, request);
      }
    }

    /** The server handles a written request: it may commit it, and it may answer. */
    method AnswerCreate(request: nat, keep: set<nat>) returns (answer: CreateAnswer)
      requires Sound(s)
      modifies this`s
      ensures Sound(s) && Later(old(s), s) && (Kept(old(s), keep) ==> Kept(s, keep))
      ensures !answer.NotWritten?
      ensures answer.Created? ==> answer.job.marker == request && Made(s, request)
      ensures answer.AlreadyExists? || answer.Rejected? ==> !Made(s, request) && request !in s.inflight
    {
      hide Later, Kept;
      var commits: bool, answered: bool := *, *;
      if commits && Enabled(s, Commit(request), keep) {
        StepKeeps(s, Commit(request), keep);
        s := Apply(s, Commit(request), keep);
      } else {
        LaterSelf(s);
      }
      if answered && s.job.Some? && s.job.value.marker == request {
        return Created(s.job.value);
      }
      if answered && request in s.inflight {
        ghost var open := s;
        answer := if s.job.Some? then AlreadyExists else Rejected;
        StepKeeps(s, Reject(request), keep);
        s := Apply(s, Reject(request), keep);
        LaterTrans(old(s), open, s);
        return;
      }
      answer := NoAnswer;
    }

    /** The client side of a request is over, now or earlier: the server can
        commit it only while it still handles it. */
    method EndClient(request: nat)
      modifies this`s
      ensures s == old(s).(closes := s.closes)
      ensures s.closes.Keys == old(s).closes.Keys + {request}
      ensures forall r :: r in old(s).closes && r != request ==> s.closes[r] == old(s).closes[r]
      ensures s.closes[request] <= s.clock + maxHandling
    {
      var earlier: nat :| true;
      var until := s.clock + maxHandling - earlier;
      s := s.(closes := s.closes[request := until]);
    }

    /** A durable timer: the environment runs until at least the duration passed. */
    method Wait(duration: Time, keep: set<nat>)
      requires Sound(s)
      modifies this`s
      ensures Reaches(old(s), s, keep) && s.clock >= old(s).clock + duration
    {
      var due := s.clock + duration;
      Environment(keep);
      if s.clock < due {
        ReachesStep(old(s), s, Tick(due - s.clock), keep);
        s := Apply(s, Tick(due - s.clock), keep);
      }
    }
  }
}
