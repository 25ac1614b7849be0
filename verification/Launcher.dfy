/** The fixed-template Job launcher against one launch key. */
module Launcher {
  import opened Wrappers
  import opened ApiServer
  import opened LaunchObservation

  /** The objects a delete must report instead of stopping: those of a request
      the caller has not accounted for or, when the caller owns no ledger
      (evidence first), any marked object the caller has not recorded. */
  predicate HeldBack(marker: nat, unaccounted: seq<nat>, evidenceFirst: bool, recorded: seq<nat>) {
    marker > 0 && (marker in unaccounted || (evidenceFirst && marker !in recorded))
  }

  datatype CreateRefusal = ProfileUnqualified | StaleExecution | DeadlineExceeded

  datatype CreateResult =
    | JobRef(uid: nat, request: nat)
    | NotCreated
    | Refused(code: CreateRefusal)
    | Unanswered

  /** What decides a create before and beside the API server: the reviewed
      profile's qualification and pinned image, whether its layout needs a launch
      secret, and the launch's absolute deadline. */
  datatype LaunchSpec = LaunchSpec(qualified: bool, imageMatches: bool, renders: bool, secret: bool, deadline: Time)

  class Client {
    const cluster: Cluster
    /** The UIDs this client asked to delete. */
    var asked: set<nat>

    constructor (cluster: Cluster)
      ensures this.cluster == cluster && asked == {}
    {
      this.cluster := cluster;
      asked := {};
    }

    /** The Job under the key, if it is this attempt's. */
    method ExistingRef(keep: set<nat>) returns (r: Option<CreateResult>)
      requires Sound(cluster.s)
      modifies cluster`s
      ensures Sound(cluster.s) && Later(old(cluster.s), cluster.s)
      ensures Kept(old(cluster.s), keep) ==> Kept(cluster.s, keep)
      ensures r.Some? ==> r.value.JobRef? || r.value == Refused(StaleExecution)
      ensures r.Some? && r.value.JobRef? ==> r.value.request == 0 || Made(cluster.s, r.value.request)
    {
      var answer, at := cluster.GetJob(keep);
      ReachesKeeps(old(cluster.s), at, keep);
      ReachesKeeps(at, cluster.s, keep);
      LaterTrans(old(cluster.s), at, cluster.s);
      r := None;
      if answer.Found? {
        // A Job of another attempt carries no marker of this launch.
        var foreign: bool := *;
        r := Some(if foreign && answer.job.marker == 0 then Refused(StaleExecution)
                  else JobRef(answer.job.uid, answer.job.marker));
      }
    }

    /** One create request. NotCreated and a refusal mean the request made
        nothing and never will; a JobRef names the request that made the Job. */
    method CreateJob(request: nat, spec: LaunchSpec, keep: set<nat>) returns (r: CreateResult)
      requires Sound(cluster.s) && request > 0 && !Made(cluster.s, request) && request !in cluster.s.inflight
      modifies cluster`s
      ensures Sound(cluster.s) && Later(Written(old(cluster.s), request), cluster.s)
      ensures Kept(old(cluster.s), keep) ==> Kept(cluster.s, keep)
      ensures r.JobRef? ==> r.request == 0 || Made(cluster.s, r.request)
      ensures !r.Unanswered? ==> request !in cluster.s.inflight
      ensures r.NotCreated? || r.Refused? ==> !Made(cluster.s, request)
    {
      if !spec.qualified {
        return Refused(ProfileUnqualified);
      }
      if !spec.imageMatches {
        return Refused(StaleExecution);
      }
      if spec.deadline <= cluster.s.clock {
        var existing := ExistingRef(keep);
        assert Later(Written(old(cluster.s), request), cluster.s);
        if existing.Some? && existing.value.JobRef? {
          return existing.value;
        }
        return Refused(DeadlineExceeded);
      }
      if !spec.renders {
        return Refused(ProfileUnqualified);
      }
      if spec.secret {
        // A failed secret create is classified like the Job's; without the
        // secret this request's Job create never happens.
        var stored: bool, refused: bool := *, *;
        if !stored {
          return if refused then NotCreated else Unanswered;
        }
      }
      var answer := cluster.CreateJob(request, keep);
      match answer
      case Created(job) =>
        return JobRef(job.uid, job.marker);
      case AlreadyExists =>
        ghost var mid := cluster.s;
        var existing := ExistingRef(keep);
        LaterTrans(Written(old(cluster.s), request), mid, cluster.s);
        return if existing.Some? then existing.value else NotCreated;
      case Rejected =>
        return NotCreated;
      case NotWritten =>
        return NotCreated;
      case NoAnswer =>
        return Unanswered;
    }

    /** One look at the key: the Job, then the Pods. */
    method ReadKey(keep: set<nat>) returns (r: Result<(Option<Job>, Observation), ()>, ghost a: Server, ghost b: Server)
      requires Sound(cluster.s)
      modifies cluster`s
      ensures Reaches(old(cluster.s), a, keep) && Reaches(a, b, keep) && Reaches(b, cluster.s, keep)
      ensures r.Ok? ==> r.value.0 == a.job && r.value.1 == Observe(a.job, b.pods)
      ensures r.Ok? ==> forall m :: m in r.value.1.requests ==> Made(cluster.s, m)
    {
      var got: GetAnswer;
      got, a := cluster.GetJob(keep);
      ReachesKeeps(old(cluster.s), a, keep);
      ReachesKeeps(a, cluster.s, keep);
      ghost var mid := cluster.s;
      var listed: ListAnswer;
      listed, b := cluster.ListPods(keep);
      ReachesTrans(a, mid, b, keep);
      ReachesKeeps(a, b, keep);
      ReachesKeeps(b, cluster.s, keep);
      if got.GetFailed? || listed.ListFailed? {
        return Err(()), a, b;
      }
      var job := if got.Found? then Some(got.job) else None;
      ObserveExact(job, listed.pods);
      r := Ok((job, Observe(job, listed.pods)));
    }

    /** Reports what the key holds as soon as it holds anything; absence for the
        whole settle window is an error, never an observation. polls is how many
        polls the window leaves room for. */
    method ObserveLaunch(polls: nat, keep: set<nat>) returns (r: Result<Observation, ()>)
      requires Sound(cluster.s)
      modifies cluster`s
      ensures Reaches(old(cluster.s), cluster.s, keep)
      ensures r.Ok? ==> !r.value.Empty()
      ensures r.Ok? ==> forall m :: m in r.value.requests ==> Made(cluster.s, m)
    {
      ReachesSelf(cluster.s, keep);
      var i := 0;
      while i <= polls
        invariant Sound(cluster.s) && Reaches(old(cluster.s), cluster.s, keep)
      {
        ghost var start := cluster.s;
        var seen, a, b := ReadKey(keep);
        Joined(old(cluster.s), start, a, b, cluster.s, keep);
        if seen.Err? {
          return Err(());
        }
        if !seen.value.1.Empty() {
          return Ok(seen.value.1);
        }
        i := i + 1;
      }
      return Err(());
    }

    /** Stops the launch. An empty observation is returned only after a read of
        an absent Job (a) followed by a read of no Pod (b); a non-empty one holds
        an object held back, which was left in place. Whatever happens between
        the reads and the deletes, this client asks to delete only Jobs whose
        marker it may stop. polls is how many polls the call's context allows. */
    method DeleteJob(unaccounted: seq<nat>, evidenceFirst: bool, recorded: seq<nat>, polls: nat, keep: set<nat>)
      returns (r: Result<Observation, ()>, ghost a: Server, ghost b: Server, ghost read: bool)
      requires Sound(cluster.s)
      requires forall m :: m in keep ==> HeldBack(m, unaccounted, evidenceFirst, recorded)
      modifies this`asked, cluster`s
      ensures Reaches(old(cluster.s), cluster.s, keep)
      ensures r.Ok? ==> Reaches(old(cluster.s), a, keep) && Reaches(a, b, keep) && Reaches(b, cluster.s, keep)
      ensures r.Ok? ==> r.value == Observe(a.job, b.pods) || r.value.Empty()
      ensures r.Ok? && r.value.Empty() ==> a.job.None? && b.pods == []
      ensures r.Ok? && !r.value.Empty() ==>
                exists m :: m in r.value.requests && HeldBack(m, unaccounted, evidenceFirst, recorded)
      ensures r.Ok? ==> forall m :: m in r.value.requests ==> Made(cluster.s, m)
      // A Job that was read and not reported was asked to be deleted.
      ensures r.Err? && read && a.job.Some? ==> a.job.value.uid in asked
      ensures old(asked) <= asked
      ensures forall u :: u in asked - old(asked) ==>
                u in cluster.s.makers && !HeldBack(cluster.s.makers[u], unaccounted, evidenceFirst, recorded)
    {
      hide Sound, Later, Kept, Reaches, Observe, Made;
      a, b, read := cluster.s, cluster.s, false;
      ReachesSelf(cluster.s, keep);
      var i := 0;
      while i < polls
        invariant Sound(cluster.s) && Reaches(old(cluster.s), cluster.s, keep)
        invariant read && a.job.Some? ==> a.job.value.uid in asked
        invariant old(asked) <= asked
        invariant forall u :: u in asked - old(asked) ==>
                    u in cluster.s.makers && !HeldBack(cluster.s.makers[u], unaccounted, evidenceFirst, recorded)
      {
        ghost var start := cluster.s;
        var seen;
        seen, a, b := ReadKey(keep);
        Joined(old(cluster.s), start, a, b, cluster.s, keep);
        read := seen.Ok?;
        if seen.Err? {
          return Err(()), a, b, read;
        }
        var job, obs := seen.value.0, seen.value.1;
        ObserveExact(job, b.pods);
        if exists m :: m in obs.requests && HeldBack(m, unaccounted, evidenceFirst, recorded) {
          return Ok(obs), a, b, read;
        }
        if obs.Empty() {
          // The per-launch secret goes last.
          var secretFailed: bool := *;
          return if secretFailed then Err(()) else Ok(obs), a, b, read;
        }
        if job.Some? {
          ghost var before := cluster.s;
          asked := asked + {job.value.uid};
          var answer := cluster.DeleteByUid(job.value.uid, keep);
          ReachesTrans(old(cluster.s), before, cluster.s, keep);
          ReachesKeeps(before, cluster.s, keep);
          if answer.DeleteFailed? {
            return Err(()), a, b, read;
          }
          // A conflict observes the key again at once: the name holds another
          // Job, whose own marker decides.
        }
        i := i + 1;
      }
      return Err(()), a, b, read;
    }
  }

  lemma Joined(s: Server, t: Server, a: Server, b: Server, u: Server, keep: set<nat>)
    requires Sound(s) && Reaches(s, t, keep) && Reaches(t, a, keep) && Reaches(a, b, keep) && Reaches(b, u, keep)
    ensures Reaches(s, a, keep) && Reaches(s, b, keep) && Reaches(s, u, keep)
    ensures Sound(t) && Sound(a) && Sound(b) && Sound(u)
    ensures Later(t, u) && Later(s, a) && Later(a, b) && Later(b, u) && Later(a, u)
  {
    ReachesTrans(s, t, a, keep);
    ReachesTrans(s, a, b, keep);
    ReachesTrans(s, b, u, keep);
    ReachesTrans(a, b, u, keep);
    ReachesTrans(t, a, b, keep);
    ReachesTrans(t, b, u, keep);
    ReachesKeeps(s, t, keep);
    ReachesKeeps(s, a, keep);
    ReachesKeeps(a, b, keep);
    ReachesKeeps(b, u, keep);
    ReachesKeeps(a, u, keep);
    ReachesKeeps(t, u, keep);
  }
}
