/** What one observation of a launch key reports: the Job identity, the Pods in
    owner order and the create request markers of all of them. */
module LaunchObservation {
  import opened Wrappers
  import opened ApiServer

  datatype Observation = Observation(jobUid: Option<nat>, pods: seq<Pod>, requests: seq<nat>) {
    predicate Empty() {
      jobUid.None? && pods == [] && requests == []
    }
  }

  predicate OwnedBy(p: Pod, jobUid: Option<nat>) {
    jobUid.Some? && p.owner == jobUid
  }

  /** The sort's strict order: the Job's own Pods first, then creation order. */
  predicate Precedes(p: Pod, q: Pod, jobUid: Option<nat>) {
    if OwnedBy(p, jobUid) != OwnedBy(q, jobUid) then OwnedBy(p, jobUid) else p.created < q.created
  }

  function Insert(sorted: seq<Pod>, p: Pod, jobUid: Option<nat>): seq<Pod> {
    var n := |sorted|;
    if n == 0 then [p]
    else if Precedes(p, sorted[n - 1], jobUid) then Insert(sorted[..n - 1], p, jobUid) + [sorted[n - 1]]
    else sorted + [p]
  }

  function PodsInOwnerOrder(items: seq<Pod>, jobUid: Option<nat>): seq<Pod> {
    if items == [] then [] else Insert(PodsInOwnerOrder(items[..|items| - 1], jobUid), items[|items| - 1], jobUid)
  }

  ghost predicate Ordered(s: seq<Pod>, jobUid: Option<nat>) {
    forall i, j :: 0 <= i < j < |s| ==> !Precedes(s[j], s[i], jobUid)
  }

  /** The Pods of s that the order cannot tell from p, in their order in s. */
  function Ties(s: seq<Pod>, p: Pod, jobUid: Option<nat>): seq<Pod> {
    if s == [] then []
    else
      var n := |s| - 1;
      Ties(s[..n], p, jobUid) +
      (if Tied(s[n], p, jobUid) then [s[n]] else [])
  }

  lemma {:induction false} TiesPush(s: seq<Pod>, x: Pod, p: Pod, jobUid: Option<nat>)
    ensures Ties(s + [x], p, jobUid) ==
            Ties(s, p, jobUid) + (if Tied(x, p, jobUid) then [x] else [])
  {
    assert (s + [x])[..|s|] == s;
  }

  lemma {:induction false} InsertAdds(s: seq<Pod>, x: Pod, jobUid: Option<nat>)
    ensures multiset(Insert(s, x, jobUid)) == multiset(s) + multiset{x}
    ensures forall y :: y in Insert(s, x, jobUid) <==> y in s || y == x
    decreases |s|
  {
    var n := |s|;
    if n != 0 && Precedes(x, s[n - 1], jobUid) {
      InsertAdds(s[..n - 1], x, jobUid);
      assert s == s[..n - 1] + [s[n - 1]];
    }
  }

  lemma {:induction false} InsertKeepsOrder(s: seq<Pod>, x: Pod, jobUid: Option<nat>)
    requires Ordered(s, jobUid)
    ensures Ordered(Insert(s, x, jobUid), jobUid)
    decreases |s|
  {
    var n := |s|;
    if n != 0 && Precedes(x, s[n - 1], jobUid) {
      InsertKeepsOrder(s[..n - 1], x, jobUid);
      InsertAdds(s[..n - 1], x, jobUid);
      var inner := Insert(s[..n - 1], x, jobUid);
      forall i | 0 <= i < |inner| ensures !Precedes(s[n - 1], inner[i], jobUid) {
        assert inner[i] in inner;
      }
    }
  }

  predicate Tied(x: Pod, p: Pod, jobUid: Option<nat>) {
    !Precedes(p, x, jobUid) && !Precedes(x, p, jobUid)
  }

  /** Of two Pods the order tells apart, at most one ties with p. */
  lemma OneTie(x: Pod, y: Pod, p: Pod, jobUid: Option<nat>)
    requires Precedes(x, y, jobUid)
    ensures !(Tied(x, p, jobUid) && Tied(y, p, jobUid))
  {
  }

  lemma {:induction false} InsertKeepsTies(s: seq<Pod>, x: Pod, p: Pod, jobUid: Option<nat>)
    ensures Ties(Insert(s, x, jobUid), p, jobUid) == Ties(s + [x], p, jobUid)
    decreases |s|
  {
    var n := |s|;
    if n == 0 {
      assert s + [x] == [x];
    } else if Precedes(x, s[n - 1], jobUid) {
      var front, last := s[..n - 1], s[n - 1];
      InsertKeepsTies(front, x, p, jobUid);
      OneTie(x, last, p, jobUid);
      var before := Insert(front, x, jobUid);
      assert Insert(s, x, jobUid) == before + [last];
      SwapKeepsTies(front, before, x, last, p, jobUid);
      assert s == front + [last];
    }
  }

  lemma SwapKeepsTies(front: seq<Pod>, before: seq<Pod>, x: Pod, last: Pod, p: Pod, jobUid: Option<nat>)
    requires Ties(before, p, jobUid) == Ties(front + [x], p, jobUid) && !(Tied(x, p, jobUid) && Tied(last, p, jobUid))
    ensures Ties(before + [last], p, jobUid) == Ties(front + [last] + [x], p, jobUid)
  {
    hide Precedes, Ties;
    TiesPush(before, last, p, jobUid);
    TiesPush(front, x, p, jobUid);
    TiesPush(front, last, p, jobUid);
    TiesPush(front + [last], x, p, jobUid);
  }

  /** podsInOwnerOrder is the stable sort by ownership, then creation: the same
      Pods, ordered, and Pods the order cannot tell apart keep their order. */
  lemma {:induction false} OwnerOrderIsStableSort(items: seq<Pod>, p: Pod, jobUid: Option<nat>)
    ensures Ordered(PodsInOwnerOrder(items, jobUid), jobUid)
    ensures multiset(PodsInOwnerOrder(items, jobUid)) == multiset(items)
    ensures Ties(PodsInOwnerOrder(items, jobUid), p, jobUid) == Ties(items, p, jobUid)
    decreases |items|
  {
    if items != [] {
      var n := |items| - 1;
      var front, x := items[..n], items[n];
      assert items == front + [x];
      OwnerOrderIsStableSort(front, p, jobUid);
      var sorted := PodsInOwnerOrder(front, jobUid);
      InsertAdds(sorted, x, jobUid);
      InsertKeepsOrder(sorted, x, jobUid);
      InsertKeepsTies(sorted, x, p, jobUid);
      TiesPush(sorted, x, p, jobUid);
      TiesPush(front, x, p, jobUid);
    }
  }

  lemma OwnerOrderMembers(items: seq<Pod>, jobUid: Option<nat>)
    ensures |PodsInOwnerOrder(items, jobUid)| == |items|
    ensures forall p :: p in PodsInOwnerOrder(items, jobUid) <==> p in items
  {
    var out := PodsInOwnerOrder(items, jobUid);
    OwnerOrderIsStableSort(items, Pod(0, None, 0, 0), jobUid);
    assert |multiset(out)| == |multiset(items)|;
    forall p ensures p in out <==> p in items {
      assert p in multiset(out) <==> p in multiset(items);
    }
  }

  /** The physical owner comes first: when the Job owns a Pod at all, the first
      reported Pod is one of its own, and no own Pod was created before it. */
  lemma OwnPodComesFirst(items: seq<Pod>, jobUid: Option<nat>, own: Pod)
    requires own in items && OwnedBy(own, jobUid)
    ensures PodsInOwnerOrder(items, jobUid) != []
    ensures var first := PodsInOwnerOrder(items, jobUid)[0];
            first in items && OwnedBy(first, jobUid) && first.created <= own.created
  {
    var out := PodsInOwnerOrder(items, jobUid);
    OwnerOrderMembers(items, jobUid);
    OwnerOrderIsStableSort(items, own, jobUid);
    var k :| 0 <= k < |out| && out[k] == own;
    assert out[0] in out;
  }

  /** The marker set kept as an ascending sequence. */
  function AddRequest(rs: seq<nat>, r: nat): seq<nat> {
    if r == 0 || r in rs then rs
    else if rs == [] || r < rs[0] then [r] + rs
    else [rs[0]] + AddRequest(rs[1..], r)
  }

  function PodRequests(pods: seq<Pod>): seq<nat> {
    if pods == [] then [] else AddRequest(PodRequests(pods[..|pods| - 1]), pods[|pods| - 1].marker)
  }

  ghost predicate Ascending(rs: seq<nat>) {
    forall i, j :: 0 <= i < j < |rs| ==> rs[i] < rs[j]
  }

  lemma {:induction false} AddRequestKeepsOrder(rs: seq<nat>, r: nat)
    requires Ascending(rs)
    ensures Ascending(AddRequest(rs, r))
    ensures forall x :: x in AddRequest(rs, r) <==> x in rs || (x == r && r > 0)
  {
    if r != 0 && r !in rs && rs != [] && r >= rs[0] {
      AddRequestKeepsOrder(rs[1..], r);
      var rest := AddRequest(rs[1..], r);
      assert forall x :: x in rest ==> x in rs[1..] || x == r;
      assert forall x :: x in rs[1..] ==> rs[0] < x;
      assert forall x :: x in rs <==> x == rs[0] || x in rs[1..];
      forall j | 0 <= j < |rest| ensures rs[0] < rest[j] {
        assert rest[j] in rest;
      }
    }
  }

  lemma {:induction false} PodRequestsExact(pods: seq<Pod>)
    ensures Ascending(PodRequests(pods))
    ensures forall x :: x in PodRequests(pods) <==> x > 0 && exists p :: p in pods && p.marker == x
    decreases |pods|
  {
    if pods != [] {
      var n := |pods| - 1;
      PodRequestsExact(pods[..n]);
      AddRequestKeepsOrder(PodRequests(pods[..n]), pods[n].marker);
      assert forall p :: p in pods <==> p in pods[..n] || p == pods[n];
    }
  }

  function FirstController(pods: seq<Pod>): Option<nat> {
    if pods == [] then None else if pods[0].owner.Some? then pods[0].owner else FirstController(pods[1..])
  }

  function Observe(job: Option<Job>, pods: seq<Pod>): Observation {
    var jobUid := if job.Some? then Some(job.value.uid) else FirstController(PodsInOwnerOrder(pods, None));
    var ordered := PodsInOwnerOrder(pods, jobUid);
    Observation(jobUid, ordered, AddRequest(PodRequests(ordered), if job.Some? then job.value.marker else 0))
  }

  /** The reported requests are exactly the markers the Job and the Pods carry,
      each once and ascending, and the observation is empty only when the key
      shows nothing at all. */
  lemma ObserveExact(job: Option<Job>, pods: seq<Pod>)
    ensures var o := Observe(job, pods);
            && Ascending(o.requests)
            && (forall r :: r in o.requests <==>
                 r > 0 && ((job.Some? && job.value.marker == r) || exists p :: p in pods && p.marker == r))
            && (o.Empty() <==> job.None? && pods == [])
            && |o.pods| == |pods|
  {
    var o := Observe(job, pods);
    OwnerOrderMembers(pods, o.jobUid);
    OwnerOrderMembers(pods, None);
    PodRequestsExact(o.pods);
    AddRequestKeepsOrder(PodRequests(o.pods), if job.Some? then job.value.marker else 0);
  }

  /** When the Job is gone its identity comes from its earliest lingering Pod. */
  lemma {:induction false} GoneJobIsNamedByItsEarliestPod(pods: seq<Pod>, p: Pod) returns (q: Pod)
    requires p in pods && p.owner.Some?
    ensures q in pods && q.owner.Some? && Observe(None, pods).jobUid == q.owner && q.created <= p.created
  {
    var out := PodsInOwnerOrder(pods, None);
    OwnerOrderMembers(pods, None);
    OwnerOrderIsStableSort(pods, p, None);
    var k :| 0 <= k < |out| && out[k] == p;
    var m := FirstControllerAt(out, k);
    q := out[m];
    assert q in out;
    assert !Precedes(out[k], out[m], None) || m == k;
  }

  lemma {:induction false} FirstControllerAt(pods: seq<Pod>, k: nat) returns (m: nat)
    requires k < |pods| && pods[k].owner.Some?
    ensures m <= k && pods[m].owner.Some? && FirstController(pods) == pods[m].owner
    decreases k
  {
    if pods[0].owner.Some? {
      m := 0;
    } else {
      m := FirstControllerAt(pods[1..], k - 1);
      m := m + 1;
    }
  }
}
