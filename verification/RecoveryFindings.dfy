/** The findings of a recovery run: Control's fixed order read page by page, and
    the Activity that advances one page of them. */
module RecoveryFindings {
  import opened Wrappers

  /** launch: a job-launch finding whose launch key Control's database holds. */
  datatype Finding = Finding(id: nat, settled: bool, launch: bool)

  datatype Page = Page(findings: seq<Finding>, next: nat, complete: bool)

  /** Control's answer about one finding; a refusal carries a stable code, a
      transient failure none. */
  datatype Reconciled = Advanced(finding: Finding) | Failed(refusal: Option<nat>)

  const UNAVAILABLE: nat := 0

  function ReasonOf(r: Option<nat>): nat {
    if r.Some? then r.value else UNAVAILABLE
  }

  datatype Reconciliation = Reconciliation(findings: seq<Finding>, failures: map<nat, nat>)

  function Ids(fs: seq<Finding>): seq<nat> {
    if fs == [] then [] else [fs[0].id] + Ids(fs[1..])
  }

  function UnsettledIds(fs: seq<Finding>): seq<nat> {
    if fs == [] then [] else (if fs[0].settled then [] else [fs[0].id]) + UnsettledIds(fs[1..])
  }

  /** The findings whose reconciliation answered, in input order. */
  function AdvancedOf(answers: seq<Reconciled>): seq<Finding> {
    if answers == [] then []
    else
      var n := |answers| - 1;
      AdvancedOf(answers[..n]) + if answers[n].Advanced? then [answers[n].finding] else []
  }

  lemma AdvancedPush(answers: seq<Reconciled>, a: Reconciled)
    ensures AdvancedOf(answers + [a]) == AdvancedOf(answers) + if a.Advanced? then [a.finding] else []
  {
    assert (answers + [a])[..|answers|] == answers;
  }

  lemma {:induction false} AdvancedExact(answers: seq<Reconciled>, f: Finding)
    ensures f in AdvancedOf(answers) <==> Reconciled.Advanced(f) in answers
    ensures (forall a :: a in answers ==> a.Failed?) <==> AdvancedOf(answers) == []
  {
    if answers != [] {
      var n := |answers| - 1;
      AdvancedExact(answers[..n], f);
      assert answers == answers[..n] + [answers[n]];
      assert forall a :: a in answers <==> a in answers[..n] || a == answers[n];
      if answers[n].Advanced? {
        assert !answers[n].Failed? && answers[n] in answers;
        assert AdvancedOf(answers)[|AdvancedOf(answers)| - 1] == answers[n].finding;
      }
    }
  }

  /** The gate's evaluation: refused, not answered, or the run's phase. */
  datatype Evaluation = Refused | Deferred | Restricted | Reopened

  /** Control's findings of one run, in their fixed order, with all it was asked.
      Their states change whenever Control learns something. */
  class Control {
    const ids: seq<nat>
    const pageSize: nat
    /** Each pass over the inventory's classes, and whether it was complete. */
    ghost var enumerations: seq<bool>
    ghost var listed: seq<Page>
    /** How many listings were not answered. */
    ghost var unlisted: nat
    /** The ids of each reconciliation Activity, in the order they were submitted. */
    ghost var submitted: seq<seq<nat>>
    /** Each single reconciliation with its answer. */
    ghost var reconciled: seq<(nat, Reconciled)>
    ghost var evaluations: seq<Evaluation>

    constructor (ids: seq<nat>, pageSize: nat)
      requires pageSize > 0
      ensures this.ids == ids && this.pageSize == pageSize
      ensures listed == [] && submitted == [] && reconciled == [] && evaluations == []
      ensures enumerations == [] && unlisted == 0
    {
      this.ids, this.pageSize := ids, pageSize;
      listed, submitted, reconciled, evaluations := [], [], [], [];
      enumerations, unlisted := [], 0;
    }

    method EnumerateInventory() returns (complete: bool)
      modifies this`enumerations
      ensures enumerations == old(enumerations) + [complete]
    {
      complete := *;
      enumerations := enumerations + [complete];
    }

    /** The findings from the cursor on, up to the page's size. */
    method ListFindings(cursor: nat) returns (page: Result<Page, ()>)
      requires cursor <= |ids| && pageSize > 0
      modifies this`listed, this`unlisted
      ensures listed == if page.Ok? then old(listed) + [page.value] else old(listed)
      ensures unlisted == old(unlisted) + if page.Ok? then 0 else 1
      ensures page.Ok? ==>
                && page.value.next == cursor + |page.value.findings| <= |ids|
                && Ids(page.value.findings) == ids[cursor..page.value.next]
                && (page.value.complete <==> page.value.next == |ids|)
                && (!page.value.complete ==> page.value.findings != [])
    {
      var answered: bool := *;
      if !answered {
        unlisted := unlisted + 1;
        return Err(());
      }
      var end := if cursor + pageSize < |ids| then cursor + pageSize else |ids|;
      var findings := [];
      var i := end;
      while i > cursor
        invariant cursor <= i <= end
        invariant Ids(findings) == ids[i..end] && |findings| == end - i
      {
        i := i - 1;
        var settled: bool, launch: bool := *, *;
        findings := [Finding(ids[i], settled, launch)] + findings;
        assert ids[i..end] == [ids[i]] + ids[i + 1..end];
      }
      listed := listed + [Page(findings, end, end == |ids|)];
      return Ok(Page(findings, end, end == |ids|));
    }

    /** Restores or queries one finding. */
    method ReconcileFinding(id: nat) returns (r: Reconciled)
      modifies this`reconciled
      ensures r.Advanced? ==> r.finding.id == id
      ensures reconciled == old(reconciled) + [(id, r)]
    {
      var answered: bool, refusal: Option<nat> := *, *;
      var settled: bool, launch: bool := *, *;
      r := if answered then Advanced(Finding(id, settled, launch)) else Failed(refusal);
      reconciled := reconciled + [(id, r)];
    }

    method EvaluateRecovery() returns (e: Evaluation)
      modifies this`evaluations
      ensures evaluations == old(evaluations) + [e]
    {
      e :| true;
      evaluations := evaluations + [e];
    }
  }

  /** The first ids with their answers. */
  function Paired(ids: seq<nat>, answers: seq<Reconciled>): seq<(nat, Reconciled)>
    requires |answers| <= |ids|
  {
    seq(|answers|, i requires 0 <= i < |answers| => (ids[i], answers[i]))
  }

  /** One finding's failure is reported and hides nothing: every finding of the
      page was reconciled once, in order. */
  ghost predicate PageResult(ids: seq<nat>, answers: seq<Reconciled>, out: Reconciliation) {
    && |answers| == |ids|
    && (forall i :: 0 <= i < |ids| && answers[i].Advanced? ==> answers[i].finding.id == ids[i])
    && out.findings == AdvancedOf(answers)
    && (forall id :: id in out.failures <==> exists i :: 0 <= i < |ids| && ids[i] == id && answers[i].Failed?)
    && (forall id :: id in out.failures ==>
         exists i :: 0 <= i < |ids| && ids[i] == id && answers[i].Failed? && out.failures[id] == ReasonOf(answers[i].refusal))
  }

  /** The Activity: it fails only when it was canceled, or when nothing advanced
      and the last failure was transient. */
  method ReconcileFindings(control: Control, ids: seq<nat>) returns (r: Result<Reconciliation, ()>, answers: seq<Reconciled>, canceled: bool)
    modifies control`submitted, control`reconciled
    ensures control.submitted == old(control.submitted) + [ids]
    ensures |answers| <= |ids| && control.reconciled == old(control.reconciled) + Paired(ids, answers)
    ensures r.Ok? ==> PageResult(ids, answers, r.value)
    ensures r.Ok? ==> !canceled && !(AdvancedOf(answers) == [] && answers != [] && answers[|answers| - 1].refusal.None?)
    ensures r.Err? && !canceled ==>
              && |answers| == |ids| && answers != [] && (forall a :: a in answers ==> a.Failed?)
              && answers[|answers| - 1].refusal.None?
  {
    hide PageResult, AdvancedOf, Paired;
    PageStarts();
    NothingPaired(ids);
    control.submitted := control.submitted + [ids];
    answers, canceled := [], false;
    var out := Reconciliation([], map[]);
    var last: Option<Option<nat>> := None;
    var i := 0;
    while i < |ids|
      invariant i <= |ids| && PageResult(ids[..i], answers, out) && !canceled
      invariant control.submitted == old(control.submitted) + [ids]
      invariant |answers| == i && control.reconciled == old(control.reconciled) + Paired(ids, answers)
      invariant last.None? <==> forall a :: a in answers ==> a.Advanced?
      invariant AdvancedOf(answers) == [] && answers != [] ==>
                  answers[|answers| - 1].Failed? && last == Some(answers[|answers| - 1].refusal)
    {
      canceled := *;
      if canceled {
        return Err(()), answers, canceled;
      }
      var a := control.ReconcileFinding(ids[i]);
      AdvancedPush(answers, a);
      PageGrows(ids[..i], answers, out, ids[i], a);
      PageLength(ids[..i], answers, out);
      if a.Failed? {
        AdvancedExact(answers, Finding(0, false, false));
        last := Some(a.refusal);
        out := out.(failures := out.failures[ids[i] := ReasonOf(a.refusal)]);
      } else {
        out := out.(findings := out.findings + [a.finding]);
      }
      assert ids[..i + 1] == ids[..i] + [ids[i]];
      PairedPush(ids, answers, a);
      answers := answers + [a];
      i := i + 1;
    }
    assert ids[..i] == ids;
    PageLength(ids, answers, out);
    if out.findings == [] && last.Some? && last.value.None? {
      AdvancedExact(answers, Finding(0, false, false));
      return Err(()), answers, canceled;
    }
    return Ok(out), answers, canceled;
  }

  /** The Activity of one finding. */
  method ReconcileOne(control: Control, id: nat) returns (r: Reconciled)
    modifies control`submitted, control`reconciled
    ensures r.Advanced? ==> r.finding.id == id
    ensures control.submitted == old(control.submitted) + [[id]]
    ensures control.reconciled == old(control.reconciled) + [(id, r)]
  {
    control.submitted := control.submitted + [[id]];
    r := control.ReconcileFinding(id);
  }

  lemma PairedPush(ids: seq<nat>, answers: seq<Reconciled>, a: Reconciled)
    requires |answers| < |ids|
    ensures Paired(ids, answers + [a]) == Paired(ids, answers) + [(ids[|answers|], a)]
  {
  }

  lemma NothingPaired(ids: seq<nat>)
    ensures Paired(ids, []) == []
  {
  }

  lemma PageStarts()
    ensures PageResult([], [], Reconciliation([], map[])) && AdvancedOf([]) == []
  {
  }

  lemma PageLength(ids: seq<nat>, answers: seq<Reconciled>, out: Reconciliation)
    requires PageResult(ids, answers, out)
    ensures |answers| == |ids| && out.findings == AdvancedOf(answers)
  {
  }

  lemma PageGrows(ids: seq<nat>, answers: seq<Reconciled>, out: Reconciliation, id: nat, a: Reconciled)
    requires PageResult(ids, answers, out) && (a.Advanced? ==> a.finding.id == id)
    ensures PageResult(ids + [id], answers + [a],
                       if a.Failed? then out.(failures := out.failures[id := ReasonOf(a.refusal)])
                       else out.(findings := out.findings + [a.finding]))
  {
    AdvancedPush(answers, a);
    var more := if a.Failed? then out.failures[id := ReasonOf(a.refusal)] else out.failures;
    var ids', answers' := ids + [id], answers + [a];
    assert forall i :: 0 <= i < |ids| ==> ids'[i] == ids[i] && answers'[i] == answers[i];
    forall x | x in more
      ensures exists i :: 0 <= i < |ids'| && ids'[i] == x && answers'[i].Failed? && more[x] == ReasonOf(answers'[i].refusal)
    {
      if a.Failed? && x == id {
        assert ids'[|ids|] == x;
      } else {
        var i :| 0 <= i < |ids| && ids[i] == x && answers[i].Failed? && out.failures[x] == ReasonOf(answers[i].refusal);
        assert ids'[i] == x;
      }
    }
    forall i | 0 <= i < |ids'| && answers'[i].Failed? ensures ids'[i] in more {
      if i < |ids| {
        assert ids[i] in out.failures;
      }
    }
  }

  /** A completed page of distinct findings is split exactly into those that
      advanced and those that failed. */
  lemma PageIsSplit(ids: seq<nat>, answers: seq<Reconciled>, out: Reconciliation, id: nat)
    requires PageResult(ids, answers, out) && Distinct(ids)
    ensures id in ids <==> id in out.failures || exists f :: f in out.findings && f.id == id
    ensures id in out.failures ==> forall f :: f in out.findings ==> f.id != id
  {
    forall f | f in out.findings
      ensures exists i :: 0 <= i < |ids| && ids[i] == f.id && answers[i] == Reconciled.Advanced(f)
    {
      AdvancedExact(answers, f);
      var i :| 0 <= i < |answers| && answers[i] == Reconciled.Advanced(f);
      assert ids[i] == f.id;
    }
    if id in ids {
      var i :| 0 <= i < |ids| && ids[i] == id;
      if answers[i].Advanced? {
        AdvancedExact(answers, answers[i].finding);
        assert answers[i].finding in out.findings;
      }
    }
  }

  /** The calls a batched round makes: one for each page that holds unsettled
      findings, naming all of them. */
  function CallsOf(pages: seq<Page>): seq<seq<nat>> {
    if pages == [] then []
    else
      var n := |pages| - 1;
      var ids := UnsettledIds(pages[n].findings);
      CallsOf(pages[..n]) + if ids == [] then [] else [ids]
  }

  function Listed(pages: seq<Page>): seq<Finding> {
    if pages == [] then [] else Listed(pages[..|pages| - 1]) + pages[|pages| - 1].findings
  }

  function Joined(calls: seq<seq<nat>>): seq<nat> {
    if calls == [] then [] else Joined(calls[..|calls| - 1]) + calls[|calls| - 1]
  }

  lemma CallsPush(pages: seq<Page>, page: Page)
    ensures CallsOf(pages + [page]) ==
            CallsOf(pages) + if UnsettledIds(page.findings) == [] then [] else [UnsettledIds(page.findings)]
    ensures Listed(pages + [page]) == Listed(pages) + page.findings
  {
    assert (pages + [page])[..|pages|] == pages;
  }

  lemma {:induction false} UnsettledJoin(fs: seq<Finding>, gs: seq<Finding>)
    ensures UnsettledIds(fs + gs) == UnsettledIds(fs) + UnsettledIds(gs)
    ensures Ids(fs + gs) == Ids(fs) + Ids(gs)
  {
    if fs == [] {
      assert fs + gs == gs;
    } else {
      assert (fs + gs)[0] == fs[0] && (fs + gs)[1..] == fs[1..] + gs;
      UnsettledJoin(fs[1..], gs);
    }
  }

  lemma JoinedPush(calls: seq<seq<nat>>, ids: seq<nat>)
    ensures Joined(calls + [ids]) == Joined(calls) + ids
  {
    assert (calls + [ids])[..|calls|] == calls;
  }

  lemma NothingJoined()
    ensures Joined([]) == [] && UnsettledIds([]) == []
  {
  }

  /** One after the other, the calls name every listed finding that was not
      settled, once for each time it was listed, and nothing else. */
  lemma {:induction false} CallsNameEveryUnsettled(pages: seq<Page>)
    ensures Joined(CallsOf(pages)) == UnsettledIds(Listed(pages))
    ensures forall c :: c in CallsOf(pages) ==> c != []
  {
    hide UnsettledIds, Joined;
    if pages == [] {
      NothingJoined();
    } else {
      var n := |pages| - 1;
      CallsNameEveryUnsettled(pages[..n]);
      UnsettledJoin(Listed(pages[..n]), pages[n].findings);
      var ids := UnsettledIds(pages[n].findings);
      if ids == [] {
        assert CallsOf(pages) == CallsOf(pages[..n]);
      } else {
        JoinedPush(CallsOf(pages[..n]), ids);
      }
    }
  }

  lemma DistinctPush(x: nat, xs: seq<nat>)
    requires Distinct(xs) && x !in xs
    ensures Distinct([x] + xs)
  {
  }

  lemma {:induction false} UnsettledAmong(fs: seq<Finding>)
    ensures forall x :: x in UnsettledIds(fs) ==> x in Ids(fs)
    ensures Distinct(Ids(fs)) ==> Distinct(UnsettledIds(fs))
    ensures forall i :: 0 <= i < |fs| && !fs[i].settled ==> fs[i].id in UnsettledIds(fs)
  {
    if fs != [] {
      UnsettledAmong(fs[1..]);
      assert Ids(fs) == [fs[0].id] + Ids(fs[1..]);
      if Distinct(Ids(fs)) {
        assert Distinct(Ids(fs[1..])) by {
          assert forall i :: 0 <= i < |Ids(fs[1..])| ==> Ids(fs[1..])[i] == Ids(fs)[i + 1];
        }
        forall x | x in UnsettledIds(fs[1..]) ensures x != fs[0].id {
          var i :| 0 <= i < |Ids(fs[1..])| && Ids(fs[1..])[i] == x;
          assert Ids(fs)[0] == fs[0].id && Ids(fs)[i + 1] == x;
        }
        DistinctPush(fs[0].id, UnsettledIds(fs[1..]));
        assert fs[0].settled ==> UnsettledIds(fs) == UnsettledIds(fs[1..]);
      }
      forall i | 0 <= i < |fs| && !fs[i].settled ensures fs[i].id in UnsettledIds(fs) {
        assert i > 0 ==> fs[i] == fs[1..][i - 1];
      }
    }
  }

  /** Where an entry of a call stands in the joined calls. */
  lemma {:induction false} JoinedAt(calls: seq<seq<nat>>, c: nat, k: nat) returns (at: nat)
    requires c < |calls| && k < |calls[c]|
    ensures at == |Joined(calls[..c])| + k < |Joined(calls)| && Joined(calls)[at] == calls[c][k]
    decreases |calls|
  {
    var n := |calls| - 1;
    at := |Joined(calls[..c])| + k;
    if c < n {
      var before := JoinedAt(calls[..n], c, k);
      assert calls[..n][..c] == calls[..c];
    }
  }

  lemma {:induction false} JoinedGrows(calls: seq<seq<nat>>, c: nat, d: nat)
    requires c < d <= |calls|
    ensures |Joined(calls[..c])| + |calls[c]| <= |Joined(calls[..d])|
    decreases d - c
  {
    assert calls[..d][..d - 1] == calls[..d - 1];
    if c < d - 1 {
      JoinedGrows(calls, c, d - 1);
    }
  }

  /** Exactly one call names a listed unsettled finding, once: no two entries of the
      calls of a round are the same finding. */
  lemma ExactlyOneCall(pages: seq<Page>, i: nat)
    returns (c: nat, k: nat)
    requires Distinct(Ids(Listed(pages))) && i < |Listed(pages)| && !Listed(pages)[i].settled
    ensures c < |CallsOf(pages)| && k < |CallsOf(pages)[c]| && CallsOf(pages)[c][k] == Listed(pages)[i].id
    ensures forall d, l :: 0 <= d < |CallsOf(pages)| && 0 <= l < |CallsOf(pages)[d]| && (d, l) != (c, k) ==>
              CallsOf(pages)[d][l] != Listed(pages)[i].id
  {
    hide CallsOf, Listed, Joined, Ids, UnsettledIds;
    var calls, id := CallsOf(pages), Listed(pages)[i].id;
    CallsNameEveryUnsettled(pages);
    UnsettledAmong(Listed(pages));
    c, k := WhereJoined(calls, id);
    forall d, l | 0 <= d < |calls| && 0 <= l < |calls[d]| && (d, l) != (c, k) ensures calls[d][l] != id {
      var at := JoinedAt(calls, c, k);
      var other := JoinedAt(calls, d, l);
      if c < d {
        JoinedGrows(calls, c, d);
      } else if d < c {
        JoinedGrows(calls, d, c);
      }
      assert at != other;
    }
  }

  lemma {:induction false} WhereJoined(calls: seq<seq<nat>>, id: nat) returns (c: nat, k: nat)
    requires id in Joined(calls)
    ensures c < |calls| && k < |calls[c]| && calls[c][k] == id
    decreases |calls|
  {
    var n := |calls| - 1;
    if id in calls[n] {
      c := n;
      k :| 0 <= k < |calls[n]| && calls[n][k] == id;
    } else {
      c, k := WhereJoined(calls[..n], id);
    }
  }
}
