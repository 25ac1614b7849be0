/** The source lineages of the Pagix double: saves conditional on the current
    revision, each effect answered once and for all. */
module PagixSources {
  import opened Wrappers

  datatype Result = Saved(revision: nat) | Conflict(current: nat)

  /** revisions: the digest each saved revision holds. */
  datatype Lineage = Lineage(revision: nat, digest: nat, revisions: map<nat, nat>, saves: map<nat, Result>)

  const FRESH := Lineage(1, 0, map[], map[])

  /** base is None when the stated base revision is no revision number. */
  function SaveOf(l: Lineage, effect: nat, base: Option<nat>, digest: nat): (Lineage, Result) {
    if effect in l.saves then (l, l.saves[effect])
    else if base != Some(l.revision) then
      (l.(saves := l.saves[effect := Conflict(l.revision)]), Conflict(l.revision))
    else
      var next := l.revision + 1;
      (Lineage(next, digest, l.revisions[next := digest], l.saves[effect := Saved(next)]), Saved(next))
  }

  class Sources {
    var lineages: map<nat, Lineage>

    constructor ()
      ensures lineages == map[]
    {
      lineages := map[];
    }

    function LineageOf(name: nat): Lineage
      reads this
    {
      if name in lineages then lineages[name] else FRESH
    }

    method SaveRevision(name: nat, effect: nat, base: Option<nat>, digest: nat) returns (r: Result)
      modifies this
      ensures (LineageOf(name), r) == SaveOf(old(LineageOf(name)), effect, base, digest)
      ensures forall n :: n != name ==> LineageOf(n) == old(LineageOf(n))
    {
      var l := LineageOf(name);
      if effect in l.saves {
        return l.saves[effect];
      }
      if base != Some(l.revision) {
        r := Conflict(l.revision);
      } else {
        l := l.(revision := l.revision + 1, digest := digest);
        l := l.(revisions := l.revisions[l.revision := digest]);
        r := Saved(l.revision);
      }
      l := l.(saves := l.saves[effect := r]);
      lineages := lineages[name := l];
    }
  }

  datatype Save = Save(effect: nat, base: Option<nat>, digest: nat)

  function After(l: Lineage, ss: seq<Save>): Lineage
    decreases |ss|
  {
    if ss == [] then l else After(SaveOf(l, ss[0].effect, ss[0].base, ss[0].digest).0, ss[1..])
  }

  /** The saved results name the revisions after the first one, each of them once,
      and each of them has its digest. */
  ghost predicate Consecutive(l: Lineage) {
    && l.revision >= 1
    && (forall e :: e in l.saves && l.saves[e].Saved? ==> 2 <= l.saves[e].revision <= l.revision)
    && (forall e, f :: e in l.saves && f in l.saves && l.saves[e].Saved? && l.saves[f] == l.saves[e] ==> e == f)
    && (forall k: nat :: 2 <= k <= l.revision ==> SavedBy(l, k))
    && (forall k :: k in l.revisions <==> 2 <= k <= l.revision)
    && (l.revision > 1 ==> l.digest == l.revisions[l.revision])
  }

  /** Some effect saved the revision. */
  ghost predicate SavedBy(l: Lineage, revision: nat) {
    exists e :: e in l.saves && l.saves[e] == Saved(revision)
  }

  /** m is a later state of the lineage: no answer and no digest ever changes. */
  ghost predicate Later(l: Lineage, m: Lineage) {
    && l.revision <= m.revision
    && (forall e :: e in l.saves ==> e in m.saves && m.saves[e] == l.saves[e])
    && (forall k :: k in l.revisions ==> k in m.revisions && m.revisions[k] == l.revisions[k])
  }

  lemma SaveKeeps(l: Lineage, s: Save)
    requires Consecutive(l)
    ensures var (m, r) := SaveOf(l, s.effect, s.base, s.digest);
            Consecutive(m) && Later(l, m) && s.effect in m.saves && m.saves[s.effect] == r
  {
    var (m, r) := SaveOf(l, s.effect, s.base, s.digest);
    forall k: nat | 2 <= k <= m.revision ensures SavedBy(m, k) {
      if k <= l.revision {
        assert SavedBy(l, k);
        var e :| e in l.saves && l.saves[e] == Saved(k);
        assert e in m.saves && m.saves[e] == Saved(k);
      } else {
        assert s.effect in m.saves && m.saves[s.effect] == Saved(k);
      }
    }
  }

  /** Over any sequence of saves: distinct consecutive revisions, and digests that
      never change once a revision has them. */
  lemma {:induction false} RevisionsAreConsecutive(l: Lineage, ss: seq<Save>)
    requires Consecutive(l)
    ensures Consecutive(After(l, ss)) && Later(l, After(l, ss))
    decreases |ss|
  {
    if ss != [] {
      SaveKeeps(l, ss[0]);
      RevisionsAreConsecutive(SaveOf(l, ss[0].effect, ss[0].base, ss[0].digest).0, ss[1..]);
    }
  }

  /** A save that was answered is answered the same ever after, whatever base and
      digest it is repeated with and whatever was saved in between. */
  lemma RepeatedSaveAnswersTheSame(l: Lineage, first: Save, between: seq<Save>, again: Save)
    requires Consecutive(l) && again.effect == first.effect
    ensures var (m, r) := SaveOf(l, first.effect, first.base, first.digest);
            var last := After(m, between);
            SaveOf(last, again.effect, again.base, again.digest) == (last, r)
  {
    SaveKeeps(l, first);
    var (m, r) := SaveOf(l, first.effect, first.base, first.digest);
    RevisionsAreConsecutive(m, between);
  }
}
