/** The activated catalog of the Pagix double: a conditional write under the
    catalog revision the caller read. */
module PagixCatalog {
  import opened Wrappers

  datatype Entry = Entry(component: nat, release: nat)

  datatype Activation = Conflict(current: nat) | Unavailable | Activated(revision: nat)

  datatype Catalog = Catalog(revision: nat, releases: seq<Entry>, records: map<nat, Activation>)

  function Others(es: seq<Entry>, component: nat): seq<Entry> {
    if es == [] then []
    else
      var n := |es| - 1;
      Others(es[..n], component) + if es[n].component != component then [es[n]] else []
  }

  /** At most one entry per component. */
  ghost predicate Unique(es: seq<Entry>) {
    forall i, j :: 0 <= i < j < |es| ==> es[i].component != es[j].component
  }

  lemma {:induction false} OthersExact(es: seq<Entry>, component: nat)
    ensures forall e :: e in Others(es, component) <==> e in es && e.component != component
    ensures Unique(es) ==> Unique(Others(es, component))
  {
    if es != [] {
      var n := |es| - 1;
      OthersExact(es[..n], component);
      assert es == es[..n] + [es[n]];
      var kept := Others(es[..n], component);
      if Unique(es) {
        assert Unique(es[..n]) by {
          assert forall i :: 0 <= i < n ==> es[..n][i] == es[i];
        }
        forall i | 0 <= i < |kept| ensures kept[i].component != es[n].component {
          assert kept[i] in es[..n];
          var k :| 0 <= k < n && es[..n][k] == kept[i];
          assert es[k] == kept[i];
        }
      }
    }
  }

  /** The filter in place: what is kept moves to the front, in order. */
  method KeepOthers(a: array<Entry>, component: nat) returns (kept: nat)
    modifies a
    ensures kept <= a.Length && a[..kept] == Others(old(a[..]), component)
  {
    kept := 0;
    var i := 0;
    while i < a.Length
      invariant kept <= i <= a.Length
      invariant a[i..] == old(a[..])[i..]
      invariant a[..kept] == Others(old(a[..])[..i], component)
    {
      assert old(a[..])[..i + 1][..i] == old(a[..])[..i];
      assert a[i] == a[i..][0] == old(a[..])[i];
      if a[i].component != component {
        a[kept] := a[i];
        kept := kept + 1;
      }
      i := i + 1;
    }
    assert old(a[..])[..i] == old(a[..]);
  }

  /** expected is None when it is no revision number; served: the origin serves the
      release's manifest with the lock's digest. */
  function ActivateOf(c: Catalog, effect: nat, expected: Option<nat>, lock: Entry, served: bool): (Catalog, Activation) {
    if effect in c.records then (c, c.records[effect])
    else if expected != Some(c.revision) then
      (c.(records := c.records[effect := Conflict(c.revision)]), Conflict(c.revision))
    else if !served then (c.(records := c.records[effect := Unavailable]), Unavailable)
    else
      var next := c.revision + 1;
      (Catalog(next, Others(c.releases, lock.component) + [lock], c.records[effect := Activated(next)]), Activated(next))
  }

  class Origin {
    var revision: nat
    var releases: seq<Entry>
    var records: map<nat, Activation>

    constructor ()
      ensures Value() == EMPTY
    {
      revision, releases, records := 0, [], map[];
    }

    function Value(): Catalog
      reads this
    {
      Catalog(revision, releases, records)
    }

    method Activate(effect: nat, expected: Option<nat>, lock: Entry, served: bool) returns (r: Activation)
      modifies this
      ensures (Value(), r) == ActivateOf(old(Value()), effect, expected, lock, served)
    {
      if effect in records {
        return records[effect];
      }
      if expected != Some(revision) {
        r := Conflict(revision);
      } else if !served {
        r := Unavailable;
      } else {
        revision := revision + 1;
        var all := releases;
        var doc := new Entry[|all|](i requires 0 <= i < |all| => all[i]);
        assert doc[..] == all;
        var kept := KeepOthers(doc, lock.component);
        releases := doc[..kept] + [lock];
        r := Activated(revision);
      }
      records := records[effect := r];
    }
  }

  const EMPTY := Catalog(0, [], map[])

  datatype Request = Request(effect: nat, expected: Option<nat>, lock: Entry, served: bool)

  function After(c: Catalog, rs: seq<Request>): Catalog
    decreases |rs|
  {
    if rs == [] then c else After(ActivateOf(c, rs[0].effect, rs[0].expected, rs[0].lock, rs[0].served).0, rs[1..])
  }

  /** One entry per component, and one activation per revision the catalog moved. */
  ghost predicate Sound(c: Catalog) {
    && Unique(c.releases)
    && (forall e :: e in c.records && c.records[e].Activated? ==> 1 <= c.records[e].revision <= c.revision)
    && (forall e, f :: e in c.records && f in c.records && c.records[e].Activated? && c.records[f] == c.records[e] ==> e == f)
    && (forall k: nat :: 1 <= k <= c.revision ==> Reached(c, k))
  }

  /** Some activation moved the catalog to the revision. */
  ghost predicate Reached(c: Catalog, revision: nat) {
    exists e :: e in c.records && c.records[e] == Activated(revision)
  }

  /** d is a later catalog: no answer changes. */
  ghost predicate Later(c: Catalog, d: Catalog) {
    c.revision <= d.revision && forall e :: e in c.records ==> e in d.records && d.records[e] == c.records[e]
  }

  lemma ReplacedIsUnique(es: seq<Entry>, lock: Entry)
    requires Unique(es)
    ensures Unique(Others(es, lock.component) + [lock])
  {
    OthersExact(es, lock.component);
    var kept := Others(es, lock.component);
    forall i | 0 <= i < |kept| ensures kept[i].component != lock.component {
      assert kept[i] in kept;
    }
  }

  lemma ActivateKeeps(c: Catalog, q: Request)
    requires Sound(c)
    ensures var (d, r) := ActivateOf(c, q.effect, q.expected, q.lock, q.served);
            Sound(d) && Later(c, d) && q.effect in d.records && d.records[q.effect] == r
  {
    var (d, r) := ActivateOf(c, q.effect, q.expected, q.lock, q.served);
    ReplacedIsUnique(c.releases, q.lock);
    hide Unique, Others;
    forall k: nat | 1 <= k <= d.revision ensures Reached(d, k) {
      if k <= c.revision {
        assert Reached(c, k);
        var e :| e in c.records && c.records[e] == Activated(k);
        assert e in d.records && d.records[e] == Activated(k);
      } else {
        assert q.effect in d.records && d.records[q.effect] == Activated(k);
      }
    }
  }

  /** Over any sequence of activations: at most one entry per component, and the
      catalog moves by exactly one for each activation. */
  lemma {:induction false} CatalogMovesByOne(c: Catalog, rs: seq<Request>)
    requires Sound(c)
    ensures Sound(After(c, rs)) && Later(c, After(c, rs))
    decreases |rs|
  {
    if rs != [] {
      ActivateKeeps(c, rs[0]);
      CatalogMovesByOne(ActivateOf(c, rs[0].effect, rs[0].expected, rs[0].lock, rs[0].served).0, rs[1..]);
    }
  }

  /** An activation that took place made exactly its release current for its
      component, left every other component alone, and read the catalog it changed:
      no activation came between the caller's read and the write. */
  lemma ActivationIsConditional(c: Catalog, q: Request, e: Entry)
    requires Sound(c) && q.effect !in c.records
    requires ActivateOf(c, q.effect, q.expected, q.lock, q.served).1.Activated?
    ensures var d := ActivateOf(c, q.effect, q.expected, q.lock, q.served).0;
            && (e in d.releases <==> e == q.lock || (e in c.releases && e.component != q.lock.component))
            && q.expected == Some(c.revision) && d.revision == c.revision + 1 && q.served
  {
    OthersExact(c.releases, q.lock.component);
  }

  /** A caller that read the catalog before another activation gets a conflict. */
  lemma StaleReadConflicts(c: Catalog, rs: seq<Request>, q: Request)
    requires Sound(c) && q.expected == Some(c.revision) && q.effect !in After(c, rs).records
    ensures ActivateOf(After(c, rs), q.effect, q.expected, q.lock, q.served).1.Conflict? <==>
            exists e :: e in After(c, rs).records && After(c, rs).records[e].Activated? && After(c, rs).records[e].revision > c.revision
  {
    CatalogMovesByOne(c, rs);
    var d := After(c, rs);
    if d.revision > c.revision {
      assert Reached(d, d.revision);
      var e :| e in d.records && d.records[e] == Activated(d.revision);
      assert d.records[e].Activated? && d.records[e].revision > c.revision;
    }
  }
}
