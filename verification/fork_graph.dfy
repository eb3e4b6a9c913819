/** The graph of forks: reference counts, pinned sources and the deletion cascade. */
module ForkGraph {
  import opened StoreTypes
  import opened StreamStore
  import Sets

  function Children(m: Streams, p: string): set<string> {
    set c | c in m && m[c].meta.forkedFrom == p && p != ""
  }

  /** The source of a fork is present and older. */
  predicate LinkOk(m: Streams, p: string)
    requires p in m
  {
    m[p].meta.forkedFrom != "" ==> m[p].meta.forkedFrom in m && Younger(m, p)
  }

  ghost predicate Linked(m: Streams) {
    forall p {:trigger LinkOk(m, p)} :: p in m ==> LinkOk(m, p)
  }

  /** Reference counts are the numbers of forks. */
  ghost predicate Counted(m: Streams) {
    forall p {:trigger m[p].meta.refCount} :: p in m ==> m[p].meta.refCount == |Children(m, p)|
  }

  /** A soft-deleted stream still has forks. */
  ghost predicate Pinned(m: Streams) {
    forall p {:trigger m[p].meta.softDeleted} :: p in m && m[p].meta.softDeleted ==> m[p].meta.refCount > 0
  }

  ghost predicate PinnedExcept(m: Streams, x: string) {
    forall p {:trigger m[p].meta.softDeleted} :: p in m && p != x && m[p].meta.softDeleted ==> m[p].meta.refCount > 0
  }

  ghost predicate Graph(m: Streams) {
    Linked(m) && Counted(m) && Pinned(m)
  }

  // ---- Elementary changes ----

  /** Changing one stream's record without touching its links leaves the fork graph as it is. */
  lemma {:induction false} UpdateKeepsChildren(m: Streams, p: string, st: Stream)
    requires p in m && SameLinks(m[p], st)
    ensures forall q :: Children(m[p := st], q) == Children(m, q)
    ensures Linked(m) ==> Linked(m[p := st])
  {
    forall q ensures Children(m[p := st], q) == Children(m, q) {
    }
    if Linked(m) {
      forall q | q in m ensures LinkOk(m[p := st], q) {
        assert LinkOk(m, q);
      }
    }
  }

  lemma {:induction false} UpdateKeepsGraph(m: Streams, p: string, st: Stream)
    requires Graph(m) && p in m && SameLinks(m[p], st)
    requires st.meta.refCount == m[p].meta.refCount
    requires st.meta.softDeleted ==> st.meta.refCount > 0
    ensures Graph(m[p := st])
  {
    UpdateKeepsChildren(m, p, st);
  }

  lemma {:induction false} RemoveLeaf(m: Streams, p: string)
    requires Linked(m) && p in m && Children(m, p) == {}
    ensures Linked(m - {p})
  {
    var rest := m - {p};
    forall q | q in rest ensures LinkOk(rest, q) {
      assert LinkOk(m, q) && q !in Children(m, p);
    }
  }

  lemma {:induction false} Shrinks(m: Streams, p: string)
    requires p in m
    ensures |(m - {p}).Keys| < |m.Keys|
  {
    Sets.OneMore((m - {p}).Keys, m.Keys, p);
  }

  // ---- The cascade ----

  /** Which streams a cascade from `p` must remove: `p`, and soft-deleted sources whose forks all go. */
  ghost predicate Doomed(m: Streams, gone: set<string>, p: string, q: string)
    requires q in m
  {
    q == p || (m[q].meta.softDeleted && Children(m, q) != {} && Children(m, q) <= gone)
  }

  /** A stream without forks that is about to be removed; it alone may be an unpinned tombstone. */
  ghost predicate Removable(m: Streams, p: string) {
    Linked(m) && Counted(m) && PinnedExcept(m, p) && p in m && Children(m, p) == {}
  }

  /** A survivor keeps everything but its count, which becomes the number of its remaining forks. */
  ghost predicate Survives(m: Streams, left: Streams, q: string)
    requires q in m && q in left
  {
    left[q] == WithRefCount(m[q], |Children(left, q)|)
  }

  /** `left` is `m` after exactly the doomed streams went and the survivors' counts were brought up to date. */
  ghost predicate Collected(m: Streams, p: string, left: Streams) {
    && Graph(left)
    && left.Keys <= m.Keys
    && (forall q {:trigger Doomed(m, m.Keys - left.Keys, p, q)} :: q in m ==>
      (q !in left <==> Doomed(m, m.Keys - left.Keys, p, q)))
    && (forall q {:trigger Survives(m, left, q)} :: q in left ==> Survives(m, left, q))
  }

  /**
   * Deleting a stream without forks never underflows a count, leaves the graph consistent, removes exactly
   * the chain of soft-deleted sources left childless, and touches nothing of the survivors but their counts.
   */
  lemma {:induction false} CascadeExact(m: Streams, p: string)
    requires Removable(m, p)
    ensures !Cascade(m, p).1
    ensures Collected(m, p, Cascade(m, p).0)
    decreases |m.Keys|
  {
    var rest := m - {p};
    var source := m[p].meta.forkedFrom;
    RemoveLeaf(m, p);
    if source == "" {
      CascadeStops(m, p, rest);
    } else {
      var released := Release(m, p);
      ReleaseKeeps(m, p);
      if released[source].meta.refCount == 0 && released[source].meta.softDeleted {
        Shrinks(m, p);
        assert released.Keys == rest.Keys;
        CascadeExact(released, source);
        CascadeContinues(m, p, Cascade(released, source).0);
      } else {
        CascadeStops(m, p, released);
      }
    }
  }

  /** The map after removing the fork `p` and decrementing its source's count. */
  ghost function Release(m: Streams, p: string): Streams
    requires Removable(m, p) && m[p].meta.forkedFrom != ""
  {
    var source := m[p].meta.forkedFrom;
    assert LinkOk(m, p) && Younger(m, p);
    SetRefCount(m - {p}, source, m[source].meta.refCount - 1)
  }

  /** Removing `p`, and then changing no links, takes `p` out of its source's forks and no others. */
  lemma {:induction false} ChildrenWithout(m: Streams, p: string, left: Streams, q: string)
    requires p in m && left.Keys == m.Keys - {p}
    requires forall c :: c in left ==> left[c].meta.forkedFrom == m[c].meta.forkedFrom
    ensures forall c :: c in Children(left, q) <==> c in Children(m, q) && c != p
    ensures p in Children(m, q) <==> q != "" && m[p].meta.forkedFrom == q
    ensures |Children(left, q)| == |Children(m, q)| - (if p in Children(m, q) then 1 else 0)
  {
    if p in Children(m, q) {
      Sets.OneMore(Children(left, q), Children(m, q), p);
    } else {
      Sets.Same(Children(left, q), Children(m, q));
    }
  }

  lemma {:induction false} ReleaseKeeps(m: Streams, p: string)
    requires Removable(m, p) && m[p].meta.forkedFrom != ""
    ensures var released := Release(m, p); var source := m[p].meta.forkedFrom;
      && Linked(released) && Counted(released) && PinnedExcept(released, source)
      && released.Keys == m.Keys - {p}
      && m[source].meta.refCount >= 1
  {
    var source := m[p].meta.forkedFrom;
    var rest := m - {p};
    var released := Release(m, p);
    RemoveLeaf(m, p);
    assert LinkOk(m, p) && Younger(m, p);
    UpdateKeepsChildren(rest, source, released[source]);
    ChildrenWithout(m, p, released, source);
    forall q | q in released ensures released[q].meta.refCount == |Children(released, q)| {
      ChildrenWithout(m, p, released, q);
    }
  }

  /** The cascade ends when there is no source, or it keeps other forks, or it is not soft-deleted. */
  lemma {:induction false} CascadeStops(m: Streams, p: string, left: Streams)
    requires Removable(m, p)
    requires var source := m[p].meta.forkedFrom;
      if source == "" then left == m - {p}
      else left == Release(m, p) && !(left[source].meta.refCount == 0 && left[source].meta.softDeleted)
    ensures Collected(m, p, left)
  {
    StopGraph(m, p, left);
    assert m.Keys - left.Keys == {p};
    forall q | q in m ensures q !in left <==> Doomed(m, m.Keys - left.Keys, p, q) {
      StopDoomed(m, p, left, q);
    }
    forall q | q in left ensures Survives(m, left, q) {
      assert left[q].meta.refCount == |Children(left, q)|;
    }
  }

  /** Where the cascade stops, the graph is consistent, and only counts have changed. */
  lemma {:induction false} StopGraph(m: Streams, p: string, left: Streams)
    requires Removable(m, p)
    requires var source := m[p].meta.forkedFrom;
      if source == "" then left == m - {p}
      else left == Release(m, p) && !(left[source].meta.refCount == 0 && left[source].meta.softDeleted)
    ensures Graph(left) && left.Keys == m.Keys - {p}
    ensures forall c :: c in left ==> left[c] == WithRefCount(m[c], left[c].meta.refCount)
    ensures var source := m[p].meta.forkedFrom;
      source != "" && m[source].meta.softDeleted ==> |Children(left, source)| > 0
  {
    var source := m[p].meta.forkedFrom;
    RemoveLeaf(m, p);
    if source != "" { ReleaseKeeps(m, p); }
    forall q | q in left ensures left[q].meta.refCount == |Children(left, q)| {
      ChildrenWithout(m, p, left, q);
    }
  }

  /** Where the cascade stops, the stream it removed is the only doomed one. */
  lemma {:induction false} StopDoomed(m: Streams, p: string, left: Streams, q: string)
    requires p in m && left.Keys == m.Keys - {p} && m.Keys - left.Keys == {p} && q in m
    requires Doomed(m, {p}, p, p)
    requires forall c :: c in left ==> left[c].meta.forkedFrom == m[c].meta.forkedFrom
    requires q != p && m[p].meta.forkedFrom == q && m[q].meta.softDeleted ==> |Children(left, q)| > 0
    ensures q !in left <==> Doomed(m, m.Keys - left.Keys, p, q)
  {
    ChildrenWithout(m, p, left, q);
    if q != p && m[p].meta.forkedFrom == q && m[q].meta.softDeleted {
      var c :| c in Children(left, q);
    } else if q != p && m[p].meta.forkedFrom != q && Children(m, q) != {} {
      var c :| c in Children(m, q);
    }
  }

  /** When the cascade goes on to the source, everything its own cascade removes was doomed from the start. */
  lemma {:induction false} CascadeContinues(m: Streams, p: string, left: Streams)
    requires Removable(m, p) && m[p].meta.forkedFrom != ""
    requires var source := m[p].meta.forkedFrom; var released := Release(m, p);
      && released[source].meta.refCount == 0 && released[source].meta.softDeleted
      && Collected(released, source, left)
    ensures Collected(m, p, left)
  {
    var source := m[p].meta.forkedFrom;
    var released := Release(m, p);
    ReleaseKeeps(m, p);
    var gone' := released.Keys - left.Keys;
    assert m.Keys - left.Keys == gone' + {p};
    forall q | q in m ensures q !in left <==> Doomed(m, gone' + {p}, p, q) {
      if q != p {
        assert q !in left <==> Doomed(released, released.Keys - left.Keys, source, q);
        ContinueDoomed(m, p, released, gone', q);
      }
    }
    forall q | q in left ensures Survives(m, left, q) {
      assert Survives(released, left, q);
    }
  }

  lemma {:induction false} ContinueDoomed(m: Streams, p: string, released: Streams, gone': set<string>, q: string)
    requires p in m && m[p].meta.forkedFrom in m && m[p].meta.forkedFrom != "" && q in m && q != p
    requires released.Keys == m.Keys - {p}
    requires forall c :: c in released ==> released[c].meta.forkedFrom == m[c].meta.forkedFrom
    requires released[q].meta.softDeleted == m[q].meta.softDeleted
    requires q == m[p].meta.forkedFrom ==> released[q].meta.softDeleted && |Children(released, q)| == 0
    ensures Doomed(released, gone', m[p].meta.forkedFrom, q) <==> Doomed(m, gone' + {p}, p, q)
  {
    ChildrenWithout(m, p, released, q);
    if q == m[p].meta.forkedFrom {
      assert Children(m, q) == {p};
    } else {
      assert Children(m, q) == Children(released, q);
    }
  }
}
