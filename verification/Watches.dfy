/** Clauses with two watched literals: storage and watch lists (Clause.h, DBAddition.cpp). */
module Watches {
  import opened PBCore

  datatype WatchElem = WatchElem(id: nat, cached: int)

  ghost predicate NoDup(cl: seq<int>) {
    forall i, j :: 0 <= i < j < |cl| ==> cl[i] != cl[j]
  }

  /** A stored clause: at least three distinct literals, the scan index behind the two watches. */
  ghost predicate ClauseOk(cl: seq<int>, watchIdx: nat, n: nat) {
    && NoDup(cl) && 2 <= watchIdx < |cl|
    && forall i :: 0 <= i < |cl| ==> 1 <= Var(cl[i]) <= n
  }

  ghost predicate HasEntry(list: seq<WatchElem>, k: nat) {
    exists j :: 0 <= j < |list| && list[j].id == k
  }

  ghost predicate Watches(cl: seq<int>, l: int) {
    |cl| >= 2 && (cl[0] == l || cl[1] == l)
  }

  /** The list of l: one entry per clause that watches l, and nothing else. */
  ghost predicate WatchListOk(l: int, list: seq<WatchElem>, clauses: seq<seq<int>>) {
    && (forall j :: 0 <= j < |list| ==> EntryOk(l, list[j], clauses))
    && (forall i, j :: 0 <= i < j < |list| ==> list[i].id != list[j].id)
    && (forall k :: 0 <= k < |clauses| && Watches(clauses[k], l) ==> HasEntry(list, k))
  }

  ghost predicate EntryOk(l: int, e: WatchElem, clauses: seq<seq<int>>) {
    e.id < |clauses| && Watches(clauses[e.id], l) && e.cached in clauses[e.id]
  }

  ghost predicate ListsWatch(lists: map<int, seq<WatchElem>>, clauses: seq<seq<int>>, n: nat) {
    forall l: int :: 1 <= Var(l) <= n ==> l in lists && WatchListOk(l, lists[l], clauses)
  }

  ghost predicate ClausesOk(clauses: seq<seq<int>>, watchIdx: seq<nat>, n: nat) {
    |watchIdx| == |clauses| && forall k :: 0 <= k < |clauses| ==> ClauseOk(clauses[k], watchIdx[k], n)
  }

  // ----- steps of a visit to a watch list -----

  /** Keeping an entry, with another cached literal. */
  lemma KeepEntry(l: int, kept: seq<WatchElem>, e: WatchElem, rest: seq<WatchElem>, cached: int, clauses: seq<seq<int>>)
    requires WatchListOk(l, kept + [e] + rest, clauses) && e.id < |clauses| && cached in clauses[e.id]
    ensures WatchListOk(l, kept + [WatchElem(e.id, cached)] + rest, clauses)
  {
    var before := kept + [e] + rest;
    var after := kept + [WatchElem(e.id, cached)] + rest;
    assert forall j :: 0 <= j < |after| ==> after[j].id == before[j].id;
    forall j | 0 <= j < |after|
      ensures EntryOk(l, after[j], clauses)
    {
      assert EntryOk(l, before[j], clauses);
      assert before[|kept|] == e;
    }
    forall k | 0 <= k < |clauses| && Watches(clauses[k], l)
      ensures HasEntry(after, k)
    {
      var j :| 0 <= j < |before| && before[j].id == k;
      assert after[j].id == k;
    }
  }

  /** The clause after a replacement: the other watch first, then the new one, lit takes its place. */
  function Rewatched(cl: seq<int>, other: int, pos: nat, lit: int): seq<int>
    requires 2 <= pos < |cl|
  {
    cl[0 := other][1 := cl[pos]][pos := lit]
  }

  lemma RewatchedSame(cl: seq<int>, other: int, pos: nat, lit: int)
    requires NoDup(cl) && 2 <= pos < |cl|
    requires (cl[0] == lit && cl[1] == other) || (cl[1] == lit && cl[0] == other)
    ensures NoDup(Rewatched(cl, other, pos, lit))
    ensures forall x :: x in Rewatched(cl, other, pos, lit) <==> x in cl
  {
    var r := Rewatched(cl, other, pos, lit);
    forall x | x in cl
      ensures x in r
    {
      var i :| 0 <= i < |cl| && cl[i] == x;
      assert r[0] == other && r[1] == cl[pos] && r[pos] == lit;
      assert i >= 2 && i != pos ==> r[i] == x;
    }
  }

  lemma DropKeepsUnique(kept: seq<WatchElem>, e: WatchElem, rest: seq<WatchElem>)
    requires var s := kept + [e] + rest; forall i, j :: 0 <= i < j < |s| ==> s[i].id != s[j].id
    ensures var s := kept + rest; forall i, j :: 0 <= i < j < |s| ==> s[i].id != s[j].id
  {
    var before, after := kept + [e] + rest, kept + rest;
    forall i, j | 0 <= i < j < |after|
      ensures after[i].id != after[j].id
    {
      var i', j' := if i < |kept| then i else i + 1, if j < |kept| then j else j + 1;
      assert after[i] == before[i'] && after[j] == before[j'];
    }
  }

  /** The list of the false literal loses its entry. */
  lemma DropEntry(l: int, kept: seq<WatchElem>, e: WatchElem, rest: seq<WatchElem>, clauses: seq<seq<int>>,
                  cl: seq<int>)
    requires WatchListOk(l, kept + [e] + rest, clauses) && e.id < |clauses|
    requires !Watches(cl, l)
    ensures WatchListOk(l, kept + rest, clauses[e.id := cl])
  {
    var before, after := kept + [e] + rest, kept + rest;
    var cs := clauses[e.id := cl];
    assert before[|kept|] == e;
    forall j | 0 <= j < |after|
      ensures EntryOk(l, after[j], cs) && after[j].id != e.id
    {
      var i := if j < |kept| then j else j + 1;
      assert after[j] == before[i] && i != |kept|;
      assert EntryOk(l, before[i], clauses);
    }
    DropKeepsUnique(kept, e, rest);
    forall k | 0 <= k < |cs| && Watches(cs[k], l)
      ensures HasEntry(after, k)
    {
      assert HasEntry(before, k);
      var j :| 0 <= j < |before| && before[j].id == k;
      assert after[if j < |kept| then j else j - 1].id == k;
    }
  }

  /** The list of the replacement gains one. */
  lemma GainEntry(r: int, list: seq<WatchElem>, clauses: seq<seq<int>>, e: WatchElem, cl: seq<int>)
    requires WatchListOk(r, list, clauses) && e.id < |clauses| && !Watches(clauses[e.id], r)
    requires Watches(cl, r) && e.cached in cl
    ensures WatchListOk(r, list + [e], clauses[e.id := cl])
  {
    var after, cs := list + [e], clauses[e.id := cl];
    forall j | 0 <= j < |list|
      ensures list[j].id != e.id
    {
      assert EntryOk(r, list[j], clauses);
    }
    forall j | 0 <= j < |after|
      ensures EntryOk(r, after[j], cs)
    {
      assert j < |list| ==> EntryOk(r, list[j], clauses);
    }
    forall k | 0 <= k < |cs| && Watches(cs[k], r)
      ensures HasEntry(after, k)
    {
      if k == e.id {
        assert after[|list|].id == k;
      } else {
        assert HasEntry(list, k);
        var j :| 0 <= j < |list| && list[j].id == k;
        assert after[j].id == k;
      }
    }
  }

  /** Every other list is untouched: the clause watches it as before. */
  lemma SameEntry(x: int, list: seq<WatchElem>, clauses: seq<seq<int>>, id: nat, cl: seq<int>)
    requires WatchListOk(x, list, clauses) && id < |clauses|
    requires Watches(clauses[id], x) <==> Watches(cl, x)
    requires forall y :: y in clauses[id] ==> y in cl
    ensures WatchListOk(x, list, clauses[id := cl])
  {
    var cs := clauses[id := cl];
    forall j | 0 <= j < |list|
      ensures EntryOk(x, list[j], cs)
    {
      assert EntryOk(x, list[j], clauses);
    }
    forall k | 0 <= k < |cs| && Watches(cs[k], x)
      ensures HasEntry(list, k)
    {
      assert Watches(clauses[k], x);
    }
  }

  /** lit and other are the watches, position pos holds a candidate. */
  ghost predicate Replaceable(cl: seq<int>, lit: int, other: int, pos: nat, n: nat) {
    && NoDup(cl) && 2 <= pos < |cl| && 1 <= Var(cl[pos]) <= n
    && ((cl[0] == lit && cl[1] == other) || (cl[1] == lit && cl[0] == other))
  }

  /** Replacing a watch keeps all lists in order. */
  lemma MoveWatch(lists: map<int, seq<WatchElem>>, clauses: seq<seq<int>>, n: nat, lit: int, other: int, pos: nat,
                  kept: seq<WatchElem>, e: WatchElem, rest: seq<WatchElem>)
    requires 1 <= Var(lit) <= n && lit in lists
    requires ListsWatch(lists[lit := kept + [e] + rest], clauses, n) && e.id < |clauses|
    requires Replaceable(clauses[e.id], lit, other, pos, n)
    ensures var cl := clauses[e.id];
            var r := cl[pos];
            r in lists && r != lit &&
            ListsWatch(lists[r := lists[r] + [WatchElem(e.id, lit)]][lit := kept + rest],
                       clauses[e.id := Rewatched(cl, other, pos, lit)], n)
  {
    var cl := clauses[e.id];
    var r, cl' := cl[pos], Rewatched(cl, other, pos, lit);
    var cs := clauses[e.id := cl'];
    RewatchedSame(cl, other, pos, lit);
    assert cl'[0] == other && cl'[1] == r && cl'[pos] == lit;
    assert lit != other && r != other && r != lit;
    var before := lists[lit := kept + [e] + rest];
    assert r in before;
    var after := lists[r := lists[r] + [WatchElem(e.id, lit)]][lit := kept + rest];
    forall x: int | 1 <= Var(x) <= n
      ensures x in after && WatchListOk(x, after[x], cs)
    {
      assert x in before && WatchListOk(x, before[x], clauses);
      if x == lit {
        DropEntry(lit, kept, e, rest, clauses, cl');
      } else if x == r {
        GainEntry(r, lists[r], clauses, WatchElem(e.id, lit), cl');
      } else {
        SameEntry(x, lists[x], clauses, e.id, cl');
      }
    }
  }

  /** Appending a clause and its two watchers. */
  lemma AppendClause(x: int, list: seq<WatchElem>, clauses: seq<seq<int>>, cl: seq<int>, cached: int)
    requires WatchListOk(x, list, clauses) && cached in cl
    ensures Watches(cl, x) ==> WatchListOk(x, list + [WatchElem(|clauses|, cached)], clauses + [cl])
    ensures !Watches(cl, x) ==> WatchListOk(x, list, clauses + [cl])
  {
    var cs := clauses + [cl];
    var after := if Watches(cl, x) then list + [WatchElem(|clauses|, cached)] else list;
    forall j | 0 <= j < |list|
      ensures EntryOk(x, list[j], cs) && list[j].id < |clauses|
    {
      assert EntryOk(x, list[j], clauses);
    }
    forall k | 0 <= k < |cs| && Watches(cs[k], x)
      ensures HasEntry(after, k)
    {
      if k < |clauses| {
        assert HasEntry(list, k);
        var j :| 0 <= j < |list| && list[j].id == k;
        assert after[j].id == k;
      } else {
        assert after[|list|].id == k;
      }
    }
  }

  lemma RewatchedOk(cl: seq<int>, other: int, pos: nat, lit: int, idx: nat, n: nat)
    requires ClauseOk(cl, idx, n) && Replaceable(cl, lit, other, pos, n)
    ensures ClauseOk(Rewatched(cl, other, pos, lit), idx, n)
  {
    RewatchedSame(cl, other, pos, lit);
  }

  class ClauseStore {
    const numVars: nat
    var clauses: seq<seq<int>>
    var watchIdx: seq<nat>
    var watchLists: map<int, seq<WatchElem>>

    ghost predicate Valid()
      reads this
    {
      ClausesOk(clauses, watchIdx, numVars) && ListsWatch(watchLists, clauses, numVars)
    }

    constructor (n: nat, empty: map<int, seq<WatchElem>>)
      requires forall l: int :: 1 <= Var(l) <= n ==> l in empty && empty[l] == []
      ensures Valid() && numVars == n && clauses == []
    {
      numVars := n;
      clauses, watchIdx := [], [];
      watchLists := empty;
    }

    /** Forget all clauses. */
    method Clear(empty: map<int, seq<WatchElem>>)
      requires forall l: int :: 1 <= Var(l) <= numVars ==> l in empty && empty[l] == []
      modifies this
      ensures Valid() && clauses == []
    {
      clauses, watchIdx := [], [];
      watchLists := empty;
    }

    /** addClause: the first two literals are watched, the last one is cached. */
    method AddClause(cl: seq<int>)
      requires Valid() && ClauseOk(cl, 2, numVars)
      modifies this
      ensures Valid() && clauses == old(clauses) + [cl]
    {
      var id, cached := |clauses|, cl[|cl| - 1];
      ghost var before := watchLists;
      forall x: int | 1 <= Var(x) <= numVars
        ensures Watches(cl, x) ==> WatchListOk(x, before[x] + [WatchElem(id, cached)], clauses + [cl])
        ensures !Watches(cl, x) ==> WatchListOk(x, before[x], clauses + [cl])
      {
        AppendClause(x, before[x], clauses, cl, cached);
      }
      clauses := clauses + [cl];
      watchIdx := watchIdx + [2];
      watchLists := watchLists[cl[0] := watchLists[cl[0]] + [WatchElem(id, cached)]];
      watchLists := watchLists[cl[1] := watchLists[cl[1]] + [WatchElem(id, cached)]];
    }

    method SetWatchIdx(id: nat, k: nat)
      requires Valid() && id < |clauses| && 2 <= k < |clauses[id]|
      modifies this`watchIdx
      ensures Valid()
    {
      hide ListsWatch;
      watchIdx := watchIdx[id := k];
    }

    /** Update the cached literal of entry j of the list of lit. */
    method SetCached(lit: int, j: nat, cached: int)
      requires Valid() && 1 <= Var(lit) <= numVars && j < |watchLists[lit]|
      requires cached in clauses[watchLists[lit][j].id]
      modifies this`watchLists
      ensures Valid()
      ensures watchLists[lit] == old(watchLists[lit])[..j] + [WatchElem(old(watchLists[lit])[j].id, cached)]
                                 + old(watchLists[lit])[j + 1..]
    {
      hide ClausesOk;
      var list := watchLists[lit];
      assert list[..j] + [list[j]] + list[j + 1..] == list;
      KeepEntry(lit, list[..j], list[j], list[j + 1..], cached, clauses);
      watchLists := watchLists[lit := list[..j] + [WatchElem(list[j].id, cached)] + list[j + 1..]];
    }

    /** Replace the watch lit of the clause of entry j by the literal at position k; the entry moves along. */
    method ReplaceWatch(lit: int, j: nat, other: int, k: nat)
      requires Valid() && 1 <= Var(lit) <= numVars && j < |watchLists[lit]|
      requires Replaceable(clauses[watchLists[lit][j].id], lit, other, k, numVars)
      modifies this`watchLists, this`clauses
      ensures Valid()
      ensures var id := old(watchLists[lit])[j].id;
              clauses == old(clauses)[id := Rewatched(old(clauses)[id], other, k, lit)]
      ensures watchLists[lit] == old(watchLists[lit])[..j] + old(watchLists[lit])[j + 1..]
    {
      hide WatchListOk, EntryOk, Watches, HasEntry;
      EntryFacts(lit, j);
      var list := watchLists[lit];
      var e := list[j];
      var cl := clauses[e.id];
      var r := cl[k];
      assert list[..j] + [e] + list[j + 1..] == list;
      assert watchLists[lit := list] == watchLists;
      MoveWatch(watchLists, clauses, numVars, lit, other, k, list[..j], e, list[j + 1..]);
      RewatchedSame(cl, other, k, lit);
      RewatchedOk(cl, other, k, lit, watchIdx[e.id], numVars);
      watchLists := watchLists[r := watchLists[r] + [WatchElem(e.id, lit)]];
      watchLists := watchLists[lit := list[..j] + list[j + 1..]];
      clauses := clauses[e.id := cl[0 := other][1 := r][k := lit]];
    }

    /** The list of lit as it was compacted in place. */
    method Resize(lit: int, list: seq<WatchElem>)
      requires Valid() && lit in watchLists && watchLists[lit] == list
      modifies this`watchLists
      ensures Valid() && watchLists == old(watchLists)
    {
      watchLists := watchLists[lit := list];
      assert watchLists == old(watchLists);
    }

    lemma EntryFacts(lit: int, j: nat)
      requires Valid() && 1 <= Var(lit) <= numVars && lit in watchLists && j < |watchLists[lit]|
      ensures var e := watchLists[lit][j];
              e.id < |clauses| && Watches(clauses[e.id], lit) && e.cached in clauses[e.id]
              && e.id < |watchIdx| && ClauseOk(clauses[e.id], watchIdx[e.id], numVars)
    {
      assert EntryOk(lit, watchLists[lit][j], clauses);
    }
  }
}
