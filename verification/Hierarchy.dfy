/** Roots of a possibly broken or cyclic parent graph
    (agent/internal/monitor/events.go, assignThreadHierarchy). */
module Hierarchy {
  import opened Wrappers
  import opened Model

  /** Thread id to parent id; "" means no parent. Parents need not be keys. */
  type Parents = map<string, string>

  predicate HasParent(p: Parents, id: string) {
    id in p && p[id] != ""
  }

  /** The walk the agent takes: up from `root` until a repeated, unknown or parentless thread. */
  function Walk(p: Parents, root: string, seen: set<string>): (r: string)
    ensures root != "" ==> r != ""
    decreases |p.Keys - seen|
  {
    if root == "" || root in seen || !HasParent(p, root) then root
    else
      assert p.Keys - (seen + {root}) < p.Keys - seen;
      SubsetIsSmaller(p.Keys - (seen + {root}), p.Keys - seen);
      Walk(p, p[root], seen + {root})
  }

  lemma SubsetIsSmaller(a: set<string>, b: set<string>)
    requires a < b
    ensures |a| < |b|
  {
    var x :| x in b && x !in a;
    SubsetIsNoLarger(a, b - {x});
  }

  lemma {:induction false} SubsetIsNoLarger(a: set<string>, b: set<string>)
    requires a <= b
    ensures |a| <= |b|
  {
    if a != {} {
      var x :| x in a;
      SubsetIsNoLarger(a - {x}, b - {x});
    }
  }

  function RootId(p: Parents, id: string): string {
    if HasParent(p, id) then Walk(p, p[id], {id}) else id
  }

  function WithHierarchy(p: Parents, t: Thread): Thread {
    if t.parentThreadId == "" then t.(threadRole := RootRole, rootThreadId := t.id)
    else t.(threadRole := Subagent, rootThreadId := Walk(p, t.parentThreadId, {t.id}))
  }

  // ---- An independent reading of the parent graph ----

  /** The ancestor `k` steps up, if the chain is that long. */
  function Climb(p: Parents, id: string, k: nat): Option<string>
    decreases k
  {
    if k == 0 then Some(id) else if HasParent(p, id) then Climb(p, p[id], k - 1) else None
  }

  ghost predicate OnCycle(p: Parents, id: string) {
    exists n: nat :: n > 0 && Climb(p, id, n) == Some(id)
  }

  /** `x` is the topmost ancestor, or the first one the agent does not know. */
  ghost predicate IsTop(p: Parents, id: string, x: string) {
    exists k: nat :: Climb(p, id, k) == Some(x) && !HasParent(p, x)
  }

  /** After exactly `k` steps the chain first stands on a cycle, at `x`. */
  ghost predicate EntersAt(p: Parents, id: string, k: nat, x: string) {
    && Climb(p, id, k) == Some(x)
    && OnCycle(p, x)
    && (forall i :: 0 <= i < k ==> Climb(p, id, i).Some? && !OnCycle(p, Climb(p, id, i).value))
  }

  ghost predicate IsEntry(p: Parents, id: string, x: string) {
    exists k: nat :: EntersAt(p, id, k, x)
  }

  lemma {:induction false} ClimbAdd(p: Parents, id: string, j: nat, k: nat)
    requires Climb(p, id, j).Some?
    ensures Climb(p, id, j + k) == Climb(p, Climb(p, id, j).value, k)
    decreases j
  {
    if j > 0 {
      ClimbAdd(p, p[id], j - 1, k);
    }
  }

  lemma {:induction false} ClimbPrefix(p: Parents, id: string, i: nat, k: nat)
    requires i <= k && Climb(p, id, k).Some?
    ensures Climb(p, id, i).Some?
    ensures i < k ==> HasParent(p, Climb(p, id, i).value)
    decreases i
  {
    if i > 0 {
      ClimbPrefix(p, p[id], i - 1, k - 1);
    }
  }

  // ---- Chains that end ----

  ghost predicate EndsIn(p: Parents, id: string, k: nat, top: string) {
    Climb(p, id, k) == Some(top) && !HasParent(p, top)
  }

  lemma {:induction false} EndIsUnique(p: Parents, id: string, j: nat, x: string, k: nat, y: string)
    requires EndsIn(p, id, j, x) && EndsIn(p, id, k, y)
    ensures j == k && x == y
    decreases j
  {
    if j > 0 && k > 0 {
      EndIsUnique(p, p[id], j - 1, x, k - 1, y);
    }
  }

  /** Everything already seen is farther from the top, so the walk cannot stop short of it. */
  lemma {:induction false} WalkToTop(p: Parents, r: string, seen: set<string>, k: nat, top: string)
    requires r != "" && EndsIn(p, r, k, top)
    requires forall s :: s in seen ==> exists n: nat :: n > k && EndsIn(p, s, n, top)
    ensures Walk(p, r, seen) == top
    decreases k
  {
    if r in seen {
      var n: nat :| n > k && EndsIn(p, r, n, top);
      EndIsUnique(p, r, k, top, n, top);
    }
    if k > 0 {
      forall s | s in seen + {r} ensures exists n: nat :: n > k - 1 && EndsIn(p, s, n, top) {
        assert EndsIn(p, r, k, top);
      }
      WalkToTop(p, p[r], seen + {r}, k - 1, top);
    }
  }

  lemma RootAtTop(p: Parents, id: string, k: nat, top: string)
    requires EndsIn(p, id, k, top)
    ensures RootId(p, id) == top
  {
    if k > 0 {
      assert EndsIn(p, id, k, top) && k > k - 1;
      WalkToTop(p, p[id], {id}, k - 1, top);
    }
  }

  // ---- Chains that run into a cycle ----

  ghost predicate FirstHit(p: Parents, x: string, k: nat, target: string) {
    Climb(p, x, k) == Some(target) && forall i :: 0 <= i < k ==> Climb(p, x, i) != Some(target)
  }

  lemma FindFirstHit(p: Parents, x: string, k: nat, target: string) returns (n: nat)
    requires Climb(p, x, k) == Some(target)
    ensures n <= k && FirstHit(p, x, n, target)
  {
    n := 0;
    while Climb(p, x, n) != Some(target)
      invariant n <= k
      invariant forall i :: 0 <= i < n ==> Climb(p, x, i) != Some(target)
      decreases k - n
    {
      n := n + 1;
    }
  }

  lemma FirstHitUp(p: Parents, x: string, k: nat, target: string)
    requires k > 0 && FirstHit(p, x, k, target)
    ensures HasParent(p, x) && FirstHit(p, p[x], k - 1, target)
  {
    forall i | 0 <= i < k - 1 ensures Climb(p, p[x], i) != Some(target) {
      assert Climb(p, x, i + 1) == Climb(p, p[x], i);
    }
  }

  lemma CycleUp(p: Parents, x: string)
    requires OnCycle(p, x)
    ensures HasParent(p, x) && OnCycle(p, p[x])
  {
    var n: nat :| n > 0 && Climb(p, x, n) == Some(x);
    assert Climb(p, p[x], n - 1) == Some(x);
    ClimbAdd(p, p[x], n - 1, 1);
    assert Climb(p, p[x], n) == Climb(p, x, 1) == Some(p[x]);
  }

  /** With the entry `e` seen, the walk goes round the cycle and stops at `e` again. */
  lemma {:induction false} WalkRound(p: Parents, r: string, seen: set<string>, k: nat, e: string)
    requires r != "" && e in seen && OnCycle(p, r) && FirstHit(p, r, k, e)
    requires forall s :: s in seen ==> s == e || !OnCycle(p, s) || exists n: nat :: n > k && FirstHit(p, s, n, e)
    ensures Walk(p, r, seen) == e
    decreases k
  {
    if k > 0 {
      assert Climb(p, r, 0) == Some(r);
      FirstHitUp(p, r, k, e);
      CycleUp(p, r);
      forall s | s in seen + {r}
        ensures s == e || !OnCycle(p, s) || exists n: nat :: n > k - 1 && FirstHit(p, s, n, e)
      {
        assert FirstHit(p, r, k, e);
      }
      WalkRound(p, p[r], seen + {r}, k - 1, e);
    }
  }

  /** From a cycle member, one step up, the walk comes back to that member. */
  lemma WalkFromEntry(p: Parents, e: string, seen: set<string>)
    requires OnCycle(p, e)
    requires forall s :: s in seen ==> !OnCycle(p, s)
    ensures HasParent(p, e) && Walk(p, p[e], seen + {e}) == e
  {
    CycleUp(p, e);
    var n: nat :| n > 0 && Climb(p, e, n) == Some(e);
    var k := FindFirstHit(p, p[e], n - 1, e);
    WalkRound(p, p[e], seen + {e}, k, e);
  }

  lemma EntersUp(p: Parents, x: string, k: nat, e: string)
    requires k > 0 && EntersAt(p, x, k, e)
    ensures !OnCycle(p, x) && HasParent(p, x) && EntersAt(p, p[x], k - 1, e)
  {
    assert Climb(p, x, 0) == Some(x);
    forall i | 0 <= i < k - 1 ensures Climb(p, p[x], i).Some? && !OnCycle(p, Climb(p, p[x], i).value) {
      assert Climb(p, x, i + 1) == Climb(p, p[x], i);
    }
  }

  lemma {:induction false} EntryIsUnique(p: Parents, x: string, j: nat, d: string, k: nat, e: string)
    requires EntersAt(p, x, j, d) && EntersAt(p, x, k, e)
    ensures j == k && d == e
    decreases j
  {
    assert Climb(p, x, 0) == Some(x);
    if j > 0 && k > 0 {
      EntersUp(p, x, j, d);
      EntersUp(p, x, k, e);
      EntryIsUnique(p, p[x], j - 1, d, k - 1, e);
    }
  }

  /** Along the tail nothing repeats, so the walk reaches the cycle and stops at its entry. */
  lemma {:induction false} WalkIn(p: Parents, r: string, seen: set<string>, k: nat, e: string)
    requires r != "" && EntersAt(p, r, k, e)
    requires forall s :: s in seen ==> !OnCycle(p, s) && exists n: nat :: n > k && EntersAt(p, s, n, e)
    ensures Walk(p, r, seen) == e
    decreases k
  {
    if k == 0 {
      WalkFromEntry(p, e, seen);
    } else {
      EntersUp(p, r, k, e);
      forall s | s in seen + {r} ensures !OnCycle(p, s) && exists n: nat :: n > k - 1 && EntersAt(p, s, n, e) {
        assert EntersAt(p, r, k, e);
      }
      WalkIn(p, p[r], seen + {r}, k - 1, e);
    }
  }

  lemma RootAtEntry(p: Parents, id: string, k: nat, e: string)
    requires EntersAt(p, id, k, e)
    ensures RootId(p, id) == e
  {
    if k == 0 {
      WalkFromEntry(p, e, {});
      assert {} + {e} == {e};
    } else {
      EntersUp(p, id, k, e);
      assert EntersAt(p, id, k, e) && k > k - 1;
      WalkIn(p, p[id], {id}, k - 1, e);
    }
  }

  // ---- Every chain is of one kind or the other ----

  /** The chain passed `s` before its step `j`. */
  ghost predicate Passed(p: Parents, id: string, j: nat, s: string) {
    exists i: nat :: i < j && Climb(p, id, i) == Some(s)
  }

  lemma PassOneMore(p: Parents, id: string, j: nat, s: string)
    requires Climb(p, id, j).Some?
    ensures Passed(p, id, j + 1, s) <==> Passed(p, id, j, s) || Climb(p, id, j) == Some(s)
  {
    if Climb(p, id, j) == Some(s) {
      assert j < j + 1 && Climb(p, id, j) == Some(s);
    }
  }

  lemma RepeatIsCycle(p: Parents, id: string, j: nat, r: string)
    requires Climb(p, id, j) == Some(r) && Passed(p, id, j, r)
    ensures OnCycle(p, r)
  {
    var i: nat :| i < j && Climb(p, id, i) == Some(r);
    ClimbAdd(p, id, i, j - i);
    assert Climb(p, r, j - i) == Some(r);
  }

  /** The walk, started `j` steps up with all earlier threads seen, stops on the chain at a top or on a cycle. */
  lemma {:induction false} WalkOutcome(p: Parents, id: string, j: nat, r: string, seen: set<string>) returns (k: nat)
    requires r != "" && Climb(p, id, j) == Some(r)
    requires forall s :: s in seen ==> Passed(p, id, j, s)
    ensures var x := Walk(p, r, seen); Climb(p, id, k) == Some(x) && (!HasParent(p, x) || OnCycle(p, x))
    decreases |p.Keys - seen|
  {
    k := j;
    if r in seen {
      RepeatIsCycle(p, id, j, r);
    } else if HasParent(p, r) {
      ClimbAdd(p, id, j, 1);
      assert Climb(p, r, 1) == Some(p[r]);
      SubsetIsSmaller(p.Keys - (seen + {r}), p.Keys - seen);
      forall s | s in seen + {r} ensures Passed(p, id, j + 1, s) {
        PassOneMore(p, id, j, s);
      }
      k := WalkOutcome(p, id, j + 1, p[r], seen + {r});
    }
  }

  lemma FindEntry(p: Parents, id: string, k: nat) returns (n: nat)
    requires Climb(p, id, k).Some? && OnCycle(p, Climb(p, id, k).value)
    ensures Climb(p, id, n).Some? && EntersAt(p, id, n, Climb(p, id, n).value)
  {
    n := 0;
    while !OnCycle(p, Climb(p, id, n).value)
      invariant n <= k && Climb(p, id, n).Some?
      invariant forall i :: 0 <= i < n ==> Climb(p, id, i).Some? && !OnCycle(p, Climb(p, id, i).value)
      decreases k - n
    {
      ClimbPrefix(p, id, n + 1, k);
      n := n + 1;
    }
  }

  /** The root of a thread, exactly: its topmost (or first unknown) ancestor when the chain ends,
      and otherwise the thread where the chain enters a cycle, which for a cycle member is itself. */
  lemma RootExactly(p: Parents, id: string, x: string)
    ensures RootId(p, id) == x <==> IsTop(p, id, x) || IsEntry(p, id, x)
  {
    if HasParent(p, id) {
      assert Climb(p, id, 0) == Some(id) && Climb(p, id, 1) == Some(p[id]);
      PassOneMore(p, id, 0, id);
      var k := WalkOutcome(p, id, 1, p[id], {id});
      var y := RootId(p, id);
      if HasParent(p, y) {
        var n := FindEntry(p, id, k);
        RootAtEntry(p, id, n, Climb(p, id, n).value);
        assert IsEntry(p, id, y);
      } else {
        assert IsTop(p, id, y);
      }
    } else {
      assert Climb(p, id, 0) == Some(id);
      assert IsTop(p, id, id);
    }
    if IsTop(p, id, x) {
      var k: nat :| Climb(p, id, k) == Some(x) && !HasParent(p, x);
      RootAtTop(p, id, k, x);
    }
    if IsEntry(p, id, x) {
      var k: nat :| EntersAt(p, id, k, x);
      RootAtEntry(p, id, k, x);
    }
  }

  // ---- Trees and workflows ----

  ghost predicate Ends(p: Parents, id: string) {
    exists k: nat, top :: EndsIn(p, id, k, top)
  }

  /** Two threads belong to one tree when their ancestor chains meet. */
  ghost predicate SameTree(p: Parents, a: string, b: string) {
    exists j: nat, k: nat :: Climb(p, a, j).Some? && Climb(p, a, j) == Climb(p, b, k)
  }

  /** Where chains end, equal roots and a common tree are the same thing. */
  lemma RootNamesTree(p: Parents, a: string, b: string)
    requires Ends(p, a) && Ends(p, b)
    ensures RootId(p, a) == RootId(p, b) <==> SameTree(p, a, b)
  {
    var j: nat, x :| EndsIn(p, a, j, x);
    var k: nat, y :| EndsIn(p, b, k, y);
    RootAtTop(p, a, j, x);
    RootAtTop(p, b, k, y);
    if x == y {
      assert Climb(p, a, j) == Climb(p, b, k);
    }
    if SameTree(p, a, b) {
      var i: nat, l: nat :| Climb(p, a, i).Some? && Climb(p, a, i) == Climb(p, b, l);
      var z := Climb(p, a, i).value;
      EndAbove(p, a, i, j, x);
      EndAbove(p, b, l, k, y);
      EndIsUnique(p, z, j - i, x, k - l, y);
    }
  }

  lemma {:induction false} EndAbove(p: Parents, a: string, i: nat, j: nat, x: string)
    requires Climb(p, a, i).Some? && EndsIn(p, a, j, x)
    ensures i <= j && EndsIn(p, Climb(p, a, i).value, j - i, x)
    decreases i
  {
    if i > 0 {
      EndAbove(p, p[a], i - 1, j - 1, x);
    }
  }

  /** The walk ends on the chain: at the root. */
  lemma RootIsReached(p: Parents, id: string) returns (k: nat)
    ensures Climb(p, id, k) == Some(RootId(p, id))
  {
    RootExactly(p, id, RootId(p, id));
    if IsTop(p, id, RootId(p, id)) {
      k :| Climb(p, id, k) == Some(RootId(p, id)) && !HasParent(p, RootId(p, id));
    } else {
      k :| EntersAt(p, id, k, RootId(p, id));
    }
  }

  /** The root is a known thread exactly when every ancestor on the chain is: a chain that leaves the known threads
      is given the first unknown one as its root. */
  lemma KnownRootExactly(p: Parents, id: string)
    ensures RootId(p, id) in p <==> forall k: nat :: Climb(p, id, k).Some? ==> Climb(p, id, k).value in p
  {
    var n := RootIsReached(p, id);
    if k: nat :| Climb(p, id, k).Some? && Climb(p, id, k).value !in p {
      RootAtTop(p, id, k, Climb(p, id, k).value);
    }
  }

  /** For instance: the root of `c`, whose parent `a` is known, is the unknown `b` above it. */
  lemma UnknownParentIsRoot(a: string, b: string, c: string)
    requires a != "" && b != "" && a != b && a != c && b != c
    ensures var p: Parents := map[a := b, c := a]; RootId(p, c) == RootId(p, a) == b && b !in p
  {
    var p: Parents := map[a := b, c := a];
    assert Climb(p, b, 0) == Some(b);
    assert Climb(p, a, 1) == Climb(p, b, 0);
    assert Climb(p, c, 2) == Climb(p, a, 1);
    RootAtTop(p, a, 1, b);
    RootAtTop(p, c, 2, b);
  }

  // ---- Roots and trees on any graph ----

  /** The only cycles are threads that are their own parents. */
  ghost predicate OnlySelfParents(p: Parents) {
    forall x :: OnCycle(p, x) ==> x in p && p[x] == x
  }

  /** One root, one tree, whatever the graph. */
  lemma SameRootSameTree(p: Parents, a: string, b: string)
    requires RootId(p, a) == RootId(p, b)
    ensures SameTree(p, a, b)
  {
    var j := RootIsReached(p, a);
    var k := RootIsReached(p, b);
    assert Climb(p, a, j) == Climb(p, b, k);
  }

  lemma {:induction false} SelfParentStays(p: Parents, x: string, n: nat)
    requires HasParent(p, x) && p[x] == x
    ensures Climb(p, x, n) == Some(x)
    decreases n
  {
    if n > 0 {
      SelfParentStays(p, x, n - 1);
    }
  }

  /** An ancestor has the same root, if no longer cycle is about. */
  lemma RootOfAncestor(p: Parents, a: string, i: nat)
    requires OnlySelfParents(p) && Climb(p, a, i).Some?
    ensures RootId(p, a) == RootId(p, Climb(p, a, i).value)
  {
    var z := Climb(p, a, i).value;
    var y := RootId(p, z);
    var k := RootIsReached(p, z);
    ClimbAdd(p, a, i, k);
    RootExactly(p, z, y);
    if IsTop(p, z, y) {
      RootAtTop(p, a, i + k, y);
    } else {
      var n := FindEntry(p, a, i + k);
      var e := Climb(p, a, n).value;
      EntryIsBelow(p, a, n, e, i + k);
      CycleUp(p, e);
      SelfParentStays(p, e, i + k - n);
      ClimbAdd(p, a, n, i + k - n);
      RootAtEntry(p, a, n, e);
    }
  }

  /** Nothing on a cycle comes before the entry. */
  lemma EntryIsBelow(p: Parents, a: string, n: nat, e: string, k: nat)
    requires EntersAt(p, a, n, e) && Climb(p, a, k).Some? && OnCycle(p, Climb(p, a, k).value)
    ensures n <= k
  {
  }

  /** Roots name trees, for every two known threads, exactly when there is no cycle but self-parents. */
  lemma RootsNameTreesExactly(p: Parents)
    ensures (forall a, b :: a in p && b in p ==> (RootId(p, a) == RootId(p, b) <==> SameTree(p, a, b))) <==>
            OnlySelfParents(p)
  {
    if OnlySelfParents(p) {
      forall a, b | a in p && b in p ensures RootId(p, a) == RootId(p, b) <==> SameTree(p, a, b) {
        RootNamesTreeWithoutCycles(p, a, b);
      }
    } else {
      var x :| OnCycle(p, x) && !(x in p && p[x] == x);
      CycleUp(p, x);
      CycleMembersAreRoots(p, x);
      CycleMembersAreRoots(p, p[x]);
      assert Climb(p, x, 1) == Climb(p, p[x], 0);
      assert SameTree(p, x, p[x]);
      CycleUp(p, p[x]);
    }
  }

  lemma RootNamesTreeWithoutCycles(p: Parents, a: string, b: string)
    requires OnlySelfParents(p)
    ensures RootId(p, a) == RootId(p, b) <==> SameTree(p, a, b)
  {
    if RootId(p, a) == RootId(p, b) {
      SameRootSameTree(p, a, b);
    }
    if SameTree(p, a, b) {
      var j: nat, k: nat :| Climb(p, a, j).Some? && Climb(p, a, j) == Climb(p, b, k);
      RootOfAncestor(p, a, j);
      RootOfAncestor(p, b, k);
    }
  }

  lemma CycleMembersAreRoots(p: Parents, x: string)
    requires OnCycle(p, x)
    ensures RootId(p, x) == x
  {
    assert Climb(p, x, 0) == Some(x);
    assert EntersAt(p, x, 0, x);
    RootAtEntry(p, x, 0, x);
  }

  // ---- Counting workflows ----

  /** The known threads of a thread's tree. */
  ghost function TreeOf(p: Parents, id: string): set<string> {
    set b | b in p && SameTree(p, id, b)
  }

  /** The trees that hold an active thread. */
  ghost function ActiveTrees(p: Parents, threads: seq<Thread>): set<set<string>> {
    set t | t in threads && IsActive(t) :: TreeOf(p, t.id)
  }

  /** The list gives every thread the root its parents determine. */
  ghost predicate HasTrueRoots(p: Parents, threads: seq<Thread>) {
    forall t :: t in threads ==> t.id in p && RootKey(t) == RootId(p, t.id)
  }

  /** No tree holds two active threads with different roots. */
  ghost predicate RootsAgree(p: Parents, threads: seq<Thread>) {
    forall t, u :: t in threads && u in threads && IsActive(t) && IsActive(u) && TreeOf(p, t.id) == TreeOf(p, u.id) ==>
                     RootKey(t) == RootKey(u)
  }

  lemma SameRootOneTree(p: Parents, a: string, b: string)
    requires RootId(p, a) == RootId(p, b)
    ensures TreeOf(p, a) == TreeOf(p, b)
  {
    SameRootSameTree(p, a, b);
    SameTreeOneClass(p, a, b);
  }

  lemma TreesOfOneMore(p: Parents, front: seq<Thread>, last: Thread)
    ensures ActiveTrees(p, front + [last]) ==
            ActiveTrees(p, front) + (if IsActive(last) then {TreeOf(p, last.id)} else {})
  {
    forall t ensures t in front + [last] <==> t in front || t == last {}
  }

  lemma CountOneMore<A, B>(trees: set<A>, roots: set<B>, tree: A, root: B)
    requires |trees| <= |roots| && (root in roots ==> tree in trees)
    ensures |trees + {tree}| <= |roots + {root}|
    ensures |trees + {tree}| == |roots + {root}| <==> |trees| == |roots| && (tree in trees ==> root in roots)
  {
    assert tree in trees ==> trees + {tree} == trees;
    assert root in roots ==> roots + {root} == roots;
  }

  /** Every tree with an active thread is counted at least once, and none twice exactly when its active threads
      agree on their root. */
  lemma {:induction false} WorkflowsCountTrees(p: Parents, threads: seq<Thread>)
    requires HasTrueRoots(p, threads)
    ensures |ActiveTrees(p, threads)| <= |ActiveRoots(threads)|
    ensures |ActiveTrees(p, threads)| == |ActiveRoots(threads)| <==> RootsAgree(p, threads)
  {
    if threads == [] {
      assert ActiveTrees(p, threads) == {} && ActiveRoots(threads) == {};
    } else {
      hide ActiveRoots, ActiveTrees, TreeOf, RootsAgree, IsActive, HasTrueRoots;
      var front, last := threads[..|threads| - 1], threads[|threads| - 1];
      assert threads == front + [last];
      RootedFront(p, threads);
      WorkflowsCountTrees(p, front);
      TreesOfOneMore(p, front, last);
      ActiveRootsOfOneMore(front, last);
      AgreeOneMore(p, front, last);
      if IsActive(last) {
        if RootKey(last) in ActiveRoots(front) {
          RootBringsTree(p, front, last);
        }
        CountOneMore(ActiveTrees(p, front), ActiveRoots(front), TreeOf(p, last.id), RootKey(last));
      }
    }
  }

  lemma RootedFront(p: Parents, threads: seq<Thread>)
    requires HasTrueRoots(p, threads) && threads != []
    ensures HasTrueRoots(p, threads[..|threads| - 1])
  {
  }

  lemma RootBringsTree(p: Parents, front: seq<Thread>, last: Thread)
    requires HasTrueRoots(p, front + [last]) && IsActive(last) && RootKey(last) in ActiveRoots(front)
    ensures TreeOf(p, last.id) in ActiveTrees(p, front)
  {
    var t :| t in front && IsActive(t) && RootKey(t) == RootKey(last);
    SameRootOneTree(p, t.id, last.id);
  }

  lemma AgreeOneMore(p: Parents, front: seq<Thread>, last: Thread)
    requires HasTrueRoots(p, front + [last])
    ensures RootsAgree(p, front + [last]) <==>
              RootsAgree(p, front) && (IsActive(last) && TreeOf(p, last.id) in ActiveTrees(p, front) ==>
                                       RootKey(last) in ActiveRoots(front))
  {
    hide TreeOf;
    if IsActive(last) && RootKey(last) in ActiveRoots(front) {
      var u :| u in front && IsActive(u) && RootKey(u) == RootKey(last);
      SameRootOneTree(p, u.id, last.id);
    }
    forall t ensures t in front + [last] <==> t in front || t == last {}
    if IsActive(last) && TreeOf(p, last.id) in ActiveTrees(p, front) {
      var t :| t in front && IsActive(t) && TreeOf(p, t.id) == TreeOf(p, last.id);
    }
  }

  // ---- Trees with one entry ----

  /** No tree holds two active threads that enter its cycle at different threads. */
  ghost predicate OneEntryPerTree(p: Parents, threads: seq<Thread>) {
    forall t, u, x, y ::
      t in threads && u in threads && IsActive(t) && IsActive(u) && SameTree(p, t.id, u.id)
      && IsEntry(p, t.id, x) && IsEntry(p, u.id, y) ==>
        x == y
  }

  lemma SameTreeIsSymmetric(p: Parents, a: string, b: string)
    requires SameTree(p, a, b)
    ensures SameTree(p, b, a)
  {
    var j: nat, k: nat :| Climb(p, a, j).Some? && Climb(p, a, j) == Climb(p, b, k);
    assert Climb(p, b, k) == Climb(p, a, j);
  }

  lemma SameTreeIsTransitive(p: Parents, a: string, b: string, c: string)
    requires SameTree(p, a, b) && SameTree(p, b, c)
    ensures SameTree(p, a, c)
  {
    var j: nat, k: nat :| Climb(p, a, j).Some? && Climb(p, a, j) == Climb(p, b, k);
    var l: nat, m: nat :| Climb(p, b, l).Some? && Climb(p, b, l) == Climb(p, c, m);
    if k <= l {
      ClimbAdd(p, b, k, l - k);
      ClimbAdd(p, a, j, l - k);
      assert Climb(p, a, j + (l - k)) == Climb(p, c, m);
    } else {
      ClimbAdd(p, b, l, k - l);
      ClimbAdd(p, c, m, k - l);
      assert Climb(p, a, j) == Climb(p, c, m + (k - l));
    }
  }

  lemma SameTreeOneClass(p: Parents, a: string, b: string)
    requires SameTree(p, a, b)
    ensures TreeOf(p, a) == TreeOf(p, b)
  {
    SameTreeIsSymmetric(p, a, b);
    forall c ensures SameTree(p, a, c) <==> SameTree(p, b, c) {
      if SameTree(p, a, c) {
        SameTreeIsTransitive(p, b, a, c);
      }
      if SameTree(p, b, c) {
        SameTreeIsTransitive(p, a, b, c);
      }
    }
  }

  /** A tree is the class of any of its known threads. */
  lemma TreeIsClass(p: Parents, a: string, b: string)
    requires a in p && b in p
    ensures TreeOf(p, a) == TreeOf(p, b) <==> SameTree(p, a, b)
  {
    assert Climb(p, b, 0) == Some(b);
    assert SameTree(p, b, b);
    assert b in TreeOf(p, b);
    if SameTree(p, a, b) {
      SameTreeOneClass(p, a, b);
    }
  }

  /** The top of a chain is the root of the whole tree. */
  lemma TopIsShared(p: Parents, a: string, b: string, x: string)
    requires IsTop(p, a, x) && SameTree(p, a, b)
    ensures RootId(p, a) == RootId(p, b) == x
  {
    var n: nat :| Climb(p, a, n) == Some(x) && !HasParent(p, x);
    var j: nat, k: nat :| Climb(p, a, j).Some? && Climb(p, a, j) == Climb(p, b, k);
    EndAbove(p, a, j, n, x);
    ClimbAdd(p, b, k, n - j);
    RootAtTop(p, a, n, x);
    RootAtTop(p, b, k + (n - j), x);
  }

  /** Two threads of one tree have one root, if no two different entries say otherwise. */
  lemma OneEntryOneRoot(p: Parents, a: string, b: string)
    requires SameTree(p, a, b)
    requires forall x, y :: IsEntry(p, a, x) && IsEntry(p, b, y) ==> x == y
    ensures RootId(p, a) == RootId(p, b)
  {
    RootExactly(p, a, RootId(p, a));
    RootExactly(p, b, RootId(p, b));
    SameTreeIsSymmetric(p, a, b);
    if IsTop(p, a, RootId(p, a)) {
      TopIsShared(p, a, b, RootId(p, a));
    } else if IsTop(p, b, RootId(p, b)) {
      TopIsShared(p, b, a, RootId(p, b));
    }
  }

  /** So the roots a list shows agree within each tree exactly when the graph gives each tree one entry. */
  lemma RootsAgreeExactly(p: Parents, threads: seq<Thread>)
    requires HasTrueRoots(p, threads)
    ensures RootsAgree(p, threads) <==> OneEntryPerTree(p, threads)
  {
    hide IsActive, SameTree, IsEntry, TreeOf;
    if RootsAgree(p, threads) {
      forall t, u, x, y | t in threads && u in threads && IsActive(t) && IsActive(u) && SameTree(p, t.id, u.id)
                          && IsEntry(p, t.id, x) && IsEntry(p, u.id, y)
        ensures x == y
      {
        TreeIsClass(p, t.id, u.id);
        RootExactly(p, t.id, x);
        RootExactly(p, u.id, y);
      }
    }
    if OneEntryPerTree(p, threads) {
      forall t, u | t in threads && u in threads && IsActive(t) && IsActive(u) && TreeOf(p, t.id) == TreeOf(p, u.id)
        ensures RootKey(t) == RootKey(u)
      {
        TreeIsClass(p, t.id, u.id);
        OneEntryOneRoot(p, t.id, u.id);
      }
    }
  }

  // ---- Thread maps ----

  function ParentMap(m: map<string, Thread>): Parents {
    map id | id in m :: m[id].parentThreadId
  }

  function HierarchyMap(m: map<string, Thread>): map<string, Thread> {
    map id | id in m :: WithHierarchy(ParentMap(m), m[id])
  }

  function ParentsOf(threads: seq<Thread>): Parents {
    ParentMap(ById(threads))
  }

  lemma RootKeyIsRoot(m: map<string, Thread>, id: string)
    requires id in m && m[id].id == id
    ensures RootKey(HierarchyMap(m)[id]) == RootId(ParentMap(m), id)
  {
  }

  /** A thread is a root exactly when it names no parent, and otherwise a subagent. */
  ghost predicate HasTrueRoles(threads: seq<Thread>) {
    forall t :: t in threads ==> t.threadRole == if t.parentThreadId == "" then RootRole else Subagent
  }

  lemma HierarchyHasRoles(threads: seq<Thread>, m: map<string, Thread>)
    requires Enumerates(threads, HierarchyMap(m))
    ensures HasTrueRoles(threads)
  {
    forall t | t in threads ensures t.threadRole == if t.parentThreadId == "" then RootRole else Subagent {
      var i :| 0 <= i < |threads| && threads[i] == t;
      assert HierarchyMap(m)[t.id] == t;
    }
  }

  /** A list that enumerates a hierarchy map is rooted by its own parents. */
  lemma HierarchyIsRooted(threads: seq<Thread>, m: map<string, Thread>)
    requires Enumerates(threads, HierarchyMap(m)) && (forall id :: id in m ==> m[id].id == id)
    ensures HasTrueRoots(ParentsOf(threads), threads)
  {
    EnumeratesById(threads, HierarchyMap(m));
    assert ParentsOf(threads) == ParentMap(m);
    forall t | t in threads ensures t.id in ParentsOf(threads) && RootKey(t) == RootId(ParentsOf(threads), t.id) {
      assert t.id in HierarchyMap(m) && HierarchyMap(m)[t.id] == t;
      RootKeyIsRoot(m, t.id);
    }
  }

  /** The workflows shown are never fewer than the trees that hold an active thread and never more than the active
      workers. They are exactly those trees if and only if no tree holds two active threads that enter its cycle at
      different threads, and so whenever there is no cycle but self-parents. */
  lemma WorkflowsAreTrees(threads: seq<Thread>)
    requires HasTrueRoots(ParentsOf(threads), threads)
    ensures var p, shown := ParentsOf(threads), SummaryOf(threads, false);
            && |ActiveTrees(p, threads)| <= shown.activeWorkflows <= shown.activeWorkers
            && (shown.activeWorkflows == |ActiveTrees(p, threads)| <==> OneEntryPerTree(p, threads))
            && (OnlySelfParents(p) ==> shown.activeWorkflows == |ActiveTrees(p, threads)|)
  {
    var p := ParentsOf(threads);
    WorkflowsCountTrees(p, threads);
    RootsAgreeExactly(p, threads);
    hide OneEntryPerTree;
    WorkflowsWithinWorkers(threads);
    if OnlySelfParents(p) {
      forall t, u | t in threads && u in threads && TreeOf(p, t.id) == TreeOf(p, u.id)
        ensures RootKey(t) == RootKey(u)
      {
        assert Climb(p, t.id, 0) == Some(t.id);
        assert SameTree(p, t.id, t.id);
        assert t.id in TreeOf(p, u.id);
        RootNamesTreeWithoutCycles(p, u.id, t.id);
      }
    }
  }

  /** Two active threads that are each other's parents are one tree and two workflows. */
  lemma CycleSplitsWorkflows(t: Thread, u: Thread)
    requires t.id != u.id && t.id != "" && u.id != "" && t.parentThreadId == u.id && u.parentThreadId == t.id
    requires IsActive(t) && IsActive(u)
    ensures var p := ParentsOf([t, u]);
            var threads := [WithHierarchy(p, t), WithHierarchy(p, u)];
            |ActiveRoots(threads)| == 2 && |ActiveTrees(p, threads)| == 1
  {
    var p := ParentsOf([t, u]);
    TwoParents(t, u);
    TwoCycle(p, t.id, u.id);
    hide WithHierarchy, TreeOf, Walk, Climb, ParentsOf;
    TwoRoots(p, t, u);
    OneTree(p, t.id, u.id);
    var threads := [WithHierarchy(p, t), WithHierarchy(p, u)];
    assert threads[0] in threads && threads[1] in threads;
    assert ActiveRoots(threads) == {t.id, u.id};
    assert ActiveTrees(p, threads) == {TreeOf(p, t.id)};
  }

  lemma TwoCycle(p: Parents, a: string, b: string)
    requires a != "" && b != "" && a in p && b in p && p[a] == b && p[b] == a
    ensures SameTree(p, a, b) && RootId(p, a) == a && RootId(p, b) == b
  {
    assert Climb(p, a, 1) == Some(b) && Climb(p, b, 0) == Some(b);
    assert Climb(p, a, 2) == Climb(p, b, 1) == Some(a);
    assert Climb(p, b, 2) == Climb(p, a, 1) == Some(b);
    CycleMembersAreRoots(p, a);
    CycleMembersAreRoots(p, b);
  }

  lemma TwoRoots(p: Parents, t: Thread, u: Thread)
    requires t.id in p && u.id in p && p[t.id] == t.parentThreadId != "" && p[u.id] == u.parentThreadId != ""
    requires RootId(p, t.id) == t.id && RootId(p, u.id) == u.id
    ensures var v, w := WithHierarchy(p, t), WithHierarchy(p, u);
            && RootKey(v) == v.id == t.id && RootKey(w) == w.id == u.id && v.state == t.state && w.state == u.state
  {
  }

  lemma TwoParents(t: Thread, u: Thread)
    requires t.id != u.id
    ensures ParentsOf([t, u]) == map[t.id := t.parentThreadId, u.id := u.parentThreadId]
  {
    assert [t, u][..1] == [t] && [t][..0] == [];
    assert ById([t]) == map[t.id := t];
    assert ById([t, u]) == map[t.id := t, u.id := u];
  }

  lemma OneTree(p: Parents, a: string, b: string)
    requires a in p && b in p && p.Keys == {a, b} && SameTree(p, a, b)
    ensures TreeOf(p, a) == TreeOf(p, b) == {a, b}
  {
    assert Climb(p, a, 0) == Some(a) && Climb(p, b, 0) == Some(b);
    var j: nat, k: nat :| Climb(p, a, j).Some? && Climb(p, a, j) == Climb(p, b, k);
    assert Climb(p, b, k) == Climb(p, a, j);
  }

  /** Roots depend only on who has which parent, so parentless additions move none of them. */
  lemma {:induction false} WalkIgnoresParentless(p: Parents, q: Parents, r: string, seen: set<string>)
    requires forall id :: HasParent(p, id) <==> HasParent(q, id)
    requires forall id :: id in p && id in q && HasParent(p, id) ==> p[id] == q[id]
    ensures Walk(p, r, seen) == Walk(q, r, seen)
    decreases |p.Keys - seen|
  {
    if r != "" && r !in seen && HasParent(p, r) {
      SubsetIsSmaller(p.Keys - (seen + {r}), p.Keys - seen);
      WalkIgnoresParentless(p, q, p[r], seen + {r});
    }
  }

  // ---- The pass over the slice ----

  /** Two loops over the slice: index the threads, then overwrite role and root in place. */
  method AssignThreadHierarchy(threads: array<Thread>)
    modifies threads
    ensures forall i :: 0 <= i < threads.Length ==>
              threads[i] == WithHierarchy(ParentsOf(old(threads[..])), old(threads[i]))
  {
    var byId: map<string, Thread> := map[];
    for i := 0 to threads.Length
      invariant byId == ById(threads[..i])
    {
      assert threads[..i + 1][..i] == threads[..i];
      byId := byId[threads[i].id := threads[i]];
    }
    ghost var p := ParentMap(byId);
    assert threads[..threads.Length] == threads[..];
    for i := 0 to threads.Length
      invariant forall j :: 0 <= j < i ==> threads[j] == WithHierarchy(p, old(threads[j]))
      invariant forall j :: i <= j < threads.Length ==> threads[j] == old(threads[j])
    {
      var thread := threads[i];
      if thread.parentThreadId == "" {
        threads[i] := thread.(threadRole := RootRole, rootThreadId := thread.id);
      } else {
        var rootId := FindRoot(byId, thread.id, thread.parentThreadId);
        threads[i] := thread.(threadRole := Subagent, rootThreadId := rootId);
      }
    }
  }

  /** The inner loop, from the parent of thread `id`. */
  method FindRoot(byId: map<string, Thread>, id: string, parent: string) returns (rootId: string)
    ensures rootId == Walk(ParentMap(byId), parent, {id})
  {
    ghost var p := ParentMap(byId);
    rootId := parent;
    var seen := {id};
    while rootId != ""
      invariant Walk(p, rootId, seen) == Walk(p, parent, {id})
      decreases p.Keys - seen
    {
      if rootId in seen {
        break;
      }
      if rootId !in byId || byId[rootId].parentThreadId == "" {
        break;
      }
      seen := seen + {rootId};
      rootId := byId[rootId].parentThreadId;
    }
  }

  lemma HierarchyKeepsId(p: Parents, t: Thread)
    ensures WithHierarchy(p, t).id == t.id
  {
  }

  lemma HierarchyEnumerates(input: seq<Thread>, output: seq<Thread>, m: map<string, Thread>)
    requires Enumerates(input, m) && |output| == |input|
    requires forall i :: 0 <= i < |input| ==> output[i] == WithHierarchy(ParentsOf(input), input[i])
    ensures Enumerates(output, HierarchyMap(m))
  {
    EnumeratesById(input, m);
    hide WithHierarchy, ById;
    forall p, t ensures WithHierarchy(p, t).id == t.id {
      HierarchyKeepsId(p, t);
    }
    forall id | id in m ensures HierarchyMap(m)[id] in output && HierarchyMap(m)[id].id == id {
      var i :| 0 <= i < |input| && input[i] == m[id];
      assert output[i] == HierarchyMap(m)[id];
    }
  }
}
