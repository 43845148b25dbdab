/** Walking up parent links that may form cycles or lead nowhere. */
module ParentChains {
  import opened Basics

  type Parents = map<string, string>

  /** The id `n` links above `id`. */
  function Up(p: Parents, id: string, n: nat): Option<string>
    decreases n
  {
    if n == 0 then Some(id) else if id in p then Up(p, p[id], n - 1) else None
  }

  /** The chain from `id` ends `d` links above it. */
  ghost predicate RootAbove(p: Parents, id: string, d: nat) {
    Up(p, id, d).Some? && Up(p, id, d).value !in p
  }

  ghost predicate Acyclic(p: Parents) {
    forall id, n: nat :: n > 0 ==> Up(p, id, n) != Some(id)
  }

  lemma {:induction false} UpThenUp(p: Parents, id: string, m: nat, n: nat)
    ensures Up(p, id, m + n) == if Up(p, id, m).Some? then Up(p, Up(p, id, m).value, n) else None
    decreases m
  {
    if m > 0 && id in p {
      UpThenUp(p, p[id], m - 1, n);
    }
  }

  lemma UpOne(p: Parents, id: string, n: nat)
    requires Up(p, id, n).Some?
    ensures var x := Up(p, id, n).value; Up(p, id, n + 1) == if x in p then Some(p[x]) else None
  {
    UpThenUp(p, id, n, 1);
    var x := Up(p, id, n).value;
    if x in p {
      assert Up(p, p[x], 0) == Some(p[x]);
    }
  }

  lemma UpBefore(p: Parents, id: string, m: nat, n: nat)
    requires m <= n && Up(p, id, n).Some?
    ensures Up(p, id, m).Some? && (m < n ==> Up(p, id, m).value in p)
  {
    UpThenUp(p, id, m, n - m);
    if m < n {
      var x := Up(p, id, m).value;
      assert Up(p, x, n - m).Some?;
    }
  }

  ghost function Chain(p: Parents, id: string, n: nat): (s: seq<string>)
    requires Up(p, id, n).Some?
    ensures |s| == n + 1 && forall i :: 0 <= i <= n ==> Some(s[i]) == Up(p, id, i)
    decreases n
  {
    if n == 0 then [id] else [id] + Chain(p, p[id], n - 1)
  }

  lemma RootIsUnique(p: Parents, id: string, d: nat, e: nat)
    requires RootAbove(p, id, d) && RootAbove(p, id, e)
    ensures d == e
  {
    if d < e {
      UpBefore(p, id, d, e);
    } else if e < d {
      UpBefore(p, id, e, d);
    }
  }

  /** Above a root there is nothing, so a chain that reaches one never repeats itself. */
  lemma RootedChainIsDistinct(p: Parents, id: string, d: nat)
    requires RootAbove(p, id, d)
    ensures NoDup(Chain(p, id, d))
  {
    var s := Chain(p, id, d);
    forall i, j | 0 <= i < j < |s| ensures s[i] != s[j] {
      if s[i] == s[j] {
        UpThenUp(p, id, i, d - j);
        UpThenUp(p, id, j, d - j);
        RootIsUnique(p, id, i + (d - j), d);
      }
    }
  }

  lemma RootIsNear(p: Parents, id: string, d: nat)
    requires RootAbove(p, id, d)
    ensures d <= |p|
  {
    var s := Chain(p, id, d);
    RootedChainIsDistinct(p, id, d);
    forall i | 0 <= i < d ensures s[i] in p.Keys {
      UpBefore(p, id, i, d);
    }
    NoDupFits(s[..d], p.Keys);
    assert |p.Keys| == |p|;
  }

  /** A rooted chain through known ids is no longer than there are ids. */
  lemma RootIsNearKnown(p: Parents, id: string, d: nat, ids: set<string>)
    requires RootAbove(p, id, d) && p.Keys <= ids && Up(p, id, d).value in ids
    ensures d < |ids|
  {
    var s := Chain(p, id, d);
    RootedChainIsDistinct(p, id, d);
    forall i | 0 <= i < |s| ensures s[i] in ids {
      if i < d {
        UpBefore(p, id, i, d);
      }
    }
    NoDupFits(s, ids);
  }

  /** A chain that is longer than there are links goes round in a circle. */
  lemma LongChainRepeats(p: Parents, id: string)
    requires Up(p, id, |p| + 1).Some?
    ensures exists i: nat, j: nat :: i < j && Up(p, id, i).Some? && Up(p, id, i) == Up(p, id, j)
  {
    var n := |p|;
    UpBefore(p, id, n, n + 1);
    var s := Chain(p, id, n);
    forall i | 0 <= i < |s| ensures s[i] in p.Keys {
      UpBefore(p, id, i, n + 1);
    }
    if NoDup(s) {
      NoDupFits(s, p.Keys);
    }
    var i, j :| 0 <= i < j < |s| && s[i] == s[j];
  }

  /** The last id of the chain within `n` links. */
  lemma {:induction false} ChainEnds(p: Parents, id: string, n: nat)
    requires Up(p, id, n).None?
    ensures exists d: nat :: d < n && RootAbove(p, id, d)
    decreases n
  {
    if Up(p, id, n - 1).Some? {
      UpOne(p, id, n - 1);
      assert RootAbove(p, id, n - 1);
    } else {
      ChainEnds(p, id, n - 1);
    }
  }

  /** Without a cycle every chain ends. */
  lemma AcyclicIsRooted(p: Parents, id: string)
    requires forall x, n: nat :: x in p && n > 0 ==> Up(p, x, n) != Some(x)
    ensures exists d: nat :: d <= |p| && RootAbove(p, id, d)
  {
    if Up(p, id, |p| + 1).Some? {
      LongChainRepeats(p, id);
      var i: nat, j: nat :| i < j && Up(p, id, i).Some? && Up(p, id, i) == Up(p, id, j);
      UpThenUp(p, id, i, j - i);
      UpBefore(p, id, i, j);
      assert false;
    } else {
      ChainEnds(p, id, |p| + 1);
    }
  }
}
