/// Reachability over a directed multigraph given as its edge list in insertion
/// order, and the cycle test a DAG library applies when an edge is added.
/// Definitions take a count `n` and look only at the first `n` edges, so
/// that reasoning about a growing edge list needs no sub-sequences.
module Graphs {
  type Edge = (string, string)

  /// `a` reaches `b` using only the first `n` edges (zero or more steps).
  /// Edge `n - 1` is either unused, or used once between a path to its
  /// source and a path from its target.
  predicate ReachesIn(es: seq<Edge>, n: nat, a: string, b: string)
    requires n <= |es|
  {
    if n == 0 then a == b
    else
      ReachesIn(es, n - 1, a, b) ||
      (ReachesIn(es, n - 1, a, es[n - 1].0) && ReachesIn(es, n - 1, es[n - 1].1, b))
  }

  predicate Reaches(es: seq<Edge>, a: string, b: string) {
    ReachesIn(es, |es|, a, b)
  }

  /// Some edge closes a cycle: its target leads back to its source.
  predicate HasCycle(es: seq<Edge>) {
    exists k :: 0 <= k < |es| && Reaches(es, es[k].1, es[k].0)
  }

  /// Each of the first `n` edges was accepted when it was added: its target
  /// did not already reach its source (a self-loop is refused too).
  predicate AcceptedIn(es: seq<Edge>, n: nat)
    requires n <= |es|
  {
    n == 0 || (AcceptedIn(es, n - 1) && !ReachesIn(es, n - 1, es[n - 1].1, es[n - 1].0))
  }

  predicate AllAccepted(es: seq<Edge>) {
    AcceptedIn(es, |es|)
  }

  /// Edge `k` is the first one refused.
  predicate RefusedAt(es: seq<Edge>, k: int) {
    0 <= k < |es| && AcceptedIn(es, k) && ReachesIn(es, k, es[k].1, es[k].0)
  }

  /// A walk: consecutive nodes are joined by an edge.
  predicate IsWalk(es: seq<Edge>, p: seq<string>) {
    |p| >= 1 && forall i :: 0 <= i < |p| - 1 ==> (p[i], p[i + 1]) in es
  }

  /// Two edge lists that agree on their first `n` edges agree on what those
  /// edges reach and accept.
  lemma {:induction false} SamePrefix(es: seq<Edge>, fs: seq<Edge>, n: nat)
    requires n <= |es| && n <= |fs| && es[..n] == fs[..n]
    ensures forall a, b :: ReachesIn(es, n, a, b) == ReachesIn(fs, n, a, b)
    ensures AcceptedIn(es, n) == AcceptedIn(fs, n)
  {
    if n > 0 {
      assert es[..n - 1] == fs[..n - 1] by {
        assert es[..n - 1] == es[..n][..n - 1] && fs[..n - 1] == fs[..n][..n - 1];
      }
      assert es[n - 1] == es[..n][n - 1] == fs[..n][n - 1] == fs[n - 1];
      SamePrefix(es, fs, n - 1);
    }
  }

  lemma {:induction false} ReachesRefl(es: seq<Edge>, n: nat, a: string)
    requires n <= |es|
    ensures ReachesIn(es, n, a, a)
  {
    if n > 0 {
      ReachesRefl(es, n - 1, a);
    }
  }

  /// More edges never lose a path.
  lemma {:induction false} ReachesMono(es: seq<Edge>, m: nat, n: nat, a: string, b: string)
    requires m <= n <= |es| && ReachesIn(es, m, a, b)
    ensures ReachesIn(es, n, a, b)
    decreases n - m
  {
    if m < n {
      ReachesMono(es, m, n - 1, a, b);
    }
  }

  lemma {:induction false} ReachesTrans(es: seq<Edge>, n: nat, a: string, b: string, c: string)
    requires n <= |es| && ReachesIn(es, n, a, b) && ReachesIn(es, n, b, c)
    ensures ReachesIn(es, n, a, c)
  {
    if n > 0 {
      var e := es[n - 1];
      if ReachesIn(es, n - 1, a, b) && ReachesIn(es, n - 1, b, c) {
        ReachesTrans(es, n - 1, a, b, c);
      } else if ReachesIn(es, n - 1, a, b) {
        ReachesTrans(es, n - 1, a, b, e.0);
      } else if ReachesIn(es, n - 1, b, c) {
        ReachesTrans(es, n - 1, e.1, b, c);
      }
    }
  }

  lemma {:induction false} EdgeReaches(es: seq<Edge>, n: nat, k: nat)
    requires k < n <= |es|
    ensures ReachesIn(es, n, es[k].0, es[k].1)
  {
    if k == n - 1 {
      ReachesRefl(es, n - 1, es[k].0);
      ReachesRefl(es, n - 1, es[k].1);
    } else {
      EdgeReaches(es, n - 1, k);
    }
  }

  lemma ThroughEdge(es: seq<Edge>, n: nat, k: nat, a: string, b: string)
    requires k < n <= |es|
    ensures ReachesIn(es, n, a, es[k].0) && ReachesIn(es, n, es[k].1, b) ==> ReachesIn(es, n, a, b)
  {
    if ReachesIn(es, n, a, es[k].0) && ReachesIn(es, n, es[k].1, b) {
      EdgeReaches(es, n, k);
      ReachesTrans(es, n, a, es[k].0, es[k].1);
      ReachesTrans(es, n, a, es[k].1, b);
    }
  }

  /// A walk from `a` to `b` gives a path.
  lemma {:induction false} WalkReaches(es: seq<Edge>, p: seq<string>)
    requires IsWalk(es, p)
    ensures Reaches(es, p[0], p[|p| - 1])
    decreases |p|
  {
    if |p| == 1 {
      ReachesRefl(es, |es|, p[0]);
    } else {
      var q := p[..|p| - 1];
      assert IsWalk(es, q) by {
        forall i | 0 <= i < |q| - 1 ensures (q[i], q[i + 1]) in es {
          assert q[i] == p[i] && q[i + 1] == p[i + 1];
        }
      }
      WalkReaches(es, q);
      assert (p[|p| - 2], p[|p| - 1]) in es;
      var k :| 0 <= k < |es| && es[k] == (p[|p| - 2], p[|p| - 1]);
      EdgeReaches(es, |es|, k);
      ReachesTrans(es, |es|, p[0], p[|p| - 2], p[|p| - 1]);
    }
  }

  lemma WalkJoin(es: seq<Edge>, p: seq<string>, q: seq<string>)
    requires IsWalk(es, p) && IsWalk(es, q) && (p[|p| - 1], q[0]) in es
    ensures IsWalk(es, p + q) && (p + q)[0] == p[0] && (p + q)[|p + q| - 1] == q[|q| - 1]
  {
    var w := p + q;
    forall i | 0 <= i < |w| - 1 ensures (w[i], w[i + 1]) in es {
      if i < |p| - 1 {
        assert w[i] == p[i] && w[i + 1] == p[i + 1];
      } else if i == |p| - 1 {
        assert w[i] == p[|p| - 1] && w[i + 1] == q[0];
      } else {
        assert w[i] == q[i - |p|] && w[i + 1] == q[i - |p| + 1];
      }
    }
  }

  lemma WalkWider(es: seq<Edge>, m: nat, n: nat, p: seq<string>)
    requires m <= n <= |es| && IsWalk(es[..m], p)
    ensures IsWalk(es[..n], p)
  {
    forall i | 0 <= i < |p| - 1 ensures (p[i], p[i + 1]) in es[..n] {
      var k :| 0 <= k < m && es[..m][k] == (p[i], p[i + 1]);
      assert es[..n][k] == es[k];
    }
  }

  /// A path over the first `n` edges gives a walk over them.
  lemma {:induction false} ReachesWalk(es: seq<Edge>, n: nat, a: string, b: string) returns (p: seq<string>)
    requires n <= |es| && ReachesIn(es, n, a, b)
    ensures IsWalk(es[..n], p) && p[0] == a && p[|p| - 1] == b
  {
    if n == 0 {
      p := [a];
    } else {
      var e := es[n - 1];
      assert es[..n][n - 1] == e;
      if ReachesIn(es, n - 1, a, b) {
        p := ReachesWalk(es, n - 1, a, b);
        WalkWider(es, n - 1, n, p);
      } else {
        var p1 := ReachesWalk(es, n - 1, a, e.0);
        var p2 := ReachesWalk(es, n - 1, e.1, b);
        WalkWider(es, n - 1, n, p1);
        WalkWider(es, n - 1, n, p2);
        WalkJoin(es[..n], p1, p2);
        p := p1 + p2;
      }
    }
  }

  /// `Reaches` is exactly reachability by a walk.
  lemma ReachesIffWalk(es: seq<Edge>, a: string, b: string)
    ensures Reaches(es, a, b) <==> exists p :: IsWalk(es, p) && p[0] == a && p[|p| - 1] == b
  {
    if Reaches(es, a, b) {
      var p := ReachesWalk(es, |es|, a, b);
      assert es[..|es|] == es;
    }
    if exists p :: IsWalk(es, p) && p[0] == a && p[|p| - 1] == b {
      var p :| IsWalk(es, p) && p[0] == a && p[|p| - 1] == b;
      WalkReaches(es, p);
    }
  }

  /// Appending one edge: it is accepted exactly when its target does not
  /// already reach its source, and no path is lost.
  lemma AcceptedAppend(es: seq<Edge>, e: Edge)
    ensures AllAccepted(es + [e]) <==> AllAccepted(es) && !Reaches(es, e.1, e.0)
  {
    var fs := es + [e];
    assert fs[..|es|] == es[..|es|];
    SamePrefix(fs, es, |es|);
    assert fs[|es|] == e;
  }

  /// Adding the first `n` edges one at a time, refusing any that would close
  /// a cycle, accepts all of them exactly when they form no cycle.
  lemma {:induction false} AcceptedInIffAcyclic(es: seq<Edge>, n: nat)
    requires n <= |es|
    ensures AcceptedIn(es, n) <==> !exists k :: 0 <= k < n && ReachesIn(es, n, es[k].1, es[k].0)
  {
    if n > 0 {
      var e := es[n - 1];
      AcceptedInIffAcyclic(es, n - 1);
      if AcceptedIn(es, n) {
        forall k | 0 <= k < n ensures !ReachesIn(es, n, es[k].1, es[k].0) {
          if k < n - 1 {
            assert !ReachesIn(es, n - 1, es[k].1, es[k].0);
            // the new edge's target reaching this edge's source would close
            // a path back to the new edge's source
            ThroughEdge(es, n - 1, k, e.1, e.0);
          }
        }
      } else if AcceptedIn(es, n - 1) {
        ReachesMono(es, n - 1, n, e.1, e.0);
        assert ReachesIn(es, n, es[n - 1].1, es[n - 1].0);
      } else {
        var k :| 0 <= k < n - 1 && ReachesIn(es, n - 1, es[k].1, es[k].0);
        ReachesMono(es, n - 1, n, es[k].1, es[k].0);
      }
    }
  }

  /// The whole list is accepted exactly when it has no cycle.
  lemma AcceptedIffAcyclic(es: seq<Edge>)
    ensures AllAccepted(es) <==> !HasCycle(es)
  {
    AcceptedInIffAcyclic(es, |es|);
  }

  /// When not every edge is accepted, some edge is the first one refused.
  lemma {:induction false} FirstRefusal(es: seq<Edge>, n: nat) returns (k: nat)
    requires n <= |es| && !AcceptedIn(es, n)
    ensures k < n && RefusedAt(es, k)
  {
    if AcceptedIn(es, n - 1) {
      k := n - 1;
    } else {
      k := FirstRefusal(es, n - 1);
    }
  }

  /// A refused edge leaves every longer prefix unaccepted.
  lemma {:induction false} RefusedNotAccepted(es: seq<Edge>, k: nat, n: nat)
    requires RefusedAt(es, k) && k < n <= |es|
    ensures !AcceptedIn(es, n)
  {
    if k < n - 1 {
      RefusedNotAccepted(es, k, n - 1);
    }
  }
}
