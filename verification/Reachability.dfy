/** States reached from one another by the steps of some machine, whatever the machine. */
module Reachability {
  ghost predicate Path<S(!new)>(step: (S, S) -> bool, path: seq<S>) {
    path != [] && forall i :: 0 < i < |path| ==> step(path[i - 1], path[i])
  }

  ghost predicate Reaches<S(!new)>(step: (S, S) -> bool, s: S, s': S) {
    exists path :: Path(step, path) && path[0] == s && path[|path| - 1] == s'
  }

  lemma {:induction false} Stays<S(!new)>(step: (S, S) -> bool, s: S)
    ensures Reaches(step, s, s)
  {
    assert Path(step, [s]);
  }

  lemma {:induction false} OneStep<S(!new)>(step: (S, S) -> bool, s: S, s': S)
    requires step(s, s')
    ensures Reaches(step, s, s')
  {
    var path := [s, s'];
    assert Path(step, path) && path[0] == s && path[1] == s';
  }

  lemma {:induction false} ReachesOn<S(!new)>(step: (S, S) -> bool, s: S, m: S, s': S)
    requires Reaches(step, s, m) && Reaches(step, m, s')
    ensures Reaches(step, s, s')
  {
    var a :| Path(step, a) && a[0] == s && a[|a| - 1] == m;
    var b :| Path(step, b) && b[0] == m && b[|b| - 1] == s';
    var path := a + b[1..];
    forall i | 0 < i < |path| ensures step(path[i - 1], path[i]) {
      if i < |a| {
        assert path[i - 1] == a[i - 1] && path[i] == a[i];
      } else {
        assert path[i] == b[i - |a| + 1] && path[i - 1] == b[i - |a|];
      }
    }
    assert path[|path| - 1] == s';
    assert Path(step, path);
  }

  /** What every step keeps holds wherever the steps lead. */
  lemma {:induction false} Kept<S(!new)>(step: (S, S) -> bool, kept: S -> bool, s: S, s': S)
    requires Reaches(step, s, s') && kept(s)
    requires forall a, b :: kept(a) && step(a, b) ==> kept(b)
    ensures kept(s')
  {
    var path :| Path(step, path) && path[0] == s && path[|path| - 1] == s';
    KeptAlong(step, kept, path, |path| - 1);
  }

  lemma {:induction false} KeptAlong<S(!new)>(step: (S, S) -> bool, kept: S -> bool, path: seq<S>, n: nat)
    requires Path(step, path) && n < |path| && kept(path[0])
    requires forall a, b :: kept(a) && step(a, b) ==> kept(b)
    ensures kept(path[n])
  {
    if n == 0 {
    } else {
      KeptAlong(step, kept, path, n - 1);
    }
  }
}
