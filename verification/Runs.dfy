/** Runs of any step relation. */
module Runs {
  ghost predicate LeadsIn<S(!new)>(next: (S, S) -> bool, s: S, t: S, n: nat)
    decreases n
  {
    if n == 0 then s == t else exists u :: next(s, u) && LeadsIn(next, u, t, n - 1)
  }

  /** A run of steps leads from s to t. */
  ghost predicate Leads<S(!new)>(next: (S, S) -> bool, s: S, t: S) {
    exists n: nat :: LeadsIn(next, s, t, n)
  }

  lemma LeadsNowhere<S(!new)>(next: (S, S) -> bool, s: S)
    ensures Leads(next, s, s)
  {
    assert LeadsIn(next, s, s, 0);
  }

  lemma {:induction false} LeadsInOn<S(!new)>(next: (S, S) -> bool, s: S, t: S, u: S, m: nat, n: nat)
    requires LeadsIn(next, s, t, m) && LeadsIn(next, t, u, n)
    ensures LeadsIn(next, s, u, m + n)
    decreases m
  {
    if m > 0 {
      var v :| next(s, v) && LeadsIn(next, v, t, m - 1);
      LeadsInOn(next, v, t, u, m - 1, n);
      assert next(s, v) && LeadsIn(next, v, u, m + n - 1);
    }
  }

  lemma LeadsOn<S(!new)>(next: (S, S) -> bool, s: S, t: S, u: S)
    requires Leads(next, s, t) && Leads(next, t, u)
    ensures Leads(next, s, u)
  {
    var m: nat :| LeadsIn(next, s, t, m);
    var n: nat :| LeadsIn(next, t, u, n);
    LeadsInOn(next, s, t, u, m, n);
  }

  lemma LeadsStep<S(!new)>(next: (S, S) -> bool, s: S, t: S, u: S)
    requires Leads(next, s, t) && next(t, u)
    ensures Leads(next, s, u)
  {
    assert LeadsIn(next, u, u, 0);
    assert LeadsIn(next, t, u, 1);
    LeadsOn(next, s, t, u);
  }

  /** What every step keeps, every run keeps. */
  lemma {:induction false} KeptIn<S(!new)>(next: (S, S) -> bool, kept: S -> bool, s: S, t: S, n: nat)
    requires forall x, y :: kept(x) && next(x, y) ==> kept(y)
    requires kept(s) && LeadsIn(next, s, t, n)
    ensures kept(t)
    decreases n
  {
    if n > 0 {
      var u :| next(s, u) && LeadsIn(next, u, t, n - 1);
      KeptIn(next, kept, u, t, n - 1);
    }
  }

  lemma LeadsKeep<S(!new)>(next: (S, S) -> bool, kept: S -> bool, s: S, t: S)
    requires forall x, y :: kept(x) && next(x, y) ==> kept(y)
    requires kept(s) && Leads(next, s, t)
    ensures kept(t)
  {
    var n: nat :| LeadsIn(next, s, t, n);
    KeptIn(next, kept, s, t, n);
  }
}
