/** Sums over finite sets. */
module Sums {

  ghost function Sum<T(!new)>(s: set<T>, f: T -> int): int {
    if s == {} then 0
    else
      var x :| x in s;
      f(x) + Sum(s - {x}, f)
  }

  lemma {:induction false} SumRemove<T(!new)>(s: set<T>, f: T -> int, x: T)
    requires x in s
    ensures Sum(s, f) == f(x) + Sum(s - {x}, f)
  {
    var y :| y in s && Sum(s, f) == f(y) + Sum(s - {y}, f);
    if y != x {
      SumRemove(s - {y}, f, x);
      SumRemove(s - {x}, f, y);
      assert s - {y} - {x} == s - {x} - {y};
    }
  }

  lemma {:induction false} SumEqual<T(!new)>(s: set<T>, f: T -> int, g: T -> int)
    requires forall x | x in s :: f(x) == g(x)
    ensures Sum(s, f) == Sum(s, g)
  {
    if s != {} {
      var x :| x in s;
      SumEqual(s - {x}, f, g);
      SumRemove(s, f, x);
      SumRemove(s, g, x);
    }
  }

  lemma SumWithout<T(!new)>(s: set<T>, f: T -> int, k: T)
    ensures Sum(s, f) - (if k in s then f(k) else 0) == Sum(s - {k}, f)
  {
    if k in s { SumRemove(s, f, k); } else { assert s - {k} == s; }
  }

  /** Replacing, adding or removing the entry of one key changes the sum by that entry. */
  lemma SumChange<T(!new)>(s: set<T>, s': set<T>, f: T -> int, f': T -> int, k: T)
    requires s - {k} == s' - {k}
    requires forall x | x in s && x != k :: f(x) == f'(x)
    ensures Sum(s', f') - (if k in s' then f'(k) else 0) == Sum(s, f) - (if k in s then f(k) else 0)
  {
    SumWithout(s, f, k);
    SumWithout(s', f', k);
    SumEqual(s - {k}, f, f');
  }

  lemma {:induction false} SumIsCardinality<T(!new)>(s: set<T>, f: T -> int, chosen: set<T>)
    requires chosen <= s
    requires forall x | x in s :: f(x) == if x in chosen then 1 else 0
    ensures Sum(s, f) == |chosen|
  {
    if s != {} {
      var x :| x in s;
      SumRemove(s, f, x);
      SumIsCardinality(s - {x}, f, chosen - {x});
    }
  }

  lemma {:induction false} SumNonNegative<T(!new)>(s: set<T>, f: T -> int)
    requires forall x | x in s :: f(x) >= 0
    ensures Sum(s, f) >= 0
  {
    if s != {} {
      var x :| x in s;
      SumRemove(s, f, x);
      SumNonNegative(s - {x}, f);
    }
  }
}
