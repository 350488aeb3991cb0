/** Counting of JVM global references. A reference is the number of references made before it. */
module References {
  type Ref = nat

  function Upto(n: nat): multiset<Ref> {
    if n == 0 then multiset{} else Upto(n - 1) + multiset{n - 1}
  }

  lemma UptoNext(n: nat)
    ensures Upto(n + 1) == Upto(n) + multiset{n}
  {
  }

  lemma {:induction false} UptoCount(n: nat, r: nat)
    ensures Upto(n)[r] == if r < n then 1 else 0
  {
    if n > 0 {
      UptoCount(n - 1, r);
    }
  }
}
