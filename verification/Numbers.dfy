/** Unsigned 32-bit counters, and how many numbers there are in a range. */
module Numbers {

  const WRAP := 0x1_0000_0000

  function Inc(n: nat): (r: nat) { if n + 1 == WRAP then 0 else n + 1 }

  function Dec(n: nat): (r: nat) { if n == 0 then WRAP - 1 else n - 1 }

  lemma {:induction false} FewerThan(s: set<nat>, lo: nat, hi: nat)
    requires forall p :: p in s ==> lo <= p < hi
    ensures |s| <= if lo <= hi then hi - lo else 0
  {
    if lo >= hi {
      assert s == {};
    } else {
      FewerThan(s - {hi - 1}, lo, hi - 1);
      assert |s| <= |s - {hi - 1}| + 1;
    }
  }
}
