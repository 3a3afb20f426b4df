/**
 * The wrap-around index arithmetic both carousels use:
 * `(c + 1) % length` for "next" and `(c - 1 + length) % length` for "previous".
 * For the non-negative operands these expressions see, JavaScript's `%` and
 * Dafny's `%` agree.
 */
module Cyclic {

  /** `(c + 1) % n`. */
  function Next(c: nat, n: nat): (r: nat)
    requires c < n
    ensures r < n
    ensures c + 1 < n ==> r == c + 1
    ensures c + 1 == n ==> r == 0
  {
    (c + 1) % n
  }

  /** `(c - 1 + n) % n`. */
  function Prev(c: nat, n: nat): (r: nat)
    requires c < n
    ensures r < n
    ensures c > 0 ==> r == c - 1
    ensures c == 0 ==> r == n - 1
  {
    (c - 1 + n) % n
  }

  /** "Previous" undoes "next". */
  lemma PrevNext(c: nat, n: nat)
    requires c < n
    ensures Prev(Next(c, n), n) == c
  {
  }

  /** "Next" undoes "previous". */
  lemma NextPrev(c: nat, n: nat)
    requires c < n
    ensures Next(Prev(c, n), n) == c
  {
  }

  /** The index reached from `c` after `k` steps of "next". */
  function Advance(c: nat, k: nat, n: nat): (r: nat)
    requires c < n
    ensures r < n
  {
    if k == 0 then c else Next(Advance(c, k - 1, n), n)
  }

  /** `k` steps of "next" land on `(c + k) % n`. */
  lemma {:induction false} AdvanceIsMod(c: nat, k: nat, n: nat)
    requires c < n
    ensures Advance(c, k, n) == (c + k) % n
  {
    if k > 0 {
      AdvanceIsMod(c, k - 1, n);
      ModSucc(c + k - 1, n);
    }
  }

  lemma ModSucc(x: nat, n: nat)
    requires n > 0
    ensures (x % n + 1) % n == (x + 1) % n
  {
    var q, a := x / n, x % n;
    var m := q * n;
    assert x == m + a;
    if a + 1 < n {
      ModUnique(x + 1, q, a + 1, n);
      ModUnique(a + 1, 0, a + 1, n);
    } else {
      assert x + 1 == (q + 1) * n;
      ModUnique(x + 1, q + 1, 0, n);
    }
  }

  lemma ModUnique(x: nat, q: int, r: nat, n: nat)
    requires r < n
    requires x == q * n + r
    ensures x % n == r
  {
    var q2, r2 := x / n, x % n;
    assert x == q2 * n + r2;
    assert (q - q2) * n == r2 - r;
    if q > q2 {
      MulAtLeast(q - q2, n);
    } else if q < q2 {
      MulAtLeast(q2 - q, n);
    }
  }

  lemma MulAtLeast(a: int, n: nat)
    requires a >= 1
    ensures a * n >= n
  {
  }

  /** A full round of `n` steps comes back to the starting image. */
  lemma FullRound(c: nat, n: nat)
    requires c < n
    ensures Advance(c, n, n) == c
  {
    AdvanceIsMod(c, n, n);
    ModUnique(c + n, 1, c, n);
  }
}
