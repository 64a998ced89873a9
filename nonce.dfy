/**
 * The nonce counter behind `gensym`, as values: one call maps the counter
 * `n` to `n + 1` and returns that new value, so `k` calls in a row from a
 * counter `start` return the ids `Issued(start, k)`.
 */
module Nonce {
  import opened Foreign

  /**
   * One step of the counter: the id one `gensym` call returns when the
   * counter stands at `n`, and the counter's new value. `Issued` is built
   * by repeating it.
   */
  function Next(n: u64): u64
    requires n < U64_MAX
  {
    n + 1
  }

  /**
   * The ids that `k` successive `gensym` calls return, starting from the
   * counter value `start` (`Slf.GensymMany` proves that the calls do).
   */
  function Issued(start: u64, k: nat): (ids: seq<u64>)
    requires start as int + k <= U64_MAX as int
    ensures |ids| == k
    decreases k
  {
    if k == 0 then [] else [Next(start)] + Issued(Next(start), k - 1)
  }

  /** The `i`-th call returns the starting counter plus `i + 1`. */
  lemma {:induction false} IssuedValues(start: u64, k: nat)
    requires start as int + k <= U64_MAX as int
    ensures forall i :: 0 <= i < k ==> Issued(start, k)[i] as int == start as int + i + 1
    decreases k
  {
    if k > 0 {
      IssuedValues(Next(start), k - 1);
    }
  }

  /**
   * Successive calls return strictly increasing ids, all above the counter
   * they started from and none above where the counter ends; in particular
   * no id is returned twice.
   */
  lemma IssuedStrictlyIncreasing(start: u64, k: nat)
    requires start as int + k <= U64_MAX as int
    ensures forall i, j :: 0 <= i < j < k ==> Issued(start, k)[i] < Issued(start, k)[j]
    ensures forall i :: 0 <= i < k ==> start < Issued(start, k)[i] && Issued(start, k)[i] as int <= start as int + k
    ensures forall i, j :: 0 <= i < k && 0 <= j < k && Issued(start, k)[i] == Issued(start, k)[j] ==> i == j
  {
    IssuedValues(start, k);
  }

  /** After `j` calls the counter stands at `start + j`, and the next `k` calls continue from there. */
  lemma {:induction false} IssuedSplit(start: u64, j: nat, k: nat)
    requires start as int + j + k <= U64_MAX as int
    ensures Issued(start, j + k) == Issued(start, j) + Issued(start + j as u64, k)
    decreases j
  {
    if j > 0 {
      IssuedSplit(Next(start), j - 1, k);
      assert Next(start) + (j - 1) as u64 == start + j as u64;
    }
  }

  /** Ids issued before the counter reached `start + j` never reappear among those issued after. */
  lemma IssuedDisjoint(start: u64, j: nat, k: nat)
    requires start as int + j + k <= U64_MAX as int
    ensures forall x :: x in Issued(start, j) ==> x !in Issued(start + j as u64, k)
  {
    IssuedValues(start, j);
    IssuedValues(start + j as u64, k);
  }
}
