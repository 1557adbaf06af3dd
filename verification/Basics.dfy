/** Shared vocabulary: optional values, error results and the clock. */
module Basics {
  datatype Option<+T> = None | Some(value: T)

  /** The errors the store and the service hand to their callers. */
  datatype Error =
    | NotFound
    | Conflict
    | Constraint          // a unique or primary-key constraint aborted the transaction
    | Invalid(text: string)

  datatype Result<+T> = Ok(value: T) | Err(error: Error)

  /** Instants in microseconds, the resolution of a Postgres timestamp. */
  type Time = int

  function Seconds(n: int): Time {
    n * 1_000_000
  }

  function Min(a: int, b: int): int {
    if a <= b then a else b
  }

  function Pow2(n: nat): (p: nat)
    ensures p >= 1
  {
    if n == 0 then 1 else 2 * Pow2(n - 1)
  }

  lemma {:induction false} Pow2Monotone(m: nat, n: nat)
    requires m <= n
    ensures Pow2(m) <= Pow2(n)
    decreases n
  {
    if m < n {
      Pow2Monotone(m, n - 1);
    }
  }

  // ---- Counters and sets ----------------------------------------------------------

  function Count(counts: map<string, nat>, id: string): nat {
    if id in counts then counts[id] else 0
  }

  function Bump(counts: map<string, nat>, id: string): map<string, nat> {
    counts[id := Count(counts, id) + 1]
  }

  lemma SubsetCardinality<T>(a: set<T>, b: set<T>)
    requires a <= b
    ensures |a| <= |b|
    ensures |a| == |b| ==> a == b
  {
    assert b == a + (b - a);
  }
}
