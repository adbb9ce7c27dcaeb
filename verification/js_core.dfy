/** The few JavaScript value-level behaviours the bot's logic depends on:
    optional values, thrown-or-returned results, truthiness of strings and ids,
    `Array.prototype.slice` with a negative start, and the
    `arr[Math.floor(Math.random() * arr.length)]` idiom used to pick at random. */
module JsCore {

  /** `undefined` or a value. */
  datatype Option<+T> = None | Some(value: T)

  /** A promise that fulfils with a value or rejects with an error. */
  datatype Result<+T, +E> = Ok(value: T) | Err(error: E)

  /** A string is truthy iff it is defined and not empty. */
  predicate Truthy(s: Option<string>)
  {
    s.Some? && s.value != ""
  }

  /** A numeric id is truthy iff it is defined and not 0. */
  predicate TruthyId(id: Option<int>)
  {
    id.Some? && id.value != 0
  }

  function Min(a: int, b: int): int { if a <= b then a else b }

  function Max(a: int, b: int): int { if a <= b then b else a }

  /** `s.slice(start)`: a negative start counts from the end, clamped to the
      bounds of the array. */
  function JsSliceFrom<T>(s: seq<T>, start: int): (r: seq<T>)
    ensures |r| <= |s| && r == s[|s| - |r|..]
    ensures start >= 0 ==> |r| == Max(|s| - start, 0)
    ensures start < 0 ==> |r| == Min(-start, |s|)
  {
    if start < 0 then s[Max(|s| + start, 0)..] else s[Min(start, |s|)..]
  }

  /** `s.slice(-limit)`, the shape every "recent items" query in the bot uses. */
  function LastUpTo<T>(s: seq<T>, limit: int): (r: seq<T>)
    ensures limit > 0 ==> |r| == Min(limit, |s|) && r == s[|s| - |r|..]
    ensures limit == 0 ==> r == s
    ensures limit < 0 ==> r == s[Min(-limit, |s|)..]
  {
    JsSliceFrom(s, -limit)
  }

  /** What `slice` returns comes from the array it was taken from. */
  lemma LastUpToWithin<T>(s: seq<T>, limit: int)
    ensures forall x :: x in LastUpTo(s, limit) ==> x in s
  {
    var r := LastUpTo(s, limit);
    forall x | x in r ensures x in s {
      var i :| 0 <= i < |r| && r[i] == x;
      assert s[|s| - |r| + i] == x;
    }
  }

  /** `Math.floor(roll * n)` for a `roll` drawn from [0, 1): always an index of
      an array of length n. */
  function RollIndex(roll: real, n: nat): (i: nat)
    requires 0.0 <= roll < 1.0 && n > 0
    ensures i < n
  {
    var k := (roll * (n as real)).Floor;
    assert 0 <= k < n by {
      assert roll * (n as real) < n as real;
    }
    k
  }

  /** `pool[Math.floor(Math.random() * pool.length)]`. */
  function Pick<T>(pool: seq<T>, roll: real): (r: T)
    requires |pool| > 0 && 0.0 <= roll < 1.0
    ensures r in pool
  {
    pool[RollIndex(roll, |pool|)]
  }

  /** Every element of a non-empty pool is picked by some roll. */
  lemma PickReachesEveryElement<T>(pool: seq<T>, i: nat)
    requires i < |pool|
    ensures Pick(pool, (i as real) / (|pool| as real)) == pool[i]
  {
    var n := |pool| as real;
    var roll := (i as real) / n;
    assert roll * n == i as real;
    assert 0.0 <= roll < 1.0;
    assert RollIndex(roll, |pool|) == i by {
      assert ((i as real)).Floor == i;
    }
  }
}
