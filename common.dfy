/** Small building blocks shared by the chart, the quiz session and the pages:
    optional values, API outcomes, number formatting as JavaScript's template
    literals do it, and the "last value written for a key" semantics of a
    JavaScript `Map` or object literal filled in a loop. */
module Common {

  datatype Option<+T> = None | Some(value: T) {
    /** `x ?? d`, and `x || d` for values whose falsy forms coincide with `d`. */
    function GetOr(default: T): T {
      match this
      case Some(v) => v
      case None => default
    }
  }

  /** A rejected API call; `message` is the server's `response.data.message`, when present. */
  datatype ApiError = ApiError(message: Option<string>)

  /** The outcome of an awaited call to the backend, supplied by the caller. */
  datatype ApiResult<+T> = Ok(value: T) | Failed(error: ApiError)

  function Min(a: int, b: int): int { if a <= b then a else b }

  function Max(a: int, b: int): int { if a >= b then a else b }

  function RealMax(a: real, b: real): real { if a >= b then a else b }

  // ---------------------------------------------------------------------------
  // Decimal formatting of integers (`${n}` in a template literal)
  // ---------------------------------------------------------------------------

  function Digit(d: nat): char
    requires d < 10
  {
    "0123456789"[d]
  }

  /** The decimal numeral of `n`, as JavaScript prints a non-negative integer. */
  function NatToString(n: nat): (s: string)
    ensures |s| > 0
    ensures forall i :: 0 <= i < |s| ==> '0' <= s[i] <= '9'
    ensures |s| > 1 ==> s[0] != '0'
  {
    if n < 10 then [Digit(n)] else NatToString(n / 10) + [Digit(n % 10)]
  }

  function IntToString(n: int): string
  {
    if n < 0 then "-" + NatToString(-n) else NatToString(n)
  }

  /** Reads a string of decimal digits back as a number. */
  function DigitsValue(s: string): nat
    requires forall i :: 0 <= i < |s| ==> '0' <= s[i] <= '9'
  {
    if |s| == 0 then 0 else DigitsValue(s[..|s| - 1]) * 10 + (s[|s| - 1] - '0') as nat
  }

  /** Printing a number and reading it back gives the number: the numeral is exact. */
  lemma {:induction false} DigitsRoundTrip(n: nat)
    ensures DigitsValue(NatToString(n)) == n
  {
    if n >= 10 {
      DigitsRoundTrip(n / 10);
      DigitsSnoc(NatToString(n / 10), n % 10);
    }
  }

  /** One more digit multiplies the value by ten and adds the digit. */
  lemma DigitsSnoc(s: string, d: nat)
    requires forall i :: 0 <= i < |s| ==> '0' <= s[i] <= '9'
    requires d < 10
    ensures forall i :: 0 <= i < |s| + 1 ==> '0' <= (s + [Digit(d)])[i] <= '9'
    ensures DigitsValue(s + [Digit(d)]) == DigitsValue(s) * 10 + d
  {
    DigitOf(d);
    assert (s + [Digit(d)])[..|s|] == s;
  }

  lemma DigitOf(d: nat)
    requires d < 10
    ensures '0' <= Digit(d) <= '9' && (Digit(d) - '0') as nat == d
  {
  }

  // ---------------------------------------------------------------------------
  // Last binding of a key in a list of (key, value) pairs
  // ---------------------------------------------------------------------------

  /** The value a JavaScript `Map` (or object) holds for `k` after `set(key, value)`
      was called for every pair of `ps` in order: the last pair with key `k` wins. */
  function LastBinding<K(==), V>(ps: seq<(K, V)>, k: K): (r: Option<V>)
    ensures r.None? <==> forall i :: 0 <= i < |ps| ==> ps[i].0 != k
    ensures r.Some? ==> exists i :: 0 <= i < |ps| && ps[i] == (k, r.value)
                                    && forall j :: i < j < |ps| ==> ps[j].0 != k
  {
    if |ps| == 0 then None
    else if ps[|ps| - 1].0 == k then Some(ps[|ps| - 1].1)
    else LastBinding(ps[..|ps| - 1], k)
  }

  /** A pair whose key differs from `k` has no effect on the binding of `k`. */
  lemma {:induction false} LastBindingSkips<K, V>(ps: seq<(K, V)>, x: (K, V), qs: seq<(K, V)>, k: K)
    requires x.0 != k
    ensures LastBinding(ps + [x] + qs, k) == LastBinding(ps + qs, k)
  {
    if |qs| == 0 {
      LastBindingSkipsLast(ps, x, k);
    } else {
      LastBindingSkips(ps, x, qs[..|qs| - 1], k);
      LastBindingSkipsStep(ps, x, qs, k);
    }
  }

  lemma LastBindingSkipsLast<K, V>(ps: seq<(K, V)>, x: (K, V), k: K)
    requires x.0 != k
    ensures LastBinding(ps + [x] + [], k) == LastBinding(ps + [], k)
  {
    assert ps + [x] + [] == ps + [x];
    assert (ps + [x])[..|ps|] == ps;
    assert ps + [] == ps;
  }

  /** The step of `LastBindingSkips` for the last pair of `qs`. */
  lemma {:induction false} LastBindingSkipsStep<K, V>(ps: seq<(K, V)>, x: (K, V), qs: seq<(K, V)>, k: K)
    requires |qs| > 0
    requires LastBinding(ps + [x] + qs[..|qs| - 1], k) == LastBinding(ps + qs[..|qs| - 1], k)
    ensures LastBinding(ps + [x] + qs, k) == LastBinding(ps + qs, k)
  {
    assert (ps + [x] + qs)[..|ps + [x] + qs| - 1] == ps + [x] + qs[..|qs| - 1];
    assert (ps + qs)[..|ps + qs| - 1] == ps + qs[..|qs| - 1];
  }

  /** A prefix one longer is the prefix and the next element. */
  lemma PrefixSnoc<T>(s: seq<T>, n: nat)
    requires n < |s|
    ensures s[..n + 1] == s[..n] + [s[n]]
  {
  }

  /** `ps.forEach(([k, v]) => m.set(k, v))` starting from an empty map. */
  method FillMap<K(==), V>(ps: seq<(K, V)>) returns (m: map<K, V>)
    ensures forall k :: k in m <==> LastBinding(ps, k).Some?
    ensures forall k :: k in m ==> m[k] == LastBinding(ps, k).value
  {
    m := map[];
    for i := 0 to |ps|
      invariant forall k :: k in m <==> LastBinding(ps[..i], k).Some?
      invariant forall k :: k in m ==> m[k] == LastBinding(ps[..i], k).value
    {
      assert ps[..i + 1][..i] == ps[..i];
      m := m[ps[i].0 := ps[i].1];
    }
    assert ps[..|ps|] == ps;
  }
}
