/** Failure-carrying datatypes and the first-match scan that both alert evaluators share. */
module Common {

  datatype Option<+T> = None | Some(value: T)

  datatype Result<+T, +E> = Ok(value: T) | Err(error: E)

  /** The index of the first element of `s`, at or after position `k`, that satisfies `p`. */
  function FirstIndexFrom<T>(s: seq<T>, p: T -> bool, k: nat): (r: Option<nat>)
    requires k <= |s|
    ensures r.Some? ==> k <= r.value < |s| && p(s[r.value])
    ensures r.Some? ==> forall j :: k <= j < r.value ==> !p(s[j])
    ensures r.None? ==> forall j :: k <= j < |s| ==> !p(s[j])
    decreases |s| - k
  {
    if k == |s| then None
    else if p(s[k]) then Some(k)
    else FirstIndexFrom(s, p, k + 1)
  }

  /** The index of the first element of `s` that satisfies `p`, scanning in sequence order. */
  function FirstIndex<T>(s: seq<T>, p: T -> bool): (r: Option<nat>)
    ensures r.Some? ==> r.value < |s| && p(s[r.value]) && forall j :: 0 <= j < r.value ==> !p(s[j])
    ensures r.None? ==> forall j :: 0 <= j < |s| ==> !p(s[j])
  {
    FirstIndexFrom(s, p, 0)
  }

  /** Two sequences on which `p` and `q` agree position by position have the same first match. */
  lemma {:induction false} FirstIndexFromAgrees<T, U>(s: seq<T>, p: T -> bool, t: seq<U>, q: U -> bool, k: nat)
    requires k <= |s| == |t|
    requires forall i :: k <= i < |s| ==> p(s[i]) == q(t[i])
    ensures FirstIndexFrom(s, p, k) == FirstIndexFrom(t, q, k)
    decreases |s| - k
  {
    if k < |s| && !p(s[k]) {
      FirstIndexFromAgrees(s, p, t, q, k + 1);
    }
  }
}
