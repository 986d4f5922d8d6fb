/** `URLSearchParams` as the filter and export builders use it: a mutable,
    ordered list of key/value pairs that only ever grows by `append`. */
module Query {
  import opened Common
  import opened Text

  type Param = (string, string)

  class SearchParams {
    var pairs: seq<Param>

    /** `new URLSearchParams()` */
    constructor ()
      ensures pairs == []
      ensures forall key :: Get(pairs, key).None?
    {
      pairs := [];
    }

    /** `params.append(k, v)` */
    method Append(k: string, v: string)
      modifies this
      ensures pairs == old(pairs) + [(k, v)]
      ensures forall key :: Get(pairs, key) ==
                if Get(old(pairs), key).Some? then Get(old(pairs), key)
                else if k == key then Some(v) else None
    {
      forall key {
        GetAppend(pairs, k, v, key);
      }
      pairs := pairs + [(k, v)];
    }
  }

  /** `params.get(k)`: the value of the first pair whose key is `k`. */
  function Get(ps: seq<Param>, k: string): (r: Option<string>)
    ensures r.None? <==> forall i :: 0 <= i < |ps| ==> ps[i].0 != k
    ensures r.Some? ==> (k, r.value) in ps
  {
    if ps == [] then None
    else if ps[0].0 == k then Some(ps[0].1)
    else Get(ps[1..], k)
  }

  /** Appending a pair changes `get` only for a key that was absent. */
  lemma {:induction false} GetAppend(ps: seq<Param>, k: string, v: string, key: string)
    ensures Get(ps + [(k, v)], key) ==
              if Get(ps, key).Some? then Get(ps, key)
              else if k == key then Some(v) else None
  {
    if ps != [] {
      assert (ps + [(k, v)])[1..] == ps[1..] + [(k, v)];
      GetAppend(ps[1..], k, v, key);
    }
  }

  /** The position of `k` in `order`, or |order| when it is not there. */
  function Rank(k: string, order: seq<string>): (r: nat)
    ensures r <= |order|
    ensures r < |order| <==> k in order
    ensures r < |order| ==> order[r] == k
  {
    if order == [] then 0
    else if order[0] == k then 0
    else 1 + Rank(k, order[1..])
  }

  /** `KeysInOrder`, with every key ranked below `bound`. */
  predicate OrderedBelow(ps: seq<Param>, order: seq<string>, bound: nat) {
    KeysInOrder(ps, order) && forall i :: 0 <= i < |ps| ==> Rank(ps[i].0, order) < bound
  }

  /** `if (present) params.append(k, v)`, where `k` is the key of rank `rank`
      in `order` and every key appended so far ranks below it. */
  method AppendWhen(params: SearchParams, present: bool, k: string, v: string, ghost order: seq<string>, ghost rank: nat)
    requires Rank(k, order) == rank < |order| && OrderedBelow(params.pairs, order, rank)
    modifies params
    ensures params.pairs == old(params.pairs) + if present then [(k, v)] else []
    ensures OrderedBelow(params.pairs, order, rank + 1)
    ensures Get(params.pairs, k) == if present then Some(v) else None
    ensures forall key :: key != k ==> Get(params.pairs, key) == Get(old(params.pairs), key)
  {
    assert Get(params.pairs, k) == None by {
      forall i | 0 <= i < |params.pairs|
        ensures params.pairs[i].0 != k
      {
        assert Rank(params.pairs[i].0, order) < rank;
      }
    }
    if present {
      params.Append(k, v);
    }
  }

  /** Every key is one of `order`, and the keys come in that order, each once. */
  predicate KeysInOrder(ps: seq<Param>, order: seq<string>) {
    && (forall i :: 0 <= i < |ps| ==> ps[i].0 in order)
    && (forall i, j :: 0 <= i < j < |ps| ==> Rank(ps[i].0, order) < Rank(ps[j].0, order))
  }

  /** `if (n) params.append(k, n.toString())`: a number is sent only when
      truthy, that is neither 0 nor NaN. */
  function AmountParam(n: Option<JsNumber>): (r: Option<string>)
    ensures r.Some? <==> n.Some? && ((n.value.Finite? && n.value.value != 0) || n.value.Fraction?)
    ensures r.Some? && n.value.Finite? ==> r.value == IntToString(n.value.value)
    ensures r.Some? && n.value.Fraction? ==> r.value == n.value.text
  {
    if n.Some? && n.value.IsTruthy() then
      Some(if n.value.Finite? then IntToString(n.value.value) else n.value.text)
    else None
  }

  /** `if (s) params.append(k, s)`: a string is sent only when truthy. */
  function TextParam(s: Option<string>): (r: Option<string>)
    ensures r.Some? <==> Truthy(s)
    ensures r.Some? ==> r == s
  {
    if Truthy(s) then s else None
  }
}
