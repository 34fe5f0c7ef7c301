/** The two correlation registries of the coordinator, as values: the
    catalog-query registry matched by request identity and the pending-payment
    registry matched by product identifier. Both are ordered lists searched
    front to back; a lookup removes the first match and keeps the rest in order. */
module Registries {
  import opened IAPTypes

  /** Result of a lookup-and-remove: the entry found (if any) and what remains. */
  datatype Popped<T> = Popped(entry: Option<T>, rest: seq<T>)

  /** `s` without its element at `k`, the others in their order. */
  function RemoveAt<T>(s: seq<T>, k: nat): (r: seq<T>)
    requires k < |s|
    ensures |r| == |s| - 1
    ensures forall j :: 0 <= j < k ==> r[j] == s[j]
    ensures forall j :: k <= j < |r| ==> r[j] == s[j + 1]
    ensures multiset(r) + multiset{s[k]} == multiset(s)
  {
    assert s == s[..k] + [s[k]] + s[k + 1..];
    s[..k] + s[k + 1..]
  }

  // ---------------------------------------------------------------------------
  // Pending payments, matched by product identifier

  /** Index of the earliest-registered payment for `productIdentifier`, or `|ps|` when none. */
  function PaymentIndex(ps: seq<Payment>, productIdentifier: string): (k: nat)
    ensures k <= |ps|
    ensures k < |ps| ==> ps[k].productIdentifier == productIdentifier
    ensures forall j :: 0 <= j < k ==> ps[j].productIdentifier != productIdentifier
    decreases |ps|
  {
    if ps == [] then 0
    else if ps[0].productIdentifier == productIdentifier then 0
    else 1 + PaymentIndex(ps[1..], productIdentifier)
  }

  /** Removes and returns the earliest-registered payment for `productIdentifier`. */
  function PopPayment(ps: seq<Payment>, productIdentifier: string): (p: Popped<Payment>)
    ensures p.entry.None? <==> forall j :: 0 <= j < |ps| ==> ps[j].productIdentifier != productIdentifier
    ensures p.entry.None? ==> p.rest == ps
    ensures p.entry.Some? ==> p.entry.value.productIdentifier == productIdentifier
    ensures p.entry.Some? ==> |p.rest| == |ps| - 1 && multiset(p.rest) + multiset{p.entry.value} == multiset(ps)
  {
    var k := PaymentIndex(ps, productIdentifier);
    if k < |ps| then Popped(Some(ps[k]), RemoveAt(ps, k)) else Popped(None, ps)
  }

  /** First-in, first-out among equal keys: when entries `i < j` both match,
      the pop takes an entry no later than `i` and keeps entry `j`, shifted one
      place forward. */
  lemma PopPaymentIsFifo(ps: seq<Payment>, productIdentifier: string, i: nat, j: nat)
    requires i < j < |ps|
    requires ps[i].productIdentifier == productIdentifier && ps[j].productIdentifier == productIdentifier
    ensures PaymentIndex(ps, productIdentifier) <= i
    ensures PopPayment(ps, productIdentifier).entry.Some?
    ensures PopPayment(ps, productIdentifier).rest[j - 1] == ps[j]
  {
  }

  /** Popping keeps every other entry, in registration order: the rest is the
      list with exactly one element, the earliest match, taken out. */
  lemma PopPaymentKeepsOrder(ps: seq<Payment>, productIdentifier: string)
    requires PopPayment(ps, productIdentifier).entry.Some?
    ensures var k := PaymentIndex(ps, productIdentifier);
            k < |ps| && PopPayment(ps, productIdentifier).rest == ps[..k] + ps[k + 1..]
  {
  }

  // ---------------------------------------------------------------------------
  // Catalog queries, matched by request identity

  /** Index of the first product request with handle `r`, or `|rs|` when none. */
  function RequestIndex(rs: seq<ProductRequest>, r: RequestHandle): (k: nat)
    ensures k <= |rs|
    ensures k < |rs| ==> rs[k].request == r
    ensures forall j :: 0 <= j < k ==> rs[j].request != r
    decreases |rs|
  {
    if rs == [] then 0
    else if rs[0].request == r then 0
    else 1 + RequestIndex(rs[1..], r)
  }

  /** Removes and returns the product request with handle `r`. */
  function PopRequest(rs: seq<ProductRequest>, r: RequestHandle): (p: Popped<ProductRequest>)
    ensures p.entry.None? <==> forall j :: 0 <= j < |rs| ==> rs[j].request != r
    ensures p.entry.None? ==> p.rest == rs
    ensures p.entry.Some? ==> p.entry.value.request == r
    ensures p.entry.Some? ==> |p.rest| == |rs| - 1 && multiset(p.rest) + multiset{p.entry.value} == multiset(rs)
    ensures forall j :: 0 <= j < |p.rest| ==> p.rest[j] in rs
  {
    var k := RequestIndex(rs, r);
    if k < |rs| then Popped(Some(rs[k]), RemoveAt(rs, k)) else Popped(None, rs)
  }

  /** Answering a query keeps the other queries in registration order: the rest
      is the registry with exactly the entry for `r` taken out. */
  lemma PopRequestKeepsOrder(rs: seq<ProductRequest>, r: RequestHandle)
    requires PopRequest(rs, r).entry.Some?
    ensures var k := RequestIndex(rs, r);
            k < |rs| && PopRequest(rs, r).rest == rs[..k] + rs[k + 1..]
  {
  }

  /** No two outstanding product requests share a handle. */
  predicate DistinctHandles(rs: seq<ProductRequest>)
  {
    forall i, j :: 0 <= i < j < |rs| ==> rs[i].request != rs[j].request
  }

  /** With distinct handles, a response pops the one entry for its request, and
      afterwards no entry for that request remains: a query resolves at most once. */
  lemma PopRequestResolvesOnce(rs: seq<ProductRequest>, r: RequestHandle)
    requires DistinctHandles(rs)
    ensures DistinctHandles(PopRequest(rs, r).rest)
    ensures forall j :: 0 <= j < |PopRequest(rs, r).rest| ==> PopRequest(rs, r).rest[j].request != r
    ensures PopRequest(PopRequest(rs, r).rest, r).entry.None?
  {
    var k := RequestIndex(rs, r);
    var rest := PopRequest(rs, r).rest;
    if k < |rs| {
      forall j | 0 <= j < |rest|
        ensures rest[j].request != r
      {
        if j < k {
          assert rest[j] == rs[j];
        } else {
          assert rest[j] == rs[j + 1];
        }
      }
    }
  }
}
