/**
 The contract as the frontend sees it through a JSON-RPC provider. A call
 either returns what the registry returns, or throws: a revert surfaces as an
 `Error` whose message embeds the revert reason in whatever text the provider
 library puts around it, and any call the node fails to answer (a transport
 fault) throws whatever value the fault map holds for it.
 */
module Rpc {
  import opened Outcomes
  import opened Text
  import Registry

  /** One read call against the contract. */
  datatype Call =
    | TotalCall
    | IdByIndexCall(index: nat)
    | ProductCall(id: nat)
    | BasicInfoCall(id: nat)
    | IsVerifiedCall(id: nat)

  /** The text a provider library writes before and after a revert reason
      (for instance `execution reverted: "` and `"` plus call data). */
  datatype Wrapping = Wrapping(before: string, after: string)

  /** The deployed contract's state, the calls the node fails on, and how
      its provider words a revert. */
  datatype Chain = Chain(state: Registry.State, faults: map<Call, Thrown>, wrap: Wrapping)

  /** A chain whose node answers every call. */
  predicate Healthy(c: Chain)
  {
    c.faults == map[]
  }

  /** How a revert reaches the caller: an `Error` whose message contains the
      reason, so `message.includes(reason)` holds however it is wrapped. */
  function RevertError(w: Wrapping, e: Registry.Revert): (t: Thrown)
    ensures t.ErrorValue? && Contains(t.message, Registry.Reason(e))
    ensures |t.message| == |w.before| + |Registry.Reason(e)| + |w.after|
  {
    ContainsInfix(w.before, Registry.Reason(e), w.after);
    ErrorValue(w.before + Registry.Reason(e) + w.after)
  }

  function Lift<T>(w: Wrapping, r: Result<T, Registry.Revert>): (t: Result<T, Thrown>)
    ensures t.Ok? <==> r.Ok?
    ensures t.Ok? ==> t.value == r.value
    ensures t.Err? ==> t.error == RevertError(w, r.error)
  {
    match r
    case Ok(v) => Ok(v)
    case Err(e) => Err(RevertError(w, e))
  }

  /** `getTotalProducts()`: the number of stored ids; only a fault throws. */
  function CallTotal(c: Chain): (r: Result<nat, Thrown>)
    ensures TotalCall !in c.faults ==> r == Ok(|c.state.ids|)
    ensures r.Err? <==> TotalCall in c.faults
    ensures r.Err? ==> r.error == c.faults[TotalCall]
  {
    if TotalCall in c.faults then Err(c.faults[TotalCall])
    else Ok(Registry.GetTotalProducts(c.state))
  }

  /** `getProductIdByIndex(i)`: the `i`-th stored id, or the index revert. */
  function CallIdByIndex(c: Chain, i: nat): (r: Result<nat, Thrown>)
    ensures IdByIndexCall(i) !in c.faults ==>
      && (r.Ok? <==> i < |c.state.ids|)
      && (r.Ok? ==> r.value == c.state.ids[i])
      && (r.Err? ==> r.error == RevertError(c.wrap, Registry.IndexOutOfBounds)
                     && Contains(r.error.message, "Index out of bounds"))
    ensures IdByIndexCall(i) in c.faults ==> r == Err(c.faults[IdByIndexCall(i)])
  {
    if IdByIndexCall(i) in c.faults then Err(c.faults[IdByIndexCall(i)])
    else Lift(c.wrap, Registry.GetProductIdByIndex(c.state, i))
  }

  /** `getProduct(id)`: the stored record, or the missing-product revert. */
  function CallProduct(c: Chain, id: nat): (r: Result<Registry.Product, Thrown>)
    ensures ProductCall(id) !in c.faults ==>
      && (r.Ok? <==> id in c.state.products)
      && (r.Ok? ==> r.value == c.state.products[id])
      && (r.Err? ==> r.error == RevertError(c.wrap, Registry.DoesNotExist)
                     && Contains(r.error.message, "Product does not exist"))
    ensures ProductCall(id) in c.faults ==> r == Err(c.faults[ProductCall(id)])
  {
    if ProductCall(id) in c.faults then Err(c.faults[ProductCall(id)])
    else Lift(c.wrap, Registry.GetProduct(c.state, id))
  }

  /** `getProductBasicInfo(id)`: the six-field projection of the stored
      record, or the missing-product revert. */
  function CallBasicInfo(c: Chain, id: nat): (r: Result<Registry.BasicInfo, Thrown>)
    ensures BasicInfoCall(id) !in c.faults ==>
      && (r.Ok? <==> id in c.state.products)
      && (r.Ok? ==> r.value == Registry.Basic(c.state.products[id]))
      && (r.Err? ==> r.error == RevertError(c.wrap, Registry.DoesNotExist)
                     && Contains(r.error.message, "Product does not exist"))
    ensures BasicInfoCall(id) in c.faults ==> r == Err(c.faults[BasicInfoCall(id)])
  {
    if BasicInfoCall(id) in c.faults then Err(c.faults[BasicInfoCall(id)])
    else Lift(c.wrap, Registry.GetProductBasicInfo(c.state, id))
  }

  /** `isProductVerified(id)`: the stored flag, or the missing-product revert. */
  function CallIsVerified(c: Chain, id: nat): (r: Result<bool, Thrown>)
    ensures IsVerifiedCall(id) !in c.faults ==>
      && (r.Ok? <==> id in c.state.products)
      && (r.Ok? ==> r.value == c.state.products[id].isVerified)
      && (r.Err? ==> r.error == RevertError(c.wrap, Registry.DoesNotExist)
                     && Contains(r.error.message, "Product does not exist"))
    ensures IsVerifiedCall(id) in c.faults ==> r == Err(c.faults[IsVerifiedCall(id)])
  {
    if IsVerifiedCall(id) in c.faults then Err(c.faults[IsVerifiedCall(id)])
    else Lift(c.wrap, Registry.IsProductVerified(c.state, id))
  }

  /** The value `call` throws on `c`, if it throws. */
  function Throws(c: Chain, call: Call): (r: Option<Thrown>)
    ensures call in c.faults ==> r == Some(c.faults[call])
    ensures call !in c.faults && r.Some? ==> exists e :: r.value == RevertError(c.wrap, e)
    ensures call == TotalCall && call !in c.faults ==> r.None?
  {
    match call
    case TotalCall => if CallTotal(c).Err? then Some(CallTotal(c).error) else None
    case IdByIndexCall(i) => if CallIdByIndex(c, i).Err? then Some(CallIdByIndex(c, i).error) else None
    case ProductCall(id) => if CallProduct(c, id).Err? then Some(CallProduct(c, id).error) else None
    case BasicInfoCall(id) => if CallBasicInfo(c, id).Err? then Some(CallBasicInfo(c, id).error) else None
    case IsVerifiedCall(id) => if CallIsVerified(c, id).Err? then Some(CallIsVerified(c, id).error) else None
  }

  /** The records of a registry in index order, skipping ids with no record
      (there are none in a valid registry). */
  function RecordsOf(s: Registry.State, ids: seq<nat>): (r: seq<Registry.Product>)
    ensures |r| <= |ids|
    ensures (forall i :: 0 <= i < |ids| ==> ids[i] in s.products) ==> |r| == |ids|
    ensures (forall i :: 0 <= i < |ids| ==> ids[i] in s.products) ==>
      forall i :: 0 <= i < |ids| ==> r[i] == s.products[ids[i]]
    decreases |ids|
  {
    if ids == [] then []
    else
      var rest := RecordsOf(s, ids[1..]);
      if ids[0] in s.products then [s.products[ids[0]]] + rest else rest
  }

  /** The records still waiting for verification, in index order. */
  function PendingOf(s: Registry.State, ids: seq<nat>): (r: seq<Registry.Product>)
    ensures |r| <= |ids|
    ensures forall p :: p in r ==> !p.isVerified && p in s.products.Values
    decreases |ids|
  {
    if ids == [] then []
    else
      var rest := PendingOf(s, ids[1..]);
      if ids[0] in s.products && !s.products[ids[0]].isVerified then [s.products[ids[0]]] + rest else rest
  }

  lemma {:induction false} PendingOfSnoc(s: Registry.State, ids: seq<nat>, id: nat)
    ensures PendingOf(s, ids + [id]) ==
      PendingOf(s, ids) + (if id in s.products && !s.products[id].isVerified then [s.products[id]] else [])
    decreases |ids|
  {
    if ids == [] {
      assert ids + [id] == [id];
    } else {
      assert (ids + [id])[1..] == ids[1..] + [id];
      PendingOfSnoc(s, ids[1..], id);
    }
  }

  /** In a valid registry the pending list holds every unverified record, and
      only those. */
  lemma {:induction false} PendingOfComplete(s: Registry.State, ids: seq<nat>, p: Registry.Product)
    requires forall i :: 0 <= i < |ids| ==> ids[i] in s.products
    ensures p in PendingOf(s, ids) <==> !p.isVerified && exists i :: 0 <= i < |ids| && s.products[ids[i]] == p
    decreases |ids|
  {
    if ids != [] {
      PendingOfComplete(s, ids[1..], p);
      if !p.isVerified && s.products[ids[0]] != p && (exists i :: 0 <= i < |ids| && s.products[ids[i]] == p) {
        var i :| 0 <= i < |ids| && s.products[ids[i]] == p;
        assert ids[1..][i - 1] == ids[i];
      }
      if (exists i :: 0 <= i < |ids[1..]| && s.products[ids[1..][i]] == p) {
        var i :| 0 <= i < |ids[1..]| && s.products[ids[1..][i]] == p;
        assert ids[i + 1] == ids[1..][i];
      }
    }
  }
}
