/**
 The `useContract` hook: read helpers over the contract that keep a loading
 flag and a last-error message. Every reader returns a neutral value
 (`null`, `0`, `false` or `[]`) instead of throwing; without a contract
 instance it records "Contract belum terhubung" and makes no call at all.
 A reader's outcome carries the value returned, the hook state afterwards,
 and the calls made, in order.
 */
module ContractClient {
  import opened Outcomes
  import Registry
  import opened Rpc
  import opened Seqs

  const NotConnected := "Contract belum terhubung"

  const ProductFallback := "Gagal mengambil data produk"
  const BasicInfoFallback := "Gagal mengambil informasi dasar produk"
  const TotalFallback := "Gagal mengambil jumlah total produk"
  const IdsFallback := "Gagal mengambil daftar ID produk"
  // "Gagal mengambil semua produk" and "Gagal mengambil informasi dasar semua
  // produk" belong to catch blocks no model path reaches: the readers those
  // two functions call catch every error themselves.
  const VerifiedFallback := "Gagal memeriksa status verifikasi produk"

  /** The hook's `isLoading` and `error` state. */
  datatype Hook = Hook(isLoading: bool, error: Option<string>)

  /** What one reader produces. */
  datatype Read<T> = Read(value: T, hook: Hook, calls: seq<Call>)

  /** The hook's state after a reader finished with `error` (its `finally`
      always clears the loading flag). */
  function Done(error: Option<string>): Hook
  {
    Hook(false, error)
  }

  /** The contract instance is (re)created when a provider and a contract
      address are both present; otherwise the previous instance is kept. */
  function Attach(current: Option<Chain>, provider: Option<Chain>, address: string): (r: Option<Chain>)
    ensures provider.Some? && address != "" ==> r == provider
    ensures provider.None? || address == "" ==> r == current
  {
    if provider.Some? && address != "" then provider else current
  }

  /** `getProduct`: the record, copied field by field, or `null`. */
  function GetProduct(h: Hook, contract: Option<Chain>, id: nat): (r: Read<Option<Registry.Product>>)
    ensures contract.None? ==> r == Read(None, h.(error := Some(NotConnected)), [])
    ensures contract.Some? ==> r.calls == [ProductCall(id)] && !r.hook.isLoading
    ensures contract.Some? ==>
      match CallProduct(contract.value, id)
      case Ok(p) => r.value == Some(p) && r.hook.error == None
      case Err(t) => r.value == None && r.hook.error == Some(MessageOr(t, ProductFallback))
  {
    match contract
    case None => Read(None, h.(error := Some(NotConnected)), [])
    case Some(c) =>
      match CallProduct(c, id)
      case Ok(p) => Read(Some(p), Done(None), [ProductCall(id)])
      case Err(t) => Read(None, Done(Some(MessageOr(t, ProductFallback))), [ProductCall(id)])
  }

  /** `getProductBasicInfo`: the six-field projection, or `null`. */
  function GetProductBasicInfo(h: Hook, contract: Option<Chain>, id: nat): (r: Read<Option<Registry.BasicInfo>>)
    ensures contract.None? ==> r == Read(None, h.(error := Some(NotConnected)), [])
    ensures contract.Some? ==> r.calls == [BasicInfoCall(id)] && !r.hook.isLoading
    ensures contract.Some? ==>
      match CallBasicInfo(contract.value, id)
      case Ok(b) => r.value == Some(b) && r.hook.error == None
      case Err(t) => r.value == None && r.hook.error == Some(MessageOr(t, BasicInfoFallback))
  {
    match contract
    case None => Read(None, h.(error := Some(NotConnected)), [])
    case Some(c) =>
      match CallBasicInfo(c, id)
      case Ok(b) => Read(Some(b), Done(None), [BasicInfoCall(id)])
      case Err(t) => Read(None, Done(Some(MessageOr(t, BasicInfoFallback))), [BasicInfoCall(id)])
  }

  /** `getTotalProducts`: the total, or 0. */
  function GetTotalProducts(h: Hook, contract: Option<Chain>): (r: Read<nat>)
    ensures contract.None? ==> r == Read(0, h.(error := Some(NotConnected)), [])
    ensures contract.Some? ==> r.calls == [TotalCall] && !r.hook.isLoading
    ensures contract.Some? && TotalCall !in contract.value.faults ==>
      r.value == |contract.value.state.ids| && r.hook.error == None
    ensures contract.Some? && TotalCall in contract.value.faults ==>
      r.value == 0 && r.hook.error == Some(MessageOr(contract.value.faults[TotalCall], TotalFallback))
  {
    match contract
    case None => Read(0, h.(error := Some(NotConnected)), [])
    case Some(c) =>
      match CallTotal(c)
      case Ok(n) => Read(n, Done(None), [TotalCall])
      case Err(t) => Read(0, Done(Some(MessageOr(t, TotalFallback))), [TotalCall])
  }

  /** `isProductVerified`: the flag, or `false`. */
  function IsProductVerified(h: Hook, contract: Option<Chain>, id: nat): (r: Read<bool>)
    ensures contract.None? ==> r == Read(false, h.(error := Some(NotConnected)), [])
    ensures contract.Some? ==> r.calls == [IsVerifiedCall(id)] && !r.hook.isLoading
    ensures contract.Some? ==>
      match CallIsVerified(contract.value, id)
      case Ok(v) => r.value == v && r.hook.error == None
      case Err(t) => !r.value && r.hook.error == Some(MessageOr(t, VerifiedFallback))
  {
    match contract
    case None => Read(false, h.(error := Some(NotConnected)), [])
    case Some(c) =>
      match CallIsVerified(c, id)
      case Ok(v) => Read(v, Done(None), [IsVerifiedCall(id)])
      case Err(t) => Read(false, Done(Some(MessageOr(t, VerifiedFallback))), [IsVerifiedCall(id)])
  }

  /** The index calls `0 .. n-1` of an enumeration. */
  function IndexCalls(n: nat): (r: seq<Call>)
    ensures |r| == n
    ensures forall i :: 0 <= i < n ==> r[i] == IdByIndexCall(i)
  {
    seq(n, i requires 0 <= i < n => IdByIndexCall(i))
  }

  /** The calls a complete enumeration of `c` makes. */
  function EnumerationCalls(c: Chain): seq<Call>
  {
    [TotalCall] + IndexCalls(|c.state.ids|)
  }

  /** None of `calls` hits a transport fault. */
  predicate Answered(c: Chain, calls: seq<Call>)
  {
    forall i :: 0 <= i < |calls| ==> calls[i] !in c.faults
  }

  /** The value thrown by the first faulted call of `calls`, if any. */
  function FirstFault(c: Chain, calls: seq<Call>): (r: Option<Thrown>)
    ensures r.None? <==> Answered(c, calls)
    decreases |calls|
  {
    if calls == [] then None
    else if calls[0] in c.faults then Some(c.faults[calls[0]])
    else FirstFault(c, calls[1..])
  }

  /** The first faulted call is the one every earlier call was answered before. */
  lemma {:induction false} FirstFaultAt(c: Chain, calls: seq<Call>, k: nat)
    requires k < |calls| && calls[k] in c.faults && Answered(c, calls[..k])
    ensures FirstFault(c, calls) == Some(c.faults[calls[k]])
    decreases k
  {
    if k > 0 {
      assert calls[0] == calls[..k][0];
      assert calls[1..][..k - 1] == calls[..k][1..];
      FirstFaultAt(c, calls[1..], k - 1);
    }
  }

  /** A `getProduct(id)` call returns a record: it is not faulted and the id
      is stored. */
  predicate ProductServed(c: Chain, id: nat)
  {
    ProductCall(id) !in c.faults && id in c.state.products
  }

  /** A `getProductBasicInfo(id)` call returns a projection. */
  predicate BasicInfoServed(c: Chain, id: nat)
  {
    BasicInfoCall(id) !in c.faults && id in c.state.products
  }

  /** The basic infos of the records of `ids`, in order. */
  function BasicsOf(s: Registry.State, ids: seq<nat>): (r: seq<Registry.BasicInfo>)
    ensures |r| == |RecordsOf(s, ids)|
    ensures forall i :: 0 <= i < |r| ==> r[i] == Registry.Basic(RecordsOf(s, ids)[i])
    decreases |ids|
  {
    if ids == [] then []
    else
      var rest := BasicsOf(s, ids[1..]);
      if ids[0] in s.products then [Registry.Basic(s.products[ids[0]])] + rest else rest
  }

  /** The loop of `getAllProductIds` once a contract is present:
      `getTotalProducts`, then `getProductIdByIndex(i)` for `i = 0 .. total-1`
      in index order. The first call that throws ends the loop and yields
      `[]` with that call's message. */
  method EnumerateIds(c: Chain) returns (r: Read<seq<nat>>)
    ensures !r.hook.isLoading && 0 < |r.calls|
    ensures r.calls <= EnumerationCalls(c)
    ensures r.hook.error.None? <==> Answered(c, EnumerationCalls(c))
    ensures r.hook.error.None? ==> r == Read(c.state.ids, Done(None), EnumerationCalls(c))
    ensures r.hook.error.Some? ==>
      && r.value == []
      && r.calls[|r.calls| - 1] in c.faults
      && r.hook.error == Some(MessageOr(FirstFault(c, EnumerationCalls(c)).value, IdsFallback))
  {
    var calls := [TotalCall];
    assert calls == EnumerationCalls(c)[..1];
    var total := CallTotal(c);
    if total.Err? {
      FirstFaultAt(c, EnumerationCalls(c), 0);
      return Read([], Done(Some(MessageOr(total.error, IdsFallback))), calls);
    }
    var ids: seq<nat> := [];
    var i := 0;
    while i < total.value
      invariant total.value == |c.state.ids|
      invariant 0 <= i <= total.value
      invariant ids == c.state.ids[..i]
      invariant calls == EnumerationCalls(c)[..i + 1]
      invariant Answered(c, calls)
    {
      var next := CallIdByIndex(c, i);
      assert EnumerationCalls(c)[..i + 2] == calls + [IdByIndexCall(i)];
      calls := calls + [IdByIndexCall(i)];
      if next.Err? {
        FirstFaultAt(c, EnumerationCalls(c), i + 1);
        return Read([], Done(Some(MessageOr(next.error, IdsFallback))), calls);
      }
      ids := ids + [next.value];
      i := i + 1;
    }
    assert ids == c.state.ids;
    assert calls == EnumerationCalls(c);
    return Read(ids, Done(None), calls);
  }

  /** `getAllProductIds`: without a contract, the not-connected error and no
      call; otherwise the enumeration. */
  method GetAllProductIds(h: Hook, contract: Option<Chain>) returns (r: Read<seq<nat>>)
    ensures contract.None? ==> r == Read([], h.(error := Some(NotConnected)), [])
    ensures contract.Some? ==> !r.hook.isLoading && 0 < |r.calls|
    ensures contract.Some? ==> r.calls <= EnumerationCalls(contract.value)
    ensures contract.Some? ==>
      (r.hook.error.None? <==> Answered(contract.value, EnumerationCalls(contract.value)))
    ensures contract.Some? && r.hook.error.None? ==>
      r == Read(contract.value.state.ids, Done(None), EnumerationCalls(contract.value))
    ensures contract.Some? && r.hook.error.Some? ==>
      && r.value == []
      && r.calls[|r.calls| - 1] in contract.value.faults
      && r.hook.error == Some(MessageOr(FirstFault(contract.value, EnumerationCalls(contract.value)).value, IdsFallback))
  {
    if contract.None? {
      return Read([], h.(error := Some(NotConnected)), []);
    }
    r := EnumerateIds(contract.value);
  }

  /** The `for (const id of productIds)` loop of `getAllProducts`: each id is
      read with `getProduct`, and the records that came back are kept. */
  function FetchProducts(h: Hook, c: Chain, ids: seq<nat>): (r: Read<seq<Registry.Product>>)
    ensures |r.value| <= |ids| && |r.calls| == |ids|
    decreases |ids|
  {
    if ids == [] then Read([], h, [])
    else
      var first := GetProduct(h, Some(c), ids[0]);
      var rest := FetchProducts(first.hook, c, ids[1..]);
      var kept := if first.value.Some? then [first.value.value] else [];
      Read(kept + rest.value, rest.hook, first.calls + rest.calls)
  }

  /** The loop makes one `getProduct` call per id, in order, and leaves the
      hook as the last read left it. */
  lemma {:induction false} FetchProductsTrace(h: Hook, c: Chain, ids: seq<nat>)
    ensures forall i :: 0 <= i < |ids| ==> FetchProducts(h, c, ids).calls[i] == ProductCall(ids[i])
    ensures ids == [] ==> FetchProducts(h, c, ids).hook == h
    ensures ids != [] ==> FetchProducts(h, c, ids).hook == GetProduct(h, Some(c), ids[|ids| - 1]).hook
    decreases |ids|
  {
    if ids != [] {
      var first := GetProduct(h, Some(c), ids[0]);
      FetchProductsTrace(first.hook, c, ids[1..]);
      if ids[1..] != [] {
        assert ids[1..][|ids[1..]| - 1] == ids[|ids| - 1];
      }
    }
  }

  /** Whatever faults hit the reads, the loop keeps, in id-list order, a
      selection of the stored records: exactly those whose read was answered. */
  lemma {:induction false} FetchedProducts(h: Hook, c: Chain, ids: seq<nat>)
    ensures IsSubsequence(FetchProducts(h, c, ids).value, RecordsOf(c.state, ids))
    ensures forall p :: p in FetchProducts(h, c, ids).value <==>
      exists id :: id in ids && ProductServed(c, id) && c.state.products[id] == p
    decreases |ids|
  {
    if ids != [] {
      var x := ids[0];
      var first := GetProduct(h, Some(c), x);
      var rest := FetchProducts(first.hook, c, ids[1..]);
      var r := FetchProducts(h, c, ids);
      FetchedProducts(first.hook, c, ids[1..]);
      assert first.value.Some? <==> ProductServed(c, x);
      var recs := RecordsOf(c.state, ids[1..]);
      if ProductServed(c, x) {
        assert first.value.value == c.state.products[x];
        assert r.value == [c.state.products[x]] + rest.value;
        SubsequenceCons(c.state.products[x], rest.value, recs);
      } else {
        assert r.value == rest.value;
        if x in c.state.products {
          SubsequenceSkip(c.state.products[x], rest.value, recs);
        }
      }
      forall p
        ensures p in r.value <==> exists id :: id in ids && ProductServed(c, id) && c.state.products[id] == p
      {
        if exists id :: id in ids && ProductServed(c, id) && c.state.products[id] == p {
          var id :| id in ids && ProductServed(c, id) && c.state.products[id] == p;
          if id != x {
            assert id in ids[1..];
          }
        }
      }
    }
  }

  /** With no faulted read, the loop returns the records of the ids, in order. */
  lemma {:induction false} FetchProductsAnswered(h: Hook, c: Chain, ids: seq<nat>)
    requires forall i :: 0 <= i < |ids| ==> ProductCall(ids[i]) !in c.faults
    ensures FetchProducts(h, c, ids).value == RecordsOf(c.state, ids)
    decreases |ids|
  {
    if ids != [] {
      var first := GetProduct(h, Some(c), ids[0]);
      FetchProductsAnswered(first.hook, c, ids[1..]);
    }
  }

  /** `getAllProducts`: the records in id-list order. A read that fails is
      skipped, and the hook's error afterwards is that of the last read made. */
  method GetAllProducts(h: Hook, contract: Option<Chain>) returns (r: Read<seq<Registry.Product>>)
    ensures contract.None? ==> r == Read([], h.(error := Some(NotConnected)), [])
    ensures contract.Some? ==> !r.hook.isLoading
    ensures contract.Some? ==> forall p :: p in r.value ==> p in contract.value.state.products.Values
    ensures contract.Some? && !Answered(contract.value, EnumerationCalls(contract.value)) ==>
      && r.value == []
      && r.hook.error == Some(MessageOr(FirstFault(contract.value, EnumerationCalls(contract.value)).value, IdsFallback))
    ensures contract.Some? && Answered(contract.value, EnumerationCalls(contract.value)) ==>
      var c := contract.value;
      && IsSubsequence(r.value, RecordsOf(c.state, c.state.ids))
      && (forall p :: p in r.value <==> exists id :: id in c.state.ids && ProductServed(c, id) && c.state.products[id] == p)
      && (c.state.ids != [] ==> r.hook.error == GetProduct(Done(None), Some(c), c.state.ids[|c.state.ids| - 1]).hook.error)
      && (c.state.ids == [] ==> r.hook.error.None?)
    ensures contract.Some? && Healthy(contract.value) && Registry.Valid(contract.value.state) ==>
      && r.value == RecordsOf(contract.value.state, contract.value.state.ids)
      && |r.value| == Registry.GetTotalProducts(contract.value.state)
      && r.hook.error == None
  {
    if contract.None? {
      return Read([], h.(error := Some(NotConnected)), []);
    }
    var c := contract.value;
    var ids := EnumerateIds(c);
    var fetched := FetchProducts(ids.hook, c, ids.value);
    if ids.hook.error.Some? {
      assert fetched == Read([], ids.hook, []);
    } else {
      var all := c.state.ids;
      assert ids.value == all;
      FetchProductsTrace(ids.hook, c, all);
      FetchedProducts(ids.hook, c, all);
      forall p | p in fetched.value
        ensures p in c.state.products.Values
      {
        var id :| id in all && ProductServed(c, id) && c.state.products[id] == p;
      }
      if Healthy(c) && Registry.Valid(c.state) {
        FetchProductsAnswered(ids.hook, c, all);
        if all != [] {
          assert all[|all| - 1] in c.state.products;
        }
      }
    }
    r := Read(fetched.value, fetched.hook.(isLoading := false), ids.calls + fetched.calls);
  }

  /** The loop of `getAllProductsBasicInfo`, over `getProductBasicInfo`. */
  function FetchBasicInfos(h: Hook, c: Chain, ids: seq<nat>): (r: Read<seq<Registry.BasicInfo>>)
    ensures |r.value| <= |ids| && |r.calls| == |ids|
    decreases |ids|
  {
    if ids == [] then Read([], h, [])
    else
      var first := GetProductBasicInfo(h, Some(c), ids[0]);
      var rest := FetchBasicInfos(first.hook, c, ids[1..]);
      var kept := if first.value.Some? then [first.value.value] else [];
      Read(kept + rest.value, rest.hook, first.calls + rest.calls)
  }

  /** One `getProductBasicInfo` call per id, in order; the hook is left as the
      last read left it. */
  lemma {:induction false} FetchBasicInfosTrace(h: Hook, c: Chain, ids: seq<nat>)
    ensures forall i :: 0 <= i < |ids| ==> FetchBasicInfos(h, c, ids).calls[i] == BasicInfoCall(ids[i])
    ensures ids == [] ==> FetchBasicInfos(h, c, ids).hook == h
    ensures ids != [] ==> FetchBasicInfos(h, c, ids).hook == GetProductBasicInfo(h, Some(c), ids[|ids| - 1]).hook
    decreases |ids|
  {
    if ids != [] {
      var first := GetProductBasicInfo(h, Some(c), ids[0]);
      FetchBasicInfosTrace(first.hook, c, ids[1..]);
      if ids[1..] != [] {
        assert ids[1..][|ids[1..]| - 1] == ids[|ids| - 1];
      }
    }
  }

  /** The basic-info loop under faults: a selection, in id-list order, of the
      projections of the stored records, exactly those whose read was answered. */
  lemma {:induction false} FetchedBasicInfos(h: Hook, c: Chain, ids: seq<nat>)
    ensures IsSubsequence(FetchBasicInfos(h, c, ids).value, BasicsOf(c.state, ids))
    ensures forall b :: b in FetchBasicInfos(h, c, ids).value <==>
      exists id :: id in ids && BasicInfoServed(c, id) && Registry.Basic(c.state.products[id]) == b
    decreases |ids|
  {
    if ids != [] {
      var x := ids[0];
      var first := GetProductBasicInfo(h, Some(c), x);
      var rest := FetchBasicInfos(first.hook, c, ids[1..]);
      var r := FetchBasicInfos(h, c, ids);
      FetchedBasicInfos(first.hook, c, ids[1..]);
      assert first.value.Some? <==> BasicInfoServed(c, x);
      var infos := BasicsOf(c.state, ids[1..]);
      if BasicInfoServed(c, x) {
        assert first.value.value == Registry.Basic(c.state.products[x]);
        assert r.value == [Registry.Basic(c.state.products[x])] + rest.value;
        SubsequenceCons(Registry.Basic(c.state.products[x]), rest.value, infos);
      } else {
        assert r.value == rest.value;
        if x in c.state.products {
          SubsequenceSkip(Registry.Basic(c.state.products[x]), rest.value, infos);
        }
      }
      forall b
        ensures b in r.value <==> exists id :: id in ids && BasicInfoServed(c, id) && Registry.Basic(c.state.products[id]) == b
      {
        if exists id :: id in ids && BasicInfoServed(c, id) && Registry.Basic(c.state.products[id]) == b {
          var id :| id in ids && BasicInfoServed(c, id) && Registry.Basic(c.state.products[id]) == b;
          if id != x {
            assert id in ids[1..];
          }
        }
      }
    }
  }

  /** With no faulted read, the loop returns the projections of the records
      of the ids, in order. */
  lemma {:induction false} FetchBasicInfosAnswered(h: Hook, c: Chain, ids: seq<nat>)
    requires forall i :: 0 <= i < |ids| ==> BasicInfoCall(ids[i]) !in c.faults
    ensures FetchBasicInfos(h, c, ids).value == BasicsOf(c.state, ids)
    decreases |ids|
  {
    if ids != [] {
      var first := GetProductBasicInfo(h, Some(c), ids[0]);
      FetchBasicInfosAnswered(first.hook, c, ids[1..]);
      if ids[0] in c.state.products {
        assert first.value == Some(Registry.Basic(c.state.products[ids[0]]));
      }
    }
  }

  /** `getAllProductsBasicInfo`: the basic infos in id-list order. */
  method GetAllProductsBasicInfo(h: Hook, contract: Option<Chain>) returns (r: Read<seq<Registry.BasicInfo>>)
    ensures contract.None? ==> r == Read([], h.(error := Some(NotConnected)), [])
    ensures contract.Some? ==> !r.hook.isLoading
    ensures contract.Some? && !Answered(contract.value, EnumerationCalls(contract.value)) ==>
      && r.value == []
      && r.hook.error == Some(MessageOr(FirstFault(contract.value, EnumerationCalls(contract.value)).value, IdsFallback))
    ensures contract.Some? && Answered(contract.value, EnumerationCalls(contract.value)) ==>
      var c := contract.value;
      && IsSubsequence(r.value, BasicsOf(c.state, c.state.ids))
      && (forall b :: b in r.value <==>
            exists id :: id in c.state.ids && BasicInfoServed(c, id) && Registry.Basic(c.state.products[id]) == b)
      && (c.state.ids != [] ==>
            r.hook.error == GetProductBasicInfo(Done(None), Some(c), c.state.ids[|c.state.ids| - 1]).hook.error)
      && (c.state.ids == [] ==> r.hook.error.None?)
    ensures contract.Some? && Healthy(contract.value) && Registry.Valid(contract.value.state) ==>
      var s := contract.value.state;
      && |r.value| == |s.ids|
      && (forall i :: 0 <= i < |s.ids| ==> r.value[i] == Registry.Basic(s.products[s.ids[i]]))
      && r.hook.error == None
  {
    if contract.None? {
      return Read([], h.(error := Some(NotConnected)), []);
    }
    var c := contract.value;
    var ids := EnumerateIds(c);
    var fetched := FetchBasicInfos(ids.hook, c, ids.value);
    if ids.hook.error.Some? {
      assert fetched == Read([], ids.hook, []);
    } else {
      var all := c.state.ids;
      assert ids.value == all;
      FetchBasicInfosTrace(ids.hook, c, all);
      FetchedBasicInfos(ids.hook, c, all);
      if Healthy(c) && Registry.Valid(c.state) {
        FetchBasicInfosAnswered(ids.hook, c, all);
        if all != [] {
          assert all[|all| - 1] in c.state.products;
        }
      }
    }
    r := Read(fetched.value, fetched.hook.(isLoading := false), ids.calls + fetched.calls);
  }
}
