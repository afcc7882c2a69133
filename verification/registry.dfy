/**
 The on-chain product registry (the `BatikAuthenticity` contract), as its
 test suite pins it down: a map from product id to record, the ids in
 insertion order for enumeration, and a single owner who alone may add and
 verify products. Every entry point either yields a new state (and, for the
 two writes, an event) or reverts with a reason string; a revert leaves the
 state as it was, which here means the caller keeps the old state value.
 */
module Registry {
  import opened Outcomes

  /** A 20-byte account address in its `0x`-prefixed hex spelling. */
  type Address = string

  const ZeroAddress: Address := "0x0000000000000000000000000000000000000000"

  /** The stored record; its fields are those of the `Product` struct. */
  datatype Product = Product(
    id: nat,
    productName: string,
    artisanName: string,
    artisanAddress: string,
    village: string,
    district: string,
    regency: string,
    province: string,
    coordinates: string,
    technique: string,
    materials: string,
    description: string,
    imageHash: string,
    artisanImageHash: string,
    videoHash: string,
    mintDate: nat,
    isVerified: bool,
    verifiedBy: Address)

  /** The projection `getProductBasicInfo` returns. */
  datatype BasicInfo = BasicInfo(
    id: nat,
    productName: string,
    artisanName: string,
    village: string,
    technique: string,
    isVerified: bool)

  /** The fifteen arguments of `addProduct`, in order. */
  datatype NewProduct = NewProduct(
    id: nat,
    productName: string,
    artisanName: string,
    artisanAddress: string,
    village: string,
    district: string,
    regency: string,
    province: string,
    coordinates: string,
    technique: string,
    materials: string,
    description: string,
    imageHash: string,
    artisanImageHash: string,
    videoHash: string)

  datatype State = State(owner: Address, products: map<nat, Product>, ids: seq<nat>)

  datatype Revert = NotOwner | IdExists | EmptyName | DoesNotExist | IndexOutOfBounds

  datatype Event =
    | ProductAdded(id: nat, productName: string, artisanName: string, addedBy: Address)
    | ProductVerified(id: nat)

  /** A successful write: the new state and the event it emits. */
  datatype Tx = Tx(state: State, event: Event)

  /** The revert reason string of each guard. */
  function Reason(e: Revert): string
  {
    match e
    case NotOwner => "Ownable: caller is not the owner"
    case IdExists => "Product ID already exists"
    case EmptyName => "Product name cannot be empty"
    case DoesNotExist => "Product does not exist"
    case IndexOutOfBounds => "Index out of bounds"
  }

  /** Distinct guards revert with distinct reasons, so a reason names its guard. */
  lemma ReasonInjective(a: Revert, b: Revert)
    requires Reason(a) == Reason(b)
    ensures a == b
  {
  }

  /** The representation invariant: the id list enumerates exactly the stored
      records, without repetition, and every record is filed under its own id;
      an unverified record still has the zero address as verifier, and a
      verified one names the owner, the only account allowed to verify. */
  ghost predicate Valid(s: State)
  {
    && (forall i :: 0 <= i < |s.ids| ==> s.ids[i] in s.products)
    && (forall id :: id in s.products ==> id in s.ids)
    && (forall i, j :: 0 <= i < j < |s.ids| ==> s.ids[i] != s.ids[j])
    && (forall id :: id in s.products ==> s.products[id].id == id)
    && (forall id :: id in s.products && !s.products[id].isVerified ==> s.products[id].verifiedBy == ZeroAddress)
    && (forall id :: id in s.products && s.products[id].isVerified ==> s.products[id].verifiedBy == s.owner)
  }

  /** The record `addProduct` stores: the arguments, the block time, and an
      unverified status. */
  function Record(a: NewProduct, now: nat): Product
  {
    Product(a.id, a.productName, a.artisanName, a.artisanAddress, a.village,
            a.district, a.regency, a.province, a.coordinates, a.technique,
            a.materials, a.description, a.imageHash, a.artisanImageHash,
            a.videoHash, now, false, ZeroAddress)
  }

  // ----- deployment -----

  /** The constructor: the deployer becomes the owner of an empty registry. */
  function Deploy(deployer: Address): (s: State)
    ensures Valid(s)
    ensures s.owner == deployer
    ensures GetTotalProducts(s) == 0
    ensures forall id :: GetProduct(s, id) == Err(DoesNotExist)
  {
    State(deployer, map[], [])
  }

  // ----- writes -----

  /** `addProduct`, called by `caller` in a block with timestamp `now`. */
  function AddProduct(s: State, caller: Address, a: NewProduct, now: nat): (r: Result<Tx, Revert>)
    ensures caller != s.owner ==> r == Err(NotOwner)
    ensures caller == s.owner && a.id in s.products ==> r == Err(IdExists)
    ensures caller == s.owner && a.id !in s.products && a.productName == "" ==> r == Err(EmptyName)
    ensures r.Ok? <==> caller == s.owner && a.id !in s.products && a.productName != ""
    ensures r.Ok? ==>
      && r.value.state.owner == s.owner
      && GetTotalProducts(r.value.state) == GetTotalProducts(s) + 1
      && r.value.state.ids == s.ids + [a.id]
      && r.value.state.products.Keys == s.products.Keys + {a.id}
      && r.value.event == ProductAdded(a.id, a.productName, a.artisanName, caller)
  {
    if caller != s.owner then Err(NotOwner)
    else if a.id in s.products then Err(IdExists)
    else if a.productName == "" then Err(EmptyName)
    else
      var s' := State(s.owner, s.products[a.id := Record(a, now)], s.ids + [a.id]);
      Ok(Tx(s', ProductAdded(a.id, a.productName, a.artisanName, caller)))
  }

  /** `verifyProduct`: the owner marks an existing record as authenticated. */
  function VerifyProduct(s: State, caller: Address, id: nat): (r: Result<Tx, Revert>)
    ensures caller != s.owner ==> r == Err(NotOwner)
    ensures caller == s.owner && id !in s.products ==> r == Err(DoesNotExist)
    ensures r.Ok? <==> caller == s.owner && id in s.products
    ensures r.Ok? ==>
      && r.value.state.owner == s.owner
      && r.value.state.ids == s.ids
      && r.value.state.products.Keys == s.products.Keys
      && r.value.state.products[id].isVerified
      && r.value.event == ProductVerified(id)
  {
    if caller != s.owner then Err(NotOwner)
    else if id !in s.products then Err(DoesNotExist)
    else
      var p := s.products[id];
      Ok(Tx(s.(products := s.products[id := p.(isVerified := true, verifiedBy := caller)]), ProductVerified(id)))
  }

  // ----- reads -----

  function GetProduct(s: State, id: nat): (r: Result<Product, Revert>)
    ensures r.Ok? <==> id in s.products
    ensures r.Err? ==> r.error == DoesNotExist
  {
    if id in s.products then Ok(s.products[id]) else Err(DoesNotExist)
  }

  function Basic(p: Product): BasicInfo
  {
    BasicInfo(p.id, p.productName, p.artisanName, p.village, p.technique, p.isVerified)
  }

  /** `getProductBasicInfo`: the six-field projection of `getProduct`. */
  function GetProductBasicInfo(s: State, id: nat): (r: Result<BasicInfo, Revert>)
    ensures r.Ok? <==> GetProduct(s, id).Ok?
    ensures r.Ok? ==>
      var p := GetProduct(s, id).value;
      && r.value.id == p.id && r.value.productName == p.productName
      && r.value.artisanName == p.artisanName && r.value.village == p.village
      && r.value.technique == p.technique && r.value.isVerified == p.isVerified
    ensures r.Err? ==> r.error == DoesNotExist
  {
    match GetProduct(s, id)
    case Ok(p) => Ok(Basic(p))
    case Err(e) => Err(e)
  }

  function IsProductVerified(s: State, id: nat): (r: Result<bool, Revert>)
    ensures r.Ok? <==> GetProduct(s, id).Ok?
    ensures r.Ok? ==> r.value == GetProduct(s, id).value.isVerified
    ensures r.Err? ==> r.error == DoesNotExist
  {
    match GetProduct(s, id)
    case Ok(p) => Ok(p.isVerified)
    case Err(e) => Err(e)
  }

  function GetTotalProducts(s: State): nat
  {
    |s.ids|
  }

  /** `getProductIdByIndex`: the id added `i`-th (counting from zero). */
  function GetProductIdByIndex(s: State, i: nat): (r: Result<nat, Revert>)
    ensures r.Ok? <==> i < GetTotalProducts(s)
    ensures r.Ok? ==> r.value == s.ids[i]
  {
    if i < |s.ids| then Ok(s.ids[i]) else Err(IndexOutOfBounds)
  }

  // ----- properties of the writes -----

  lemma AddPreservesValid(s: State, caller: Address, a: NewProduct, now: nat)
    requires Valid(s)
    requires AddProduct(s, caller, a, now).Ok?
    ensures Valid(AddProduct(s, caller, a, now).value.state)
  {
    var s' := AddProduct(s, caller, a, now).value.state;
    forall i, j | 0 <= i < j < |s'.ids|
      ensures s'.ids[i] != s'.ids[j]
    {
      if j == |s.ids| {
        assert s.ids[i] in s.products;
      }
    }
  }

  lemma VerifyPreservesValid(s: State, caller: Address, id: nat)
    requires Valid(s)
    requires VerifyProduct(s, caller, id).Ok?
    ensures Valid(VerifyProduct(s, caller, id).value.state)
  {
  }

  /** After a successful add, `getProduct` returns exactly the supplied fields,
      stamped with the block time, unverified and with no verifier. */
  lemma AddThenGet(s: State, caller: Address, a: NewProduct, now: nat)
    requires AddProduct(s, caller, a, now).Ok?
    ensures var s' := AddProduct(s, caller, a, now).value.state;
      && GetProduct(s', a.id).Ok?
      && var p := GetProduct(s', a.id).value;
      && p.id == a.id && p.productName == a.productName && p.artisanName == a.artisanName
      && p.artisanAddress == a.artisanAddress && p.village == a.village
      && p.district == a.district && p.regency == a.regency && p.province == a.province
      && p.coordinates == a.coordinates && p.technique == a.technique
      && p.materials == a.materials && p.description == a.description
      && p.imageHash == a.imageHash && p.artisanImageHash == a.artisanImageHash
      && p.videoHash == a.videoHash && p.mintDate == now
      && !p.isVerified && p.verifiedBy == ZeroAddress
      && GetProductBasicInfo(s', a.id) == Ok(BasicInfo(a.id, a.productName, a.artisanName, a.village, a.technique, false))
      && IsProductVerified(s', a.id) == Ok(false)
  {
  }

  /** An add touches no other record: every other id reads as before. */
  lemma AddKeepsOthers(s: State, caller: Address, a: NewProduct, now: nat, other: nat)
    requires AddProduct(s, caller, a, now).Ok?
    requires other != a.id
    ensures GetProduct(AddProduct(s, caller, a, now).value.state, other) == GetProduct(s, other)
  {
  }

  /** The new id is found at the next index, and earlier indices keep theirs. */
  lemma AddExtendsIndex(s: State, caller: Address, a: NewProduct, now: nat)
    requires AddProduct(s, caller, a, now).Ok?
    ensures var s' := AddProduct(s, caller, a, now).value.state;
      && GetProductIdByIndex(s', GetTotalProducts(s)) == Ok(a.id)
      && forall i: nat :: i < GetTotalProducts(s) ==> GetProductIdByIndex(s', i) == GetProductIdByIndex(s, i)
  {
  }

  /** After an owner's `verifyProduct`, `isProductVerified` answers true, the
      verifier is the caller, and every descriptive field is unchanged. */
  lemma VerifyThenIsVerified(s: State, caller: Address, id: nat)
    requires VerifyProduct(s, caller, id).Ok?
    ensures var s' := VerifyProduct(s, caller, id).value.state;
      && IsProductVerified(s', id) == Ok(true)
      && GetProduct(s', id).value.verifiedBy == caller
      && GetProduct(s', id).value == GetProduct(s, id).value.(isVerified := true, verifiedBy := caller)
  {
  }

  /** A verification touches no other record. */
  lemma VerifyKeepsOthers(s: State, caller: Address, id: nat, other: nat)
    requires VerifyProduct(s, caller, id).Ok?
    requires other != id
    ensures GetProduct(VerifyProduct(s, caller, id).value.state, other) == GetProduct(s, other)
  {
  }

  /** In a valid registry the ids at indices `0 .. total-1` are exactly the
      stored ids. */
  lemma EnumerationComplete(s: State, id: nat)
    requires Valid(s)
    ensures id in s.products <==> exists i: nat :: i < GetTotalProducts(s) && GetProductIdByIndex(s, i) == Ok(id)
  {
    if id in s.products {
      var i :| 0 <= i < |s.ids| && s.ids[i] == id;
      assert GetProductIdByIndex(s, i) == Ok(id);
    }
  }

  // ----- runs of transactions -----

  /** One submitted transaction. */
  datatype Op =
    | Add(caller: Address, args: NewProduct, now: nat)
    | Verify(caller: Address, id: nat)

  /** The state after one transaction: the new state when it succeeds, the
      old one when it reverts. */
  function Step(s: State, op: Op): State
  {
    var r := match op
      case Add(caller, a, now) => AddProduct(s, caller, a, now)
      case Verify(caller, id) => VerifyProduct(s, caller, id);
    if r.Ok? then r.value.state else s
  }

  function Run(s: State, ops: seq<Op>): State
    decreases |ops|
  {
    if ops == [] then s else Run(Step(s, ops[0]), ops[1..])
  }

  /** Number of transactions in `ops` that succeed when run from `s`. */
  function SuccessfulAdds(s: State, ops: seq<Op>): nat
    decreases |ops|
  {
    if ops == [] then 0
    else
      var op := ops[0];
      var n := if op.Add? && AddProduct(s, op.caller, op.args, op.now).Ok? then 1 else 0;
      n + SuccessfulAdds(Step(s, op), ops[1..])
  }

  /** Every run from a valid state keeps the invariant, keeps the owner, and
      grows the total by exactly the number of adds that went through. */
  lemma {:induction false} RunPreservesValid(s: State, ops: seq<Op>)
    requires Valid(s)
    ensures Valid(Run(s, ops))
    ensures Run(s, ops).owner == s.owner
    ensures GetTotalProducts(Run(s, ops)) == GetTotalProducts(s) + SuccessfulAdds(s, ops)
    decreases |ops|
  {
    if ops != [] {
      var op := ops[0];
      match op {
        case Add(caller, a, now) =>
          if AddProduct(s, caller, a, now).Ok? {
            AddPreservesValid(s, caller, a, now);
          }
        case Verify(caller, id) =>
          if VerifyProduct(s, caller, id).Ok? {
            VerifyPreservesValid(s, caller, id);
          }
      }
      RunPreservesValid(Step(s, op), ops[1..]);
    }
  }

  /** Records are never removed, a stored record's data never changes (only
      its verification status and verifier do), verification is never undone,
      and only the owner ever becomes a verifier; in a valid registry the
      verifier of a verified record therefore stays the same. */
  lemma {:induction false} RunMonotonic(s: State, ops: seq<Op>, id: nat)
    requires id in s.products
    ensures Run(s, ops).owner == s.owner
    ensures id in Run(s, ops).products
    ensures
      var q := Run(s, ops).products[id];
      q == s.products[id].(isVerified := q.isVerified, verifiedBy := q.verifiedBy)
    ensures s.products[id].isVerified ==> Run(s, ops).products[id].isVerified
    ensures Run(s, ops).products[id].verifiedBy != s.products[id].verifiedBy ==>
      Run(s, ops).products[id].isVerified && Run(s, ops).products[id].verifiedBy == s.owner
    ensures Valid(s) && s.products[id].isVerified ==>
      Run(s, ops).products[id].verifiedBy == s.products[id].verifiedBy
    decreases |ops|
  {
    if ops != [] {
      RunMonotonic(Step(s, ops[0]), ops[1..], id);
    }
  }
}
