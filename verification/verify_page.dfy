/**
 The verification page: it lists the products still waiting for
 verification, read straight from the contract in index order, and picks one
 of five views from the wallet flags and its own loading/error state.
 */
module VerifyPage {
  import opened Outcomes
  import Registry
  import opened Rpc

  const LoadFallback := "Failed to load products"

  datatype Page = Page(products: seq<Registry.Product>, loading: bool, error: Option<string>)

  /** The page's state when it first renders. */
  const Initial := Page([], true, None)

  datatype Load = Load(page: Page, calls: seq<Call>)

  /** `loadUnverifiedProducts`: for each index, fetch the id and then the
      record, and keep the unverified ones. The first call that throws ends the
      load; the list then keeps its previous contents. Without a provider the
      page is left as it is. */
  method LoadUnverified(page: Page, provider: Option<Chain>) returns (r: Load)
    ensures provider.None? ==> r == Load(page, [])
    ensures provider.Some? ==> !r.page.loading && 0 < |r.calls|
    ensures provider.Some? && r.page.error.None? ==>
      r.page.products == PendingOf(provider.value.state, provider.value.state.ids)
    ensures provider.Some? && r.page.error.Some? ==>
      var t := Throws(provider.value, r.calls[|r.calls| - 1]);
      && r.page.products == page.products
      && t.Some?
      && r.page.error == Some(ErrorMessageElse(t.value, LoadFallback))
    ensures provider.Some? && Healthy(provider.value) && Registry.Valid(provider.value.state) ==>
      r.page.error.None?
  {
    if provider.None? {
      return Load(page, []);
    }
    var c := provider.value;
    var s := c.state;
    var calls := [TotalCall];
    var total := CallTotal(c);
    if total.Err? {
      return Load(Page(page.products, false, Some(ErrorMessageElse(total.error, LoadFallback))), calls);
    }
    var pending: seq<Registry.Product> := [];
    var i := 0;
    while i < total.value
      invariant total.value == |s.ids|
      invariant 0 <= i <= total.value
      invariant pending == PendingOf(s, s.ids[..i])
      invariant 0 < |calls|
    {
      var idAt := CallIdByIndex(c, i);
      calls := calls + [IdByIndexCall(i)];
      if idAt.Err? {
        return Load(Page(page.products, false, Some(ErrorMessageElse(idAt.error, LoadFallback))), calls);
      }
      var product := CallProduct(c, idAt.value);
      calls := calls + [ProductCall(idAt.value)];
      if product.Err? {
        return Load(Page(page.products, false, Some(ErrorMessageElse(product.error, LoadFallback))), calls);
      }
      if !product.value.isVerified {
        pending := pending + [product.value];
      }
      PendingOfSnoc(s, s.ids[..i], s.ids[i]);
      assert s.ids[..i + 1] == s.ids[..i] + [s.ids[i]];
      i := i + 1;
    }
    assert s.ids[..i] == s.ids;
    return Load(Page(pending, false, None), calls);
  }

  /** The effect that loads the list once the wallet is connected to the
      right network with a provider. */
  method OnWalletChange(page: Page, isConnected: bool, isCorrectNetwork: bool, provider: Option<Chain>)
    returns (r: Load)
    ensures !(isConnected && isCorrectNetwork && provider.Some?) ==> r == Load(page, [])
    ensures isConnected && isCorrectNetwork && provider.Some? ==> !r.page.loading && 0 < |r.calls|
  {
    if isConnected && isCorrectNetwork && provider.Some? {
      r := LoadUnverified(page, provider);
    } else {
      r := Load(page, []);
    }
  }

  /** `handleVerified`: a card reported a successful verification, so the list
      is loaded again. */
  method HandleVerified(page: Page, provider: Option<Chain>) returns (r: Load)
    ensures provider.None? ==> r == Load(page, [])
    ensures provider.Some? ==> !r.page.loading && 0 < |r.calls|
    ensures provider.Some? && Healthy(provider.value) && Registry.Valid(provider.value.state) ==>
      r.page == Page(PendingOf(provider.value.state, provider.value.state.ids), false, None)
  {
    r := LoadUnverified(page, provider);
  }

  /** Once an owner's verification of `id` has gone through, no record with
      that id is pending any more, so a reload no longer lists it. */
  lemma VerifiedLeavesPending(s: Registry.State, caller: Registry.Address, id: nat)
    requires Registry.Valid(s)
    requires Registry.VerifyProduct(s, caller, id).Ok?
    ensures var s' := Registry.VerifyProduct(s, caller, id).value.state;
      forall p :: p in PendingOf(s', s'.ids) ==> p.id != id
  {
    var s' := Registry.VerifyProduct(s, caller, id).value.state;
    Registry.VerifyPreservesValid(s, caller, id);
    forall p | p in PendingOf(s', s'.ids)
      ensures p.id != id
    {
      PendingOfComplete(s', s'.ids, p);
      var i :| 0 <= i < |s'.ids| && s'.products[s'.ids[i]] == p;
    }
  }

  // ----- what the page shows -----

  datatype View =
    | ConnectPrompt
    | Spinner
    | ErrorPanel(message: string)
    | AllVerified
    | Grid(count: nat, noun: string)

  /** The noun after the pending count. */
  function CountLabel(n: nat): (noun: string)
    ensures noun == "Product" <==> n == 1
    ensures noun != "Product" ==> noun == "Products"
  {
    if n == 1 then "Product" else "Products"
  }

  /** The view precedence: wallet, then loading, then a (non-empty) error,
      then the empty list, then the grid. */
  function Render(isConnected: bool, isCorrectNetwork: bool, page: Page): (v: View)
    ensures v.ConnectPrompt? <==> !isConnected || !isCorrectNetwork
    ensures v.Spinner? <==> isConnected && isCorrectNetwork && page.loading
    ensures v.ErrorPanel? <==>
      isConnected && isCorrectNetwork && !page.loading && page.error.Some? && page.error.value != ""
    ensures v.ErrorPanel? ==> v.message == page.error.value
    ensures v.AllVerified? ==> |page.products| == 0
    ensures v.Grid? ==> v.count == |page.products| > 0 && v.noun == CountLabel(v.count)
    ensures isConnected && isCorrectNetwork && !page.loading && (page.error.None? || page.error.value == "") ==>
      (v.AllVerified? <==> |page.products| == 0)
  {
    if !isConnected || !isCorrectNetwork then ConnectPrompt
    else if page.loading then Spinner
    else if page.error.Some? && page.error.value != "" then ErrorPanel(page.error.value)
    else if |page.products| == 0 then AllVerified
    else Grid(|page.products|, CountLabel(|page.products|))
  }

  /** A list loaded from a valid registry shows "All Products Verified!"
      exactly when every stored record is verified, and otherwise the grid
      counting the records still pending. */
  lemma LoadedView(s: Registry.State)
    requires Registry.Valid(s)
    ensures var v := Render(true, true, Page(PendingOf(s, s.ids), false, None));
      && (v == AllVerified <==> forall id :: id in s.products ==> s.products[id].isVerified)
      && (v != AllVerified ==> v == Grid(|PendingOf(s, s.ids)|, CountLabel(|PendingOf(s, s.ids)|)))
  {
    var pending := PendingOf(s, s.ids);
    if pending != [] {
      var p := pending[0];
      assert p in pending;
      var id :| id in s.products && s.products[id] == p;
      assert !s.products[id].isVerified;
    }
    if exists id :: id in s.products && !s.products[id].isVerified {
      var id :| id in s.products && !s.products[id].isVerified;
      var i :| 0 <= i < |s.ids| && s.ids[i] == id;
      PendingOfComplete(s, s.ids, s.products[id]);
      assert s.products[id] in pending;
    }
  }

  /** The page just after it mounts shows either the wallet prompt or the
      spinner, never an empty "All Products Verified!" message. */
  lemma InitialView(isConnected: bool, isCorrectNetwork: bool)
    ensures Render(isConnected, isCorrectNetwork, Initial) ==
      (if isConnected && isCorrectNetwork then Spinner else ConnectPrompt)
  {
  }
}
