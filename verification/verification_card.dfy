/**
 The card the verify page shows for each pending product: the confirmation
 dialog, the `verifyProduct` transaction it sends, and the message shown
 when that transaction fails.
 */
module VerificationCard {
  import opened Outcomes
  import opened Text
  import Registry
  import Rpc

  datatype Card = Card(isVerifying: bool, error: Option<string>, showConfirm: bool)

  /** What one click on "Confirm" did: the card afterwards, the id the
      transaction was sent for (if one was sent), and whether `onVerified`
      was invoked. */
  datatype Attempt = Attempt(card: Card, sent: Option<nat>, notified: bool)

  const NoWalletMessage := "Wallet not connected"
  const OwnerOnlyMessage := "Only contract owner can verify products"

  /** The `catch` block of `handleVerify`. */
  function VerifyErrorMessage(t: Thrown): (m: string)
    ensures m != ""
    ensures t.NonErrorValue? ==> m == "An unexpected error occurred"
    ensures t.ErrorValue? && Contains(t.message, "user rejected") ==> m == "Transaction was rejected by user"
    ensures (t.ErrorValue? && !Contains(t.message, "user rejected") && Contains(t.message, "Ownable")) ==>
            m == OwnerOnlyMessage
    ensures (t.ErrorValue? && !Contains(t.message, "user rejected") && !Contains(t.message, "Ownable")) ==>
            m == MessageOr(t, "Failed to verify product")
  {
    match t
    case NonErrorValue => "An unexpected error occurred"
    case ErrorValue(message) =>
      if Contains(message, "user rejected") then "Transaction was rejected by user"
      else if Contains(message, "Ownable") then OwnerOnlyMessage
      else MessageOr(t, "Failed to verify product")
  }

  /** `handleVerify` for the card's product `productId`. `outcome` is what
      the transaction came to: `None` when it was mined, the thrown value
      otherwise. */
  function HandleVerify(card: Card, productId: nat, hasSigner: bool, outcome: Option<Thrown>): (a: Attempt)
    ensures !hasSigner ==> a == Attempt(card.(error := Some(NoWalletMessage)), None, false)
    ensures hasSigner ==> a.sent == Some(productId) && !a.card.isVerifying
    ensures a.notified <==> hasSigner && outcome.None?
    ensures hasSigner && outcome.None? ==> !a.card.showConfirm && a.card.error.None?
    ensures hasSigner && outcome.Some? ==>
      a.card.showConfirm == card.showConfirm && a.card.error == Some(VerifyErrorMessage(outcome.value))
  {
    if !hasSigner then Attempt(card.(error := Some(NoWalletMessage)), None, false)
    else
      match outcome
      case None => Attempt(Card(false, None, false), Some(productId), true)
      case Some(t) => Attempt(Card(false, Some(VerifyErrorMessage(t)), card.showConfirm), Some(productId), false)
  }

  /** A click on the dialog's backdrop closes it unless a verification is in
      flight. */
  function BackdropClick(card: Card): (r: Card)
    ensures r.isVerifying == card.isVerifying && r.error == card.error
    ensures r.showConfirm <==> card.showConfirm && card.isVerifying
  {
    if !card.isVerifying then card.(showConfirm := false) else card
  }

  /** The owner revert, however the provider wraps it, reaches the user as
      the owner-only advice, unless the wrapped message also mentions a
      rejection, which the handler checks first. */
  lemma NotOwnerMessage(message: string)
    ensures Contains(message, Registry.Reason(Registry.NotOwner)) && !Contains(message, "user rejected") ==>
      VerifyErrorMessage(ErrorValue(message)) == OwnerOnlyMessage
    ensures VerifyErrorMessage(ErrorValue(Registry.Reason(Registry.NotOwner))) == OwnerOnlyMessage
  {
    MissingCharNotContained(Registry.Reason(Registry.NotOwner), "user rejected", 7);
    StartsWithConcat("Ownable", ": caller is not the owner");
    StartsWithContains(Registry.Reason(Registry.NotOwner), "Ownable");
    if Contains(message, Registry.Reason(Registry.NotOwner)) {
      ContainsTrans(message, Registry.Reason(Registry.NotOwner), "Ownable");
    }
  }

  /** The missing-product revert, however wrapped, is shown as the error's own
      message when the wrapping trips neither substring test; unwrapped, it is
      shown as the bare reason. */
  lemma MissingProductMessage(message: string)
    ensures Contains(message, Registry.Reason(Registry.DoesNotExist)) &&
            !Contains(message, "user rejected") && !Contains(message, "Ownable") ==>
      VerifyErrorMessage(ErrorValue(message)) == message
    ensures VerifyErrorMessage(ErrorValue(Registry.Reason(Registry.DoesNotExist))) == Registry.Reason(Registry.DoesNotExist)
  {
    var reason := "Product does not exist";
    MissingCharNotContained(reason, "user rejected", 7);
    MissingCharNotContained(reason, "Ownable", 0);
  }

  datatype Outcome = Outcome(attempt: Attempt, state: Registry.State)

  /** A click on "Confirm" against the registry itself, the wallet signing
      as `signer` and the provider wrapping reverts as `w`: the transaction is
      `Registry.VerifyProduct`, and a revert surfaces as an `Error` whose
      message contains its reason. */
  function VerifyOnChain(card: Card, product: Registry.Product, signer: Option<Registry.Address>,
                         s: Registry.State, w: Rpc.Wrapping): (r: Outcome)
    ensures signer.None? ==> r.state == s && r.attempt.sent.None? && r.attempt.card.error == Some(NoWalletMessage)
    ensures signer.Some? && signer.value != s.owner ==>
      && r.state == s && !r.attempt.notified
      && r.attempt.card.error == Some(VerifyErrorMessage(Rpc.RevertError(w, Registry.NotOwner)))
      && (!Contains(Rpc.RevertError(w, Registry.NotOwner).message, "user rejected") ==>
            r.attempt.card.error == Some(OwnerOnlyMessage))
    ensures signer.Some? && signer.value == s.owner && product.id !in s.products ==>
      var m := Rpc.RevertError(w, Registry.DoesNotExist).message;
      && r.state == s && !r.attempt.notified
      && (!Contains(m, "user rejected") && !Contains(m, "Ownable") ==> r.attempt.card.error == Some(m))
    ensures signer == Some(s.owner) && product.id in s.products ==>
      && r.attempt.notified && r.attempt.card.error.None? && !r.attempt.card.showConfirm
      && Registry.IsProductVerified(r.state, product.id) == Ok(true)
  {
    match signer
    case None => Outcome(HandleVerify(card, product.id, false, None), s)
    case Some(caller) =>
      match Registry.VerifyProduct(s, caller, product.id)
      case Ok(tx) => Outcome(HandleVerify(card, product.id, true, None), tx.state)
      case Err(e) =>
        NotOwnerMessage(Rpc.RevertError(w, e).message);
        MissingProductMessage(Rpc.RevertError(w, e).message);
        Outcome(HandleVerify(card, product.id, true, Some(Rpc.RevertError(w, e))), s)
  }
}
