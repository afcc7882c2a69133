/**
 The product detail dialog's derived text: the shortened verifier address,
 the verification badge, the media availability labels, and which optional
 blocks are shown.
 */
module ProductDetail {
  import opened Text
  import Registry

  const NotYetVerified := "Belum diverifikasi"

  /** `formatAddress`: an empty or zero verifier reads "not yet verified";
      any other address is cut to its first six and last four characters. */
  function FormatAddress(a: string): (r: string)
    ensures r == NotYetVerified <==> a == "" || a == Registry.ZeroAddress
    ensures a != "" && a != Registry.ZeroAddress ==>
      && |r| == Min(6, |a|) + 3 + Min(4, |a|)
      && StartsWith(r, Head(a, 6))
      && r[Min(6, |a|)..Min(6, |a|) + 3] == "..."
      && r[Min(6, |a|) + 3..] == a[|a| - Min(4, |a|)..]
  {
    if a == "" || a == Registry.ZeroAddress then NotYetVerified
    else
      var r := Head(a, 6) + "..." + Tail(a, 4);
      assert |r| <= 13 < |NotYetVerified|;
      StartsWithConcat(Head(a, 6), "..." + Tail(a, 4));
      assert r == Head(a, 6) + ("..." + Tail(a, 4));
      r
  }

  /** A full-length address keeps its `0x` prefix and its last four digits. */
  lemma FormatFullAddress(a: string)
    requires |a| == 42 && StartsWith(a, "0x") && a != Registry.ZeroAddress
    ensures |FormatAddress(a)| == 13
    ensures StartsWith(FormatAddress(a), "0x")
    ensures FormatAddress(a)[9..] == a[38..]
  {
    var r := FormatAddress(a);
    StartsWithShorter(a, a[..6], "0x");
    StartsWithShorter(r, a[..6], "0x");
  }

  /** The verification badge. */
  function StatusLabel(isVerified: bool): (text: string)
    ensures text == "Terverifikasi" <==> isVerified
    ensures !isVerified ==> text == "Belum Verifikasi"
  {
    if isVerified then "Terverifikasi" else "Belum Verifikasi"
  }

  /** A media label: available exactly when the content hash is non-empty. */
  function MediaLabel(hash: string): (text: string)
    ensures text == "Tersedia" <==> hash != ""
    ensures hash == "" ==> text == "Belum tersedia"
  {
    if hash != "" then "Tersedia" else "Belum tersedia"
  }

  /** What the dialog derives from a record. The coordinates row and the
      verification block are optional (empty when hidden). */
  datatype Detail = Detail(
    status: string,
    imageLabel: string,
    artisanImageLabel: string,
    videoLabel: string,
    coordinates: seq<string>,
    verifier: seq<string>)

  function Describe(p: Registry.Product): (d: Detail)
    ensures d.status == "Terverifikasi" <==> p.isVerified
    ensures d.imageLabel == "Tersedia" <==> p.imageHash != ""
    ensures d.artisanImageLabel == "Tersedia" <==> p.artisanImageHash != ""
    ensures d.videoLabel == "Tersedia" <==> p.videoHash != ""
    ensures d.coordinates == (if p.coordinates != "" then [p.coordinates] else [])
    ensures |d.verifier| <= 1
    ensures d.verifier != [] <==> p.isVerified
    ensures p.isVerified ==> d.verifier == [FormatAddress(p.verifiedBy)]
  {
    Detail(
      StatusLabel(p.isVerified),
      MediaLabel(p.imageHash),
      MediaLabel(p.artisanImageHash),
      MediaLabel(p.videoHash),
      if p.coordinates != "" then [p.coordinates] else [],
      if p.isVerified then [FormatAddress(p.verifiedBy)] else [])
  }

  /** After the owner verifies a product, its detail shows the badge and the
      owner's shortened address; before, it shows neither. */
  lemma DetailAfterVerify(s: Registry.State, id: nat)
    requires Registry.Valid(s)
    requires id in s.products
    requires s.owner != "" && s.owner != Registry.ZeroAddress
    ensures !s.products[id].isVerified ==> Describe(s.products[id]).verifier == []
    ensures var s' := Registry.VerifyProduct(s, s.owner, id).value.state;
      && Describe(s'.products[id]).status == "Terverifikasi"
      && Describe(s'.products[id]).verifier == [FormatAddress(s.owner)]
      && FormatAddress(s.owner) != NotYetVerified
  {
    Registry.VerifyThenIsVerified(s, s.owner, id);
  }
}
