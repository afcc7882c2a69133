/**
 The content-address helpers: rewriting an `ipfs://` reference to a gateway
 URL, and the checks `uploadImage` makes before it hands a file to the
 encoder.
 */
module Ipfs {
  import opened Outcomes
  import opened Text
  import opened Media

  const Scheme := "ipfs://"
  const Gateway := "https://ipfs.io/ipfs/"

  /** `getIPFSUrl`: an `ipfs://` reference becomes the gateway URL of the
      same hash; web URLs, `data:` URLs and anything else pass through. */
  function GetIpfsUrl(u: string): (r: string)
    ensures u == "" ==> r == ""
    ensures StartsWith(u, "http") ==> r == u
    ensures !StartsWith(u, "http") && StartsWith(u, Scheme) ==> r == Gateway + u[|Scheme|..]
    ensures !StartsWith(u, "http") && !StartsWith(u, Scheme) ==> r == u
  {
    if u == "" then ""
    else if StartsWith(u, "http") then u
    else if StartsWith(u, Scheme) then Gateway + u[|Scheme|..]
    else u
  }

  /** Every result either is the input or is a web URL. */
  lemma GetIpfsUrlShape(u: string)
    ensures GetIpfsUrl(u) == u || StartsWith(GetIpfsUrl(u), "http")
  {
    if !StartsWith(u, "http") && StartsWith(u, Scheme) {
      StartsWithConcat(Gateway, u[|Scheme|..]);
      StartsWithShorter(Gateway + u[|Scheme|..], Gateway, "http");
    }
  }

  /** Rewriting twice is rewriting once. */
  lemma GetIpfsUrlIdempotent(u: string)
    ensures GetIpfsUrl(GetIpfsUrl(u)) == GetIpfsUrl(u)
  {
    GetIpfsUrlShape(u);
  }

  /** The reference to hash `h` reaches the gateway with `h` intact. */
  lemma GatewayOfHash(h: string)
    ensures GetIpfsUrl(Scheme + h) == Gateway + h
  {
    StartsWithConcat(Scheme, h);
    assert (Scheme + h)[|Scheme|..] == h;
    assert (Scheme + h)[..4] == "ipfs";
  }

  /** `uploadImage`: the type check, then the size check, then the encoder
      (`encoded`, the outcome of the base64 conversion) whose failure is
      reported with a fixed message. */
  function UploadImage(f: File, encoded: Result<string, Thrown>): (r: Result<string, string>)
    ensures CheckImage(f) == WrongType ==> r == Err("File must be an image")
    ensures CheckImage(f) == TooLarge ==> r == Err("File size must be less than 5MB")
    ensures CheckImage(f) == Accepted && encoded.Ok? ==> r == Ok(encoded.value)
    ensures CheckImage(f) == Accepted && encoded.Err? ==> r == Err("Failed to upload image. Please try again.")
    ensures r.Ok? <==> StartsWith(f.mimeType, "image/") && f.size <= MaxImageBytes && encoded.Ok?
  {
    match CheckImage(f)
    case WrongType => Err("File must be an image")
    case TooLarge => Err("File size must be less than 5MB")
    case Accepted =>
      match encoded
      case Ok(data) => Ok(data)
      case Err(_) => Err("Failed to upload image. Please try again.")
  }
}
