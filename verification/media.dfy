/**
 The file guards the upload forms apply before accepting a picked file: a
 MIME-type prefix check, then a size limit in bytes.
 */
module Media {
  import opened Text

  /** A picked file, as far as the guards look at it. */
  datatype File = File(mimeType: string, size: nat)

  const MiB: nat := 1024 * 1024
  const MaxImageBytes: nat := 5 * MiB
  const MaxVideoBytes: nat := 50 * MiB

  datatype Check = Accepted | WrongType | TooLarge

  /** The type is checked before the size; the limit itself is allowed. */
  function CheckFile(f: File, typePrefix: string, limit: nat): (c: Check)
    ensures c == Accepted <==> StartsWith(f.mimeType, typePrefix) && f.size <= limit
    ensures c == WrongType <==> !StartsWith(f.mimeType, typePrefix)
    ensures c == TooLarge <==> StartsWith(f.mimeType, typePrefix) && f.size > limit
  {
    if !StartsWith(f.mimeType, typePrefix) then WrongType
    else if f.size > limit then TooLarge
    else Accepted
  }

  function CheckImage(f: File): Check
  {
    CheckFile(f, "image/", MaxImageBytes)
  }

  function CheckVideo(f: File): Check
  {
    CheckFile(f, "video/", MaxVideoBytes)
  }

  /** A file of the wrong kind is reported as the wrong type whatever its
      size: the type is checked before the size. */
  lemma Limits(size: nat)
    ensures CheckImage(File("video/mp4", size)) == WrongType
    ensures CheckVideo(File("image/png", size)) == WrongType
  {
    assert "image/png"[..6] == "image/";
    assert "video/mp4"[..6] == "video/";
  }

  /** The boundaries hold for every type of the right kind: a file of exactly
      the limit passes and one byte more is too large. */
  lemma LimitsForEveryType(mimeType: string)
    ensures StartsWith(mimeType, "image/") ==>
      && CheckImage(File(mimeType, MaxImageBytes)) == Accepted
      && CheckImage(File(mimeType, MaxImageBytes + 1)) == TooLarge
    ensures StartsWith(mimeType, "video/") ==>
      && CheckVideo(File(mimeType, MaxVideoBytes)) == Accepted
      && CheckVideo(File(mimeType, MaxVideoBytes + 1)) == TooLarge
  {
  }

  /** No file passes both pickers: an image is the wrong type for the video
      picker and a video the wrong type for the image pickers. */
  lemma PickersDisjoint(f: File)
    ensures CheckImage(f) != WrongType ==> CheckVideo(f) == WrongType
    ensures CheckVideo(f) != WrongType ==> CheckImage(f) == WrongType
  {
  }

  /** Acceptance depends on the size only through the limit: a smaller file of
      the same type is accepted too. */
  lemma AcceptedSmaller(f: File, size: nat)
    requires size <= f.size
    ensures CheckImage(f) == Accepted ==> CheckImage(File(f.mimeType, size)) == Accepted
    ensures CheckVideo(f) == Accepted ==> CheckVideo(File(f.mimeType, size)) == Accepted
  {
  }
}
