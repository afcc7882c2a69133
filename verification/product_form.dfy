/**
 The add-product form: field validation, the image and video pickers' guards,
 the checks that precede the `addProduct` transaction together with the
 arguments it is sent with, and the mapping of a failed transaction's error
 to the message shown.
 */
module ProductForm {
  import opened Outcomes
  import opened Text
  import opened Media
  import Registry
  import Rpc

  datatype FormData = FormData(
    id: string,
    productName: string,
    artisanName: string,
    artisanAddress: string,
    village: string,
    district: string,
    regency: string,
    province: string,
    coordinates: string,
    technique: string,
    materials: string,
    description: string)

  /** The keys of the form's error map. */
  datatype Field =
    | IdField | ProductNameField | ArtisanNameField | VillageField | TechniqueField
    | DescriptionField | ProductImageField | ArtisanImageField | VideoField

  /** The form's state: typed fields, picked files, and the per-field error
      messages. */
  datatype Form = Form(
    data: FormData,
    productImage: Option<File>,
    artisanImage: Option<File>,
    video: Option<File>,
    errors: map<Field, string>)

  // ----- the product id as typed -----

  predicate IsDigit(c: char)
  {
    '0' <= c <= '9'
  }

  predicate AllDigits(s: string)
  {
    forall i :: 0 <= i < |s| ==> IsDigit(s[i])
  }

  /** The decimal value of a string of digits. */
  function DigitsValue(s: string): nat
    requires AllDigits(s)
    decreases |s|
  {
    if s == [] then 0
    else
      var d := s[|s| - 1];
      assert IsDigit(d);
      DigitsValue(s[..|s| - 1]) * 10 + (d as int - '0' as int)
  }

  /** `Number(id)` for decimal input: surrounding spaces are ignored and a
      non-empty string of digits is its value; anything else is `NaN`
      (`None`). */
  function ParseId(s: string): (n: Option<nat>)
    ensures n.Some? <==> Trim(s) != "" && AllDigits(Trim(s))
  {
    var t := Trim(s);
    if t != "" && AllDigits(t) then Some(DigitsValue(t)) else None
  }

  /** A digit string is worth zero exactly when all its digits are '0'. */
  lemma {:induction false} DigitsValueZero(t: string)
    requires AllDigits(t)
    ensures DigitsValue(t) == 0 <==> forall i :: 0 <= i < |t| ==> t[i] == '0'
    decreases |t|
  {
    if t != [] {
      var u := t[..|t| - 1];
      assert forall i :: 0 <= i < |u| ==> u[i] == t[i];
      DigitsValueZero(u);
      if DigitsValue(t) == 0 {
        forall i | 0 <= i < |t|
          ensures t[i] == '0'
        {
          if i < |u| {
            assert u[i] == t[i];
          }
        }
      }
    }
  }

  /** A parsed id is positive exactly when one of its digits is not '0': the
      id check turns away every all-zero spelling such as "000". */
  lemma ParseIdPositive(s: string)
    ensures ParseId(s).Some? ==>
      (ParseId(s).value > 0 <==> exists i :: 0 <= i < |Trim(s)| && Trim(s)[i] != '0')
  {
    if ParseId(s).Some? {
      DigitsValueZero(Trim(s));
    }
  }

  /** The id check: blank, not a number, or not positive. */
  predicate IdInvalid(id: string)
  {
    Trim(id) == "" || ParseId(id).None? || ParseId(id).value <= 0
  }

  /** A positive id is any string of digits, around spaces, that is not all
      zeros. */
  lemma ParseIdExamples()
    ensures ParseId("12") == Some(12)
    ensures ParseId("0") == Some(0) && IdInvalid("0")
    ensures ParseId("1a") == None
  {
    TrimStartOfNonSpace("12");
    TrimEndOfNonSpace("12");
    assert DigitsValue("12") == DigitsValue("1") * 10 + 2 by {
      assert "12"[..1] == "1";
    }
    TrimStartOfNonSpace("0");
    TrimEndOfNonSpace("0");
    TrimStartOfNonSpace("1a");
    TrimEndOfNonSpace("1a");
    assert !IsDigit("1a"[1]);
  }

  // ----- validateForm -----

  const IdMessage := "Valid product ID is required (must be a positive number)"
  const DescriptionMessage := "Description must be at least 10 characters"

  /** Whether `validateForm` flags `k`. */
  predicate Fails(f: Form, k: Field)
  {
    match k
    case IdField => IdInvalid(f.data.id)
    case ProductNameField => Trim(f.data.productName) == ""
    case ArtisanNameField => Trim(f.data.artisanName) == ""
    case VillageField => Trim(f.data.village) == ""
    case TechniqueField => f.data.technique == ""
    case DescriptionField => |Trim(f.data.description)| < 10
    case ProductImageField => f.productImage.None?
    case ArtisanImageField => f.artisanImage.None?
    case VideoField => false
  }

  /** The message `validateForm` records for `k`. */
  function Message(k: Field): string
  {
    match k
    case IdField => IdMessage
    case ProductNameField => "Product name is required"
    case ArtisanNameField => "Artisan name is required"
    case VillageField => "Village is required"
    case TechniqueField => "Technique is required"
    case DescriptionField => DescriptionMessage
    case ProductImageField => "Product image is required"
    case ArtisanImageField => "Artisan image is required"
    case VideoField => ""
  }

  const Checked: set<Field> := {IdField, ProductNameField, ArtisanNameField, VillageField,
                                TechniqueField, DescriptionField, ProductImageField, ArtisanImageField}

  /** `validateForm`'s error map: one non-empty message per failed check,
      and nothing for the optional video. */
  function Validate(f: Form): (errors: map<Field, string>)
    ensures forall k :: k in errors <==> k != VideoField && Fails(f, k)
    ensures forall k :: k in errors ==> errors[k] == Message(k) && errors[k] != ""
  {
    map k | k in Checked && Fails(f, k) :: Message(k)
  }

  /** The blank-text checks: the product name, artisan name and village count
      as missing exactly when they hold nothing but white space. */
  lemma ValidateTextFields(f: Form)
    ensures ProductNameField in Validate(f) <==> AllSpace(f.data.productName)
    ensures ArtisanNameField in Validate(f) <==> AllSpace(f.data.artisanName)
    ensures VillageField in Validate(f) <==> AllSpace(f.data.village)
  {
    var e := Validate(f);
    assert ProductNameField in e <==> Fails(f, ProductNameField);
    assert ArtisanNameField in e <==> Fails(f, ArtisanNameField);
    assert VillageField in e <==> Fails(f, VillageField);
    TrimEmptyIff(f.data.productName);
    TrimEmptyIff(f.data.artisanName);
    TrimEmptyIff(f.data.village);
  }

  /** The other checks: the id must parse to a positive number, the technique
      must be non-empty as typed, the description needs ten characters once
      trimmed, both images are required, and the video never errs. */
  lemma ValidateOtherFields(f: Form)
    ensures IdField in Validate(f) <==> IdInvalid(f.data.id)
    ensures TechniqueField in Validate(f) <==> f.data.technique == ""
    ensures DescriptionField in Validate(f) <==> |Trim(f.data.description)| < 10
    ensures ProductImageField in Validate(f) <==> f.productImage.None?
    ensures ArtisanImageField in Validate(f) <==> f.artisanImage.None?
    ensures VideoField !in Validate(f)
  {
    var e := Validate(f);
    assert IdField in e <==> Fails(f, IdField);
    assert TechniqueField in e <==> Fails(f, TechniqueField);
    assert DescriptionField in e <==> Fails(f, DescriptionField);
    assert ProductImageField in e <==> Fails(f, ProductImageField);
    assert ArtisanImageField in e <==> Fails(f, ArtisanImageField);
  }

  /** Every check of `validateForm` passes. */
  predicate FieldsOk(f: Form)
  {
    && !Fails(f, IdField) && !Fails(f, ProductNameField) && !Fails(f, ArtisanNameField)
    && !Fails(f, VillageField) && !Fails(f, TechniqueField) && !Fails(f, DescriptionField)
    && !Fails(f, ProductImageField) && !Fails(f, ArtisanImageField)
  }

  /** What a form that passes `validateForm` guarantees about its fields. */
  lemma FieldsOkMeans(f: Form)
    requires FieldsOk(f)
    ensures !IdInvalid(f.data.id)
    ensures Trim(f.data.productName) != "" && Trim(f.data.artisanName) != "" && Trim(f.data.village) != ""
    ensures f.data.technique != "" && |Trim(f.data.description)| >= 10
    ensures f.productImage.Some? && f.artisanImage.Some?
  {
  }

  /** A form passing every check gets an empty error map. */
  lemma FieldsOkNoErrors(f: Form)
    requires FieldsOk(f)
    ensures Validate(f) == map[]
  {
    forall k | k in Validate(f)
      ensures false
    {
      match k
      case IdField =>
      case ProductNameField =>
      case ArtisanNameField =>
      case VillageField =>
      case TechniqueField =>
      case DescriptionField =>
      case ProductImageField =>
      case ArtisanImageField =>
      case VideoField =>
    }
  }

  datatype Validation = Validation(ok: bool, form: Form)

  /** `validateForm`: the errors replace the previous ones, and the form is
      valid exactly when no error was recorded. */
  function ValidateForm(f: Form): (v: Validation)
    ensures v.form == f.(errors := v.form.errors)
    ensures v.form.errors == Validate(f)
    ensures v.ok <==> v.form.errors == map[]
    ensures v.ok <==> FieldsOk(f)
  {
    var errors := Validate(f);
    if FieldsOk(f) then
      FieldsOkNoErrors(f);
      Validation(true, f.(errors := errors))
    else
      var k :| k != VideoField && Fails(f, k);
      assert k in errors;
      Validation(false, f.(errors := errors))
  }

  // ----- file pickers -----

  datatype ImageSlot = ProductImage | ArtisanImage

  function SlotKey(slot: ImageSlot): Field
  {
    match slot
    case ProductImage => ProductImageField
    case ArtisanImage => ArtisanImageField
  }

  function Selected(f: Form, slot: ImageSlot): Option<File>
  {
    match slot
    case ProductImage => f.productImage
    case ArtisanImage => f.artisanImage
  }

  /** `handleImageChange`: with no file nothing happens; a rejected file only
      sets the slot's error; an accepted file becomes the selection and the
      slot's error is cleared to the empty string. */
  function HandleImageChange(f: Form, slot: ImageSlot, file: Option<File>): (r: Form)
    ensures file.None? ==> r == f
    ensures r.data == f.data && r.video == f.video
    ensures Selected(r, if slot == ProductImage then ArtisanImage else ProductImage) ==
            Selected(f, if slot == ProductImage then ArtisanImage else ProductImage)
    ensures file.Some? && CheckImage(file.value) != Accepted ==>
      Selected(r, slot) == Selected(f, slot) && SlotKey(slot) in r.errors && r.errors[SlotKey(slot)] != ""
    ensures file.Some? && CheckImage(file.value) == Accepted ==>
      Selected(r, slot) == file && r.errors == f.errors[SlotKey(slot) := ""]
    ensures file.Some? && CheckImage(file.value) == WrongType ==>
      r.errors[SlotKey(slot)] == "Please select a valid image file"
    ensures file.Some? && CheckImage(file.value) == TooLarge ==>
      r.errors[SlotKey(slot)] == "Image size must be less than 5MB"
    ensures r.errors - {SlotKey(slot)} == f.errors - {SlotKey(slot)}
  {
    match file
    case None => f
    case Some(x) =>
      match CheckImage(x)
      case WrongType => f.(errors := f.errors[SlotKey(slot) := "Please select a valid image file"])
      case TooLarge => f.(errors := f.errors[SlotKey(slot) := "Image size must be less than 5MB"])
      case Accepted =>
        var f' := if slot == ProductImage then f.(productImage := file) else f.(artisanImage := file);
        f'.(errors := f.errors[SlotKey(slot) := ""])
  }

  /** `handleVideoChange`: the same guard with a `video/` type and 50 MiB. */
  function HandleVideoChange(f: Form, file: Option<File>): (r: Form)
    ensures file.None? ==> r == f
    ensures r.data == f.data && r.productImage == f.productImage && r.artisanImage == f.artisanImage
    ensures file.Some? && CheckVideo(file.value) != Accepted ==>
      r.video == f.video && VideoField in r.errors && r.errors[VideoField] != ""
    ensures file.Some? && CheckVideo(file.value) == Accepted ==>
      r.video == file && r.errors == f.errors[VideoField := ""]
    ensures file.Some? && CheckVideo(file.value) == WrongType ==>
      r.errors[VideoField] == "Please select a valid video file"
    ensures file.Some? && CheckVideo(file.value) == TooLarge ==>
      r.errors[VideoField] == "Video size must be less than 50MB"
    ensures r.errors - {VideoField} == f.errors - {VideoField}
  {
    match file
    case None => f
    case Some(x) =>
      match CheckVideo(x)
      case WrongType => f.(errors := f.errors[VideoField := "Please select a valid video file"])
      case TooLarge => f.(errors := f.errors[VideoField := "Video size must be less than 50MB"])
      case Accepted => f.(video := file, errors := f.errors[VideoField := ""])
  }

  // ----- handleSubmit -----

  datatype Submission =
    | Invalid(form: Form)
    | NoWallet(form: Form, message: string)
    | Send(form: Form, args: Registry.NewProduct)

  const NoWalletMessage := "Wallet not connected. Please connect your wallet first."

  /** The `addProduct` arguments `handleSubmit` builds from a valid form:
      the parsed id and the trimmed text fields. File uploads are abstracted
      by `upload`, which maps a file to its content hash; the optional video
      becomes "" when none was picked. */
  function Arguments(f: Form, upload: File -> string): (a: Registry.NewProduct)
    requires FieldsOk(f)
    ensures ParseId(f.data.id) == Some(a.id) && a.id > 0
    ensures a.productName == Trim(f.data.productName) && a.productName != ""
    ensures a.artisanName == Trim(f.data.artisanName) && a.artisanName != ""
    ensures a.artisanAddress == Trim(f.data.artisanAddress)
    ensures a.village == Trim(f.data.village) && a.village != ""
    ensures a.district == Trim(f.data.district)
    ensures a.regency == Trim(f.data.regency)
    ensures a.province == Trim(f.data.province)
    ensures a.coordinates == Trim(f.data.coordinates)
    ensures a.technique == Trim(f.data.technique)
    ensures a.materials == Trim(f.data.materials)
    ensures a.description == Trim(f.data.description) && |a.description| >= 10
    ensures a.imageHash == upload(f.productImage.value)
    ensures a.artisanImageHash == upload(f.artisanImage.value)
    ensures a.videoHash == if f.video.Some? then upload(f.video.value) else ""
  {
    var d := f.data;
    FieldsOkMeans(f);
    Registry.NewProduct(
      ParseId(d.id).value,
      Trim(d.productName), Trim(d.artisanName), Trim(d.artisanAddress),
      Trim(d.village), Trim(d.district), Trim(d.regency), Trim(d.province),
      Trim(d.coordinates), Trim(d.technique), Trim(d.materials), Trim(d.description),
      upload(f.productImage.value),
      upload(f.artisanImage.value),
      if f.video.Some? then upload(f.video.value) else "")
  }

  /** The pre-checks of `handleSubmit`: validation first, then the wallet;
      only a valid form with a signer reaches the transaction. */
  function Submit(f: Form, hasSigner: bool, upload: File -> string): (r: Submission)
    ensures r.form == f.(errors := Validate(f))
    ensures !FieldsOk(f) ==> r.Invalid? && r.form.errors != map[]
    ensures FieldsOk(f) ==> r.form.errors == map[]
    ensures FieldsOk(f) && !hasSigner ==> r.NoWallet? && r.message == NoWalletMessage
    ensures r.Send? <==> FieldsOk(f) && hasSigner
    ensures r.Send? ==> r.args == Arguments(f, upload)
  {
    var v := ValidateForm(f);
    if !v.ok then Invalid(v.form)
    else if !hasSigner then NoWallet(v.form, NoWalletMessage)
    else Send(v.form, Arguments(f, upload))
  }

  /** What the form sends can never trip the contract's empty-name guard: an
      owner's submission reverts at most for a duplicate id. */
  lemma SubmissionPassesNameGuard(f: Form, hasSigner: bool, upload: File -> string,
                                  s: Registry.State, now: nat)
    requires Submit(f, hasSigner, upload).Send?
    ensures var a := Submit(f, hasSigner, upload).args;
      && Registry.AddProduct(s, s.owner, a, now) != Err(Registry.EmptyName)
      && (a.id !in s.products ==> Registry.AddProduct(s, s.owner, a, now).Ok?)
  {
    var a := Arguments(f, upload);
  }

  // ----- error mapping -----

  const UnexpectedMessage := "An unexpected error occurred"

  /** The `catch` block of `handleSubmit`: substrings are checked in priority
      order, then the raw message, then a fixed fallback. */
  function AddErrorMessage(t: Thrown): (m: string)
    ensures m != ""
    ensures t.NonErrorValue? ==> m == UnexpectedMessage
    ensures t.ErrorValue? && Contains(t.message, "user rejected") ==> m == "Transaction was rejected by user"
    ensures t.ErrorValue? && !Contains(t.message, "user rejected") && Contains(t.message, "insufficient funds") ==>
      m == "Insufficient funds for transaction"
    ensures (t.ErrorValue? && !Contains(t.message, "user rejected") && !Contains(t.message, "insufficient funds") &&
             Contains(t.message, "already exists")) ==> m == "Product ID already exists. Please use a different ID."
    ensures (t.ErrorValue? && !Contains(t.message, "user rejected") && !Contains(t.message, "insufficient funds") &&
             !Contains(t.message, "already exists")) ==> m == MessageOr(t, "Failed to add product. Please try again.")
  {
    match t
    case NonErrorValue => UnexpectedMessage
    case ErrorValue(msg) =>
      if Contains(msg, "user rejected") then "Transaction was rejected by user"
      else if Contains(msg, "insufficient funds") then "Insufficient funds for transaction"
      else if Contains(msg, "already exists") then "Product ID already exists. Please use a different ID."
      else MessageOr(t, "Failed to add product. Please try again.")
  }

  /** The submission flags around the transaction. */
  datatype SubmitState = SubmitState(isSubmitting: bool, submitError: Option<string>, submitSuccess: bool)

  /** The `try`/`catch`/`finally` of `handleSubmit` once the transaction was
      sent: `outcome` is `None` when it was mined and the thrown value
      otherwise. Whatever happened, the form is no longer submitting, and it
      reports either success or an error, never both. */
  function AfterSend(outcome: Option<Thrown>): (st: SubmitState)
    ensures !st.isSubmitting
    ensures st.submitSuccess <==> outcome.None?
    ensures st.submitError.Some? <==> outcome.Some?
    ensures outcome.Some? ==> st.submitError == Some(AddErrorMessage(outcome.value)) && st.submitError.value != ""
  {
    match outcome
    case None => SubmitState(false, None, true)
    case Some(t) => SubmitState(false, Some(AddErrorMessage(t)), false)
  }

  /** The contract's duplicate-id revert, however the provider wraps it,
      reaches the user as the form's own duplicate-id advice, unless the
      wrapped message also mentions a rejection or missing funds, which the
      handler checks first. */
  lemma DuplicateIdMessage(message: string)
    ensures Contains(message, Registry.Reason(Registry.IdExists)) &&
            !Contains(message, "user rejected") && !Contains(message, "insufficient funds") ==>
      AddErrorMessage(ErrorValue(message)) == "Product ID already exists. Please use a different ID."
  {
    if Contains(message, Registry.Reason(Registry.IdExists)) {
      assert OccursAt("Product ID already exists", "already exists", 11);
      ContainsTrans(message, "Product ID already exists", "already exists");
    }
  }

  /** The owner revert, however wrapped, is shown as the error's own message
      when the wrapping trips none of the handler's substring tests. */
  lemma NotOwnerMessage(message: string)
    ensures Contains(message, Registry.Reason(Registry.NotOwner)) &&
            !Contains(message, "user rejected") && !Contains(message, "insufficient funds") &&
            !Contains(message, "already exists") ==>
      AddErrorMessage(ErrorValue(message)) == message
    ensures AddErrorMessage(ErrorValue(Registry.Reason(Registry.NotOwner))) == Registry.Reason(Registry.NotOwner)
  {
    var owner := "Ownable: caller is not the owner";
    MissingCharNotContained(owner, "user rejected", 7);
    MissingCharNotContained(owner, "insufficient funds", 5);
    MissingCharNotContained(owner, "already exists", 9);
  }
}
