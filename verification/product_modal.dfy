/**
 The older "register product" modal: its own validation rules (minimum
 lengths, an image given either as a picked file or as a URL), its image
 guard, the pre-checks of its submission and its error mapping. The modal
 calls a `registerProduct` function with seven arguments, which is not part
 of the registry modelled in `Registry`.
 */
module ProductModal {
  import opened Outcomes
  import opened Text
  import opened Media
  import Registry

  datatype FormData = FormData(
    productName: string,
    artisanName: string,
    technique: string,
    village: string,
    description: string,
    imageUrl: string,
    productionDate: string)

  /** The keys of the modal's error map (`imageUrl` holds the image error). */
  datatype Field =
    | NameField | ArtisanField | TechniqueField | VillageField
    | DescriptionField | DateField | ImageField

  datatype Modal = Modal(data: FormData, imageFile: Option<File>, errors: map<Field, string>)

  // ----- validateForm -----

  /** Whether `validateForm` flags `k`. */
  predicate Fails(m: Modal, k: Field)
  {
    match k
    case NameField => |Trim(m.data.productName)| < 3
    case ArtisanField => |Trim(m.data.artisanName)| < 3
    case TechniqueField => Trim(m.data.technique) == ""
    case VillageField => Trim(m.data.village) == ""
    case DescriptionField => |Trim(m.data.description)| < 10
    case DateField => m.data.productionDate == ""
    case ImageField => m.imageFile.None? && Trim(m.data.imageUrl) == ""
  }

  /** The message `validateForm` records for `k`: a blank name, artisan or
      description is "required", a short one is "too short". */
  function Message(m: Modal, k: Field): string
  {
    match k
    case NameField =>
      if Trim(m.data.productName) == "" then "Product name is required"
      else "Product name must be at least 3 characters"
    case ArtisanField =>
      if Trim(m.data.artisanName) == "" then "Artisan name is required"
      else "Artisan name must be at least 3 characters"
    case TechniqueField => "Technique is required"
    case VillageField => "Village/Location is required"
    case DescriptionField =>
      if Trim(m.data.description) == "" then "Description is required"
      else "Description must be at least 10 characters"
    case DateField => "Production date is required"
    case ImageField => "Product image is required"
  }

  const AllFields: set<Field> := {NameField, ArtisanField, TechniqueField, VillageField,
                                  DescriptionField, DateField, ImageField}

  /** `validateForm`'s error map: one non-empty message per failed check. */
  function Validate(m: Modal): (errors: map<Field, string>)
    ensures forall k :: k in errors <==> Fails(m, k)
    ensures forall k :: k in errors ==> errors[k] == Message(m, k) && errors[k] != ""
  {
    map k | k in AllFields && Fails(m, k) :: Message(m, k)
  }

  /** The checks field by field, with "required" meaning "nothing but
      spaces": a name or artisan is required and then needs three characters
      once trimmed; technique and village are required; a description is
      required and then needs ten characters; the image is missing only when
      no file was picked and the URL is blank. */
  lemma ValidateFields(m: Modal)
    ensures NameField in Validate(m) <==> |Trim(m.data.productName)| < 3
    ensures NameField in Validate(m) ==>
      (Validate(m)[NameField] == "Product name is required" <==> AllSpace(m.data.productName))
    ensures ArtisanField in Validate(m) <==> |Trim(m.data.artisanName)| < 3
    ensures ArtisanField in Validate(m) ==>
      (Validate(m)[ArtisanField] == "Artisan name is required" <==> AllSpace(m.data.artisanName))
    ensures TechniqueField in Validate(m) <==> AllSpace(m.data.technique)
    ensures VillageField in Validate(m) <==> AllSpace(m.data.village)
    ensures DescriptionField in Validate(m) <==> |Trim(m.data.description)| < 10
    ensures DescriptionField in Validate(m) ==>
      (Validate(m)[DescriptionField] == "Description is required" <==> AllSpace(m.data.description))
    ensures DateField in Validate(m) <==> m.data.productionDate == ""
    ensures ImageField in Validate(m) <==> m.imageFile.None? && AllSpace(m.data.imageUrl)
  {
    var e := Validate(m);
    assert NameField in e <==> Fails(m, NameField);
    assert ArtisanField in e <==> Fails(m, ArtisanField);
    assert TechniqueField in e <==> Fails(m, TechniqueField);
    assert VillageField in e <==> Fails(m, VillageField);
    assert DescriptionField in e <==> Fails(m, DescriptionField);
    assert DateField in e <==> Fails(m, DateField);
    assert ImageField in e <==> Fails(m, ImageField);
    TrimEmptyIff(m.data.productName);
    TrimEmptyIff(m.data.artisanName);
    TrimEmptyIff(m.data.technique);
    TrimEmptyIff(m.data.village);
    TrimEmptyIff(m.data.description);
    TrimEmptyIff(m.data.imageUrl);
  }

  /** Every check of `validateForm` passes. */
  predicate FieldsOk(m: Modal)
  {
    && !Fails(m, NameField) && !Fails(m, ArtisanField) && !Fails(m, TechniqueField)
    && !Fails(m, VillageField) && !Fails(m, DescriptionField) && !Fails(m, DateField)
    && !Fails(m, ImageField)
  }

  datatype Validation = Validation(ok: bool, modal: Modal)

  /** `validateForm`: the errors replace the previous ones, and the modal is
      valid exactly when no error was recorded. */
  function ValidateForm(m: Modal): (v: Validation)
    ensures v.modal == m.(errors := Validate(m))
    ensures v.ok <==> v.modal.errors == map[]
    ensures v.ok <==> FieldsOk(m)
  {
    var errors := Validate(m);
    if FieldsOk(m) then
      Validation(true, m.(errors := errors))
    else
      var k :| Fails(m, k);
      assert k in errors;
      Validation(false, m.(errors := errors))
  }

  // ----- image picker -----

  /** `handleImageChange`: with no file nothing happens; a rejected file
      only sets the image error and keeps the previous file; an accepted file
      becomes the selection and the image error is cleared. */
  function HandleImageChange(m: Modal, file: Option<File>): (r: Modal)
    ensures file.None? ==> r == m
    ensures r.data == m.data
    ensures file.Some? && CheckImage(file.value) != Accepted ==>
      r.imageFile == m.imageFile && ImageField in r.errors && r.errors[ImageField] != ""
    ensures file.Some? && CheckImage(file.value) == Accepted ==>
      r.imageFile == file && r.errors == m.errors - {ImageField}
    ensures file.Some? && CheckImage(file.value) == WrongType ==>
      r.errors[ImageField] == "Please select a valid image file"
    ensures file.Some? && CheckImage(file.value) == TooLarge ==>
      r.errors[ImageField] == "Image size must be less than 5MB"
    ensures r.errors - {ImageField} == m.errors - {ImageField}
  {
    match file
    case None => m
    case Some(x) =>
      match CheckImage(x)
      case WrongType => m.(errors := m.errors[ImageField := "Please select a valid image file"])
      case TooLarge => m.(errors := m.errors[ImageField := "Image size must be less than 5MB"])
      case Accepted => m.(imageFile := file, errors := m.errors - {ImageField})
  }

  // ----- handleSubmit -----

  /** The arguments of the modal's `registerProduct` call. */
  datatype RegisterArgs = RegisterArgs(
    productName: string,
    artisanName: string,
    technique: string,
    village: string,
    description: string,
    imageUrl: string,
    productionDate: int)

  datatype Submission =
    | Invalid(modal: Modal)
    | NoWallet(modal: Modal, message: string)
    | Send(modal: Modal, args: RegisterArgs)

  const NoWalletMessage := "Wallet not connected. Please connect your wallet first."

  /** The pre-checks of `handleSubmit` and the call's arguments. The picked
      file, when there is one, is uploaded by `upload` and replaces the typed
      URL, which is otherwise passed untrimmed; `timestamp` is the production
      date already converted to Unix seconds. */
  function Submit(m: Modal, hasSigner: bool, upload: File -> string, timestamp: int): (r: Submission)
    ensures r.modal == m.(errors := Validate(m))
    ensures !FieldsOk(m) ==> r.Invalid? && r.modal.errors != map[]
    ensures FieldsOk(m) ==> r.modal.errors == map[]
    ensures FieldsOk(m) && !hasSigner ==> r.NoWallet? && r.message == NoWalletMessage
    ensures r.Send? <==> FieldsOk(m) && hasSigner
    ensures r.Send? ==>
      && r.args.productName == Trim(m.data.productName) && |r.args.productName| >= 3
      && r.args.artisanName == Trim(m.data.artisanName) && |r.args.artisanName| >= 3
      && r.args.technique == Trim(m.data.technique) && r.args.technique != ""
      && r.args.village == Trim(m.data.village) && r.args.village != ""
      && r.args.description == Trim(m.data.description) && |r.args.description| >= 10
      && r.args.productionDate == timestamp
      && (m.imageFile.Some? ==> r.args.imageUrl == upload(m.imageFile.value))
      && (m.imageFile.None? ==> r.args.imageUrl == m.data.imageUrl && Trim(r.args.imageUrl) != "")
  {
    var v := ValidateForm(m);
    if !v.ok then Invalid(v.modal)
    else if !hasSigner then NoWallet(v.modal, NoWalletMessage)
    else
      var d := m.data;
      Send(v.modal, RegisterArgs(
        Trim(d.productName), Trim(d.artisanName), Trim(d.technique), Trim(d.village),
        Trim(d.description),
        if m.imageFile.Some? then upload(m.imageFile.value) else d.imageUrl,
        timestamp))
  }

  // ----- error mapping -----

  /** The `catch` block of `handleSubmit`: like the add form's, without the
      duplicate-id case and with its own fallback. */
  function RegisterErrorMessage(t: Thrown): (msg: string)
    ensures msg != ""
    ensures t.NonErrorValue? ==> msg == "An unexpected error occurred"
    ensures t.ErrorValue? && Contains(t.message, "user rejected") ==> msg == "Transaction was rejected by user"
    ensures (t.ErrorValue? && !Contains(t.message, "user rejected") && Contains(t.message, "insufficient funds")) ==>
            msg == "Insufficient funds for transaction"
    ensures (t.ErrorValue? && !Contains(t.message, "user rejected") && !Contains(t.message, "insufficient funds")) ==>
            msg == MessageOr(t, "Failed to register product. Please try again.")
  {
    match t
    case NonErrorValue => "An unexpected error occurred"
    case ErrorValue(message) =>
      if Contains(message, "user rejected") then "Transaction was rejected by user"
      else if Contains(message, "insufficient funds") then "Insufficient funds for transaction"
      else MessageOr(t, "Failed to register product. Please try again.")
  }

  /** Unlike the add form, the modal has no duplicate-id case: a duplicate
      reason, however wrapped, is shown as the error's own message when the
      wrapping trips neither substring test. */
  lemma DuplicateReasonPassesThrough(message: string)
    ensures Contains(message, Registry.Reason(Registry.IdExists)) &&
            !Contains(message, "user rejected") && !Contains(message, "insufficient funds") ==>
      RegisterErrorMessage(ErrorValue(message)) == message
    ensures RegisterErrorMessage(ErrorValue(Registry.Reason(Registry.IdExists))) == Registry.Reason(Registry.IdExists)
  {
    MissingCharNotContained("Product ID already exists", "user rejected", 7);
    MissingCharNotContained("Product ID already exists", "insufficient funds", 5);
  }

  /** The submission flags after the transaction was sent: `outcome` is
      `None` when it was mined. Success closes the modal; failure keeps it
      open with an error; either way it is no longer submitting. */
  datatype Completion = Completion(isSubmitting: bool, submitError: Option<string>, closed: bool)

  function AfterSend(outcome: Option<Thrown>): (c: Completion)
    ensures !c.isSubmitting
    ensures c.closed <==> outcome.None?
    ensures outcome.Some? ==> c.submitError == Some(RegisterErrorMessage(outcome.value))
    ensures outcome.None? ==> c.submitError.None?
  {
    match outcome
    case None => Completion(false, None, true)
    case Some(t) => Completion(false, Some(RegisterErrorMessage(t)), false)
  }
}
