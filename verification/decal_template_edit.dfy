/**
 * The decal template edit page: loading a template into the form, the checks
 * an image file must pass before it is uploaded, clearing and replacing the
 * image, editing the two text fields, validation and the payload sent on
 * submit.
 */
module DecalTemplateEdit {
  import opened Options
  import opened Text

  /** A decal template as the API returns it. */
  datatype ApiTemplate = ApiTemplate(templateName: Option<string>, imageURL: Option<string>, decalTypeId: Option<string>)

  /** The form's three fields. */
  datatype DecalForm = DecalForm(templateName: string, imageURL: string, decalTypeId: string)

  /** The two inputs wired to the change handler; they are also the two fields that can carry an error. */
  datatype Field = TemplateName | DecalTypeId

  /** A file picked in the upload dialog: its MIME type and its size in bytes. */
  datatype ImageFile = ImageFile(mimeType: string, size: nat)

  /** What the pre-upload checks decide about a picked file. */
  datatype ImageCheck = NoFile | NotAnImage | TooLarge | Accepted

  /** What the request carries on submit. */
  datatype Payload = Payload(templateName: string, imageURL: Option<string>, decalTypeId: string)

  const MaxImageBytes := 5 * 1024 * 1024
  const ImageMimePrefix := "image/"
  const TemplateNameRequired := "Tên mẫu decal là bắt buộc"
  const DecalTypeRequired := "Vui lòng chọn loại decal"

  /** The form before a template is loaded. */
  const EmptyForm := DecalForm("", "", "")

  /** The form after loading: each missing or empty field becomes the empty string. */
  function LoadForm(t: ApiTemplate): (f: DecalForm)
    ensures Truthy(t.templateName) ==> f.templateName == t.templateName.value
    ensures Truthy(t.imageURL) ==> f.imageURL == t.imageURL.value
    ensures Truthy(t.decalTypeId) ==> f.decalTypeId == t.decalTypeId.value
    ensures !Truthy(t.templateName) ==> f.templateName == ""
    ensures !Truthy(t.imageURL) ==> f.imageURL == ""
    ensures !Truthy(t.decalTypeId) ==> f.decalTypeId == ""
  {
    DecalForm(OrElse(t.templateName, ""), OrElse(t.imageURL, ""), OrElse(t.decalTypeId, ""))
  }

  /**
   * The checks `handleImageUpload` makes before uploading, in order: a file
   * must be present, its type must start with "image/", and it may not exceed
   * 5 MiB.
   */
  function CheckImage(file: Option<ImageFile>): (r: ImageCheck)
    ensures r == NoFile <==> file.None?
    ensures r == NotAnImage <==> file.Some? && !StartsWith(file.value.mimeType, ImageMimePrefix)
    ensures r == TooLarge <==> file.Some? && StartsWith(file.value.mimeType, ImageMimePrefix) && file.value.size > MaxImageBytes
    ensures r == Accepted <==> file.Some? && StartsWith(file.value.mimeType, ImageMimePrefix) && file.value.size <= MaxImageBytes
  {
    match file
    case None => NoFile
    case Some(f) =>
      if !StartsWith(f.mimeType, ImageMimePrefix) then NotAnImage
      else if f.size > MaxImageBytes then TooLarge
      else Accepted
  }

  /** The bound is inclusive: exactly 5 MiB passes, one byte more does not. */
  lemma SizeBoundIsInclusive()
    ensures CheckImage(Some(ImageFile("image/png", 5242880))) == Accepted
    ensures CheckImage(Some(ImageFile("image/png", 5242881))) == TooLarge
  {
  }

  /** The type is checked first: an oversized file that is not an image is refused as not an image. */
  lemma TypeCheckedBeforeSize()
    ensures CheckImage(Some(ImageFile("application/pdf", 10 * 1024 * 1024))) == NotAnImage
  {
    assert "application/pdf"[0] != ImageMimePrefix[0];
  }

  /** A required field left blank, and the message shown under it. */
  function FormErrors(f: DecalForm): (errors: map<Field, string>)
    ensures TemplateName in errors <==> Trim(f.templateName) == ""
    ensures DecalTypeId in errors <==> f.decalTypeId == ""
    ensures forall k :: k in errors ==> errors[k] != ""
  {
    var nameErrors := if Trim(f.templateName) == "" then map[TemplateName := TemplateNameRequired] else map[];
    if f.decalTypeId == "" then nameErrors[DecalTypeId := DecalTypeRequired] else nameErrors
  }

  /** What submitting needs: a name that is not blank and a chosen decal type. */
  predicate Submittable(f: DecalForm) {
    Trim(f.templateName) != "" && f.decalTypeId != ""
  }

  /** The form has no errors exactly when it can be submitted. */
  lemma NoErrorsIffSubmittable(f: DecalForm)
    ensures |FormErrors(f)| == 0 <==> Submittable(f)
  {
    var errors := FormErrors(f);
    if !Submittable(f) {
      assert TemplateName in errors || DecalTypeId in errors;
    }
  }

  /** The payload: the name trimmed, an empty image URL sent as null, the decal type as it is. */
  function SubmitPayload(f: DecalForm): (p: Payload)
    ensures p.templateName == Trim(f.templateName)
    ensures p.imageURL.None? <==> f.imageURL == ""
    ensures p.imageURL.Some? ==> p.imageURL.value == f.imageURL
    ensures p.decalTypeId == f.decalTypeId
  {
    Payload(Trim(f.templateName), if f.imageURL == "" then None else Some(f.imageURL), f.decalTypeId)
  }

  /** A payload built from a valid form has a non-empty name without surrounding spaces and a decal type. */
  lemma ValidPayload(f: DecalForm)
    requires Submittable(f)
    ensures var p := SubmitPayload(f);
      p.templateName != "" && Trim(p.templateName) == p.templateName && p.decalTypeId != ""
  {
    TrimIdempotent(f.templateName);
  }

  /** The form with one input's new value; the other fields are kept. */
  function SetField(f: DecalForm, field: Field, value: string): (g: DecalForm)
    ensures field == TemplateName ==> g == f.(templateName := value)
    ensures field == DecalTypeId ==> g == f.(decalTypeId := value)
    ensures g.imageURL == f.imageURL
  {
    match field
    case TemplateName => f.(templateName := value)
    case DecalTypeId => f.(decalTypeId := value)
  }

  /** `errors[name]` is truthy: an error message is currently shown under the field. */
  predicate ErrorShown(errors: map<Field, string>, field: Field) {
    field in errors && errors[field] != ""
  }

  /** The page's state. */
  class DecalTemplateEditor {
    var form: DecalForm
    var errors: map<Field, string>
    var imageFile: Option<ImageFile>
    var imagePreview: Option<string>
    var isSubmitting: bool

    constructor()
      ensures form == EmptyForm && errors == map[]
      ensures imageFile == None && imagePreview == None && !isSubmitting
    {
      form := EmptyForm;
      errors := map[];
      imageFile := None;
      imagePreview := None;
      isSubmitting := false;
    }

    /** The template has arrived: fill the form, and show its image when it has one. */
    method LoadTemplate(t: ApiTemplate)
      modifies this
      ensures form == LoadForm(t)
      ensures imagePreview == if Truthy(t.imageURL) then t.imageURL else old(imagePreview)
      ensures errors == old(errors) && imageFile == old(imageFile) && isSubmitting == old(isSubmitting)
    {
      form := LoadForm(t);
      if Truthy(t.imageURL) {
        imagePreview := t.imageURL;
      }
    }

    /**
     * A file was picked. A refused file changes nothing. An accepted one is
     * previewed under `objectUrl` and uploaded: on success its URL becomes the
     * form's image URL, on failure the file and the preview are dropped again.
     */
    method HandleImageUpload(file: Option<ImageFile>, objectUrl: string, upload: Result<string, string>)
      returns (check: ImageCheck)
      modifies this
      ensures check == CheckImage(file)
      ensures check != Accepted ==> form == old(form) && imageFile == old(imageFile) && imagePreview == old(imagePreview)
      ensures check == Accepted && upload.Success? ==>
        form == old(form).(imageURL := upload.value) && imageFile == file && imagePreview == Some(objectUrl)
      ensures check == Accepted && upload.Failure? ==>
        form == old(form) && imageFile == None && imagePreview == None
      ensures errors == old(errors) && isSubmitting == old(isSubmitting)
    {
      check := CheckImage(file);
      if check != Accepted {
        return;
      }
      imageFile := file;
      imagePreview := Some(objectUrl);
      match upload {
        case Success(url) =>
          form := form.(imageURL := url);
        case Failure(_) =>
          imageFile := None;
          imagePreview := None;
      }
    }

    /** The remove button: no file, no preview, an empty image URL; the other fields stay. */
    method RemoveImage()
      modifies this
      ensures imageFile == None && imagePreview == None
      ensures form == old(form).(imageURL := "")
      ensures errors == old(errors) && isSubmitting == old(isSubmitting)
    {
      imageFile := None;
      imagePreview := None;
      form := form.(imageURL := "");
    }

    /** Typing in an input: only that field changes, and only a shown error of that field is cleared. */
    method HandleInputChange(field: Field, value: string)
      modifies this
      ensures form == SetField(old(form), field, value)
      ensures ErrorShown(old(errors), field) ==> errors == old(errors)[field := ""]
      ensures !ErrorShown(old(errors), field) ==> errors == old(errors)
      ensures !ErrorShown(errors, field)
      ensures forall k :: k != field ==> (k in errors <==> k in old(errors)) && (k in errors ==> errors[k] == old(errors)[k])
      ensures imageFile == old(imageFile) && imagePreview == old(imagePreview) && isSubmitting == old(isSubmitting)
    {
      form := SetField(form, field, value);
      if ErrorShown(errors, field) {
        errors := errors[field := ""];
      }
    }

    /** Records the errors of the current form, replacing the old ones; valid iff there are none. */
    method ValidateForm() returns (valid: bool)
      modifies this
      ensures errors == FormErrors(form)
      ensures valid <==> Submittable(form)
      ensures form == old(form) && imageFile == old(imageFile) && imagePreview == old(imagePreview)
      ensures isSubmitting == old(isSubmitting)
    {
      var newErrors: map<Field, string> := map[];
      if Trim(form.templateName) == "" {
        newErrors := newErrors[TemplateName := TemplateNameRequired];
      }
      if form.decalTypeId == "" {
        newErrors := newErrors[DecalTypeId := DecalTypeRequired];
      }
      errors := newErrors;
      valid := |newErrors| == 0;
      NoErrorsIffSubmittable(form);
    }

    /** Submitting: nothing is sent from an invalid form; a valid one sends its payload. */
    method HandleSubmit() returns (sent: Option<Payload>)
      modifies this
      ensures errors == FormErrors(form)
      ensures sent.Some? <==> Submittable(form)
      ensures sent.Some? ==> sent.value == SubmitPayload(form) && isSubmitting
      ensures sent.None? ==> isSubmitting == old(isSubmitting)
      ensures form == old(form) && imageFile == old(imageFile) && imagePreview == old(imagePreview)
    {
      var valid := ValidateForm();
      if !valid {
        return None;
      }
      isSubmitting := true;
      sent := Some(SubmitPayload(form));
    }
  }
}
