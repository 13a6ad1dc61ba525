/** The add / edit form (src/components/PartForm.tsx): five fields seeded from the part being edited,
    a submit handler that converts the two number fields and clears the form once the caller
    accepts, and an image picker that checks the file and its encoded form before using it. */
module PartForm {
  import opened Parts
  import TextFilter

  /** The text of an `<input type="number">`: empty, or the number typed. */
  datatype NumField = Blank | Entered(n: int)

  datatype FormData = FormData(
    name: string,
    description: string,
    quantity: NumField,
    price: NumField,
    imageUrl: string)

  const EmptyForm := FormData("", "", Blank, Blank, "")

  /** `Number(field)`: an empty number field reads as 0. */
  function ToNumber(f: NumField): int
  {
    match f
    case Blank => 0
    case Entered(n) => n
  }

  /** `value || ''` for a number: 0 is falsy, so a zero shows as an empty field. */
  function ShownNumber(n: int): (f: NumField)
    ensures ToNumber(f) == n
    ensures f == Blank <==> n == 0
  {
    if n == 0 then Blank else Entered(n)
  }

  /** The `useState` seed: the edited part's fields, or an empty form when adding. */
  function InitialForm(initial: Option<Part>): FormData
  {
    match initial
    case None => EmptyForm
    case Some(p) => FormData(p.name, p.description, ShownNumber(p.quantity), ShownNumber(p.price), p.imageUrl)
  }

  /** The object handed to `onSubmit`. */
  function Payload(form: FormData): (d: Draft)
    ensures d.name == form.name && d.description == form.description && d.imageUrl == form.imageUrl
    ensures d.quantity == ToNumber(form.quantity) && d.price == ToNumber(form.price)
  {
    Draft(form.name, form.description, ToNumber(form.quantity), ToNumber(form.price), form.imageUrl)
  }

  /** What the browser lets through to the submit handler: every field is `required`, and the two
      number fields have `min="0"`. */
  predicate Submittable(form: FormData)
  {
    && form.name != ""
    && form.description != ""
    && form.quantity.Entered? && form.quantity.n >= 0
    && form.price.Entered? && form.price.n >= 0
  }

  /** A form the browser submits sends a draft with non-empty text and non-negative numbers. */
  lemma SubmittedDraftIsWellFormed(form: FormData)
    requires Submittable(form)
    ensures var d := Payload(form);
      d.name != "" && d.description != "" && d.quantity >= 0 && d.price >= 0
  {
  }

  /** Opening the edit form and submitting it untouched sends back the part's own fields. */
  lemma EditRoundTrip(p: Part)
    ensures Payload(InitialForm(Some(p))) == Draft(p.name, p.description, p.quantity, p.price, p.imageUrl)
  {
  }

  /** An untouched edit therefore rewrites the stored part to itself. */
  lemma UntouchedEditChangesNothing(p: Part)
    ensures ApplyPatch(p, DraftPatch(Payload(InitialForm(Some(p))))) == p
  {
    EditRoundTrip(p);
  }

  /** Editing a sold-out part starts with an empty quantity field, which the browser will not submit
      until a number is typed again. */
  lemma SoldOutEditStartsBlank(p: Part)
    requires p.quantity == 0
    ensures InitialForm(Some(p)).quantity == Blank
    ensures !Submittable(InitialForm(Some(p)))
  {
  }

  /** A file chosen in the picker. */
  datatype ImageFile = ImageFile(size: int, mimeType: string)

  /** How a pick ends: the checks made before reading, then the check of the encoded text. */
  datatype ImageOutcome = NoFile | FileTooLarge | NotAnImage | EncodedTooLarge | Accepted

  const MaxFileSize: int := 5 * 1024 * 1024
  const MaxEncodedLength: int := 1024 * 1024

  function Alert(outcome: ImageOutcome): Option<string>
  {
    match outcome
    case FileTooLarge => Some("Arquivo muito grande. Tamanho máximo: 5MB")
    case NotAnImage => Some("Por favor, selecione apenas imagens")
    case EncodedTooLarge => Some("Imagem muito grande após conversão. Por favor, use uma imagem menor.")
    case _ => None
  }

  /** The checks of `handleImageChange`, in their order; `encoded` is the data URL the file reader
      produces for the file. */
  function CheckImage(file: Option<ImageFile>, encoded: string): ImageOutcome
  {
    if file.None? then NoFile
    else if file.value.size > MaxFileSize then FileTooLarge
    else if !TextFilter.StartsWith(file.value.mimeType, "image/") then NotAnImage
    else if |encoded| > MaxEncodedLength then EncodedTooLarge
    else Accepted
  }

  /** An image is used exactly when a file was chosen, it is at most 5 MB, its type is an image
      type and its data URL is at most a million characters; every refusal but "no file" alerts. */
  lemma CheckImageSpec(file: Option<ImageFile>, encoded: string)
    ensures CheckImage(file, encoded) == Accepted <==>
      && file.Some?
      && file.value.size <= MaxFileSize
      && |file.value.mimeType| >= 6 && file.value.mimeType[..6] == "image/"
      && |encoded| <= MaxEncodedLength
    ensures Alert(CheckImage(file, encoded)).None? <==> CheckImage(file, encoded) in {NoFile, Accepted}
    ensures CheckImage(file, encoded) == EncodedTooLarge ==> file.Some? && file.value.size <= MaxFileSize
  {
  }

  /** The form's state: the five fields and the image preview. */
  class Form {
    var formData: FormData
    var previewUrl: string

    constructor (initial: Option<Part>)
      ensures formData == InitialForm(initial)
      ensures previewUrl == if initial.Some? then initial.value.imageUrl else ""
    {
      formData := InitialForm(initial);
      previewUrl := if initial.Some? then initial.value.imageUrl else "";
    }

    method SetName(value: string)
      modifies this`formData
      ensures formData == old(formData).(name := value)
    {
      formData := formData.(name := value);
    }

    method SetDescription(value: string)
      modifies this`formData
      ensures formData == old(formData).(description := value)
    {
      formData := formData.(description := value);
    }

    method SetQuantity(value: NumField)
      modifies this`formData
      ensures formData == old(formData).(quantity := value)
    {
      formData := formData.(quantity := value);
    }

    method SetPrice(value: NumField)
      modifies this`formData
      ensures formData == old(formData).(price := value)
    {
      formData := formData.(price := value);
    }

    /** `handleSubmit`: the converted fields go to `onSubmit` (the returned `payload`); when the promise
        `onSubmit` returns resolves the form and the preview are cleared, when it rejects both stay as
        they were. */
    method HandleSubmit(onSubmitRejects: bool) returns (payload: Draft)
      modifies this
      ensures payload == Payload(old(formData))
      ensures !onSubmitRejects ==> formData == EmptyForm && previewUrl == ""
      ensures onSubmitRejects ==> formData == old(formData) && previewUrl == old(previewUrl)
    {
      payload := Draft(formData.name, formData.description, ToNumber(formData.quantity),
                       ToNumber(formData.price), formData.imageUrl);
      if !onSubmitRejects {
        formData := EmptyForm;
        previewUrl := "";
      }
    }

    /** `handleImageChange` together with the reader's `onloadend`: an accepted image becomes both
        the part's image and the preview; any refusal changes nothing. */
    method HandleImageChange(file: Option<ImageFile>, encoded: string) returns (outcome: ImageOutcome)
      modifies this
      ensures outcome == CheckImage(file, encoded)
      ensures outcome == Accepted ==> formData == old(formData).(imageUrl := encoded) && previewUrl == encoded
      ensures outcome != Accepted ==> formData == old(formData) && previewUrl == old(previewUrl)
    {
      if file.None? {
        return NoFile;
      }
      if file.value.size > MaxFileSize {
        return FileTooLarge;
      }
      if !TextFilter.StartsWith(file.value.mimeType, "image/") {
        return NotAnImage;
      }
      if |encoded| > MaxEncodedLength {
        return EncodedTooLarge;
      }
      formData := formData.(imageUrl := encoded);
      previewUrl := encoded;
      outcome := Accepted;
    }
  }
}
