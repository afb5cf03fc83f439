/** The product-input form: its mode tab, its field values, field-by-field
    editing, and the input it submits (mode B drops the link). */
module ProductForm {

  import opened Wrappers
  import opened Types
  import GeminiService
  import Text

  /** Mode A scans a link; mode B takes manual data. */
  datatype FormMode = ModeA | ModeB

  /** The `name` attribute of each input of the form. */
  datatype Field = Name | ProductLink | Description | Category | Price | TargetAudience | Country | Platform

  /** The value a field holds in `data`. */
  function FieldValue(data: ProductInput, f: Field): Option<string>
  {
    match f
    case Name => Some(data.name)
    case ProductLink => data.productLink
    case Description => Some(data.description)
    case Category => Some(data.category)
    case Price => Some(data.price)
    case TargetAudience => Some(data.targetAudience)
    case Country => Some(data.country)
    case Platform => Some(data.platform)
  }

  /** `{ ...prev, [name]: value }`: `value` is stored under field `f` and every
      other field keeps its value. */
  function SetField(data: ProductInput, f: Field, value: string): (r: ProductInput)
    ensures FieldValue(r, f) == Some(value)
    ensures forall g :: g != f ==> FieldValue(r, g) == FieldValue(data, g)
  {
    match f
    case Name => data.(name := value)
    case ProductLink => data.(productLink := Some(value))
    case Description => data.(description := value)
    case Category => data.(category := value)
    case Price => data.(price := value)
    case TargetAudience => data.(targetAudience := value)
    case Country => data.(country := value)
    case Platform => data.(platform := value)
  }

  /** The form's starting values: every field empty, the link included. */
  const EmptyInput: ProductInput := ProductInput("", Some(""), "", "", "", "", "", "")

  /** `submissionData`: in mode B the link is cleared; in mode A the form's
      values are sent as they are. */
  function Submission(mode: FormMode, data: ProductInput): (r: ProductInput)
    ensures mode == ModeA ==> r == data
    ensures mode == ModeB ==> FieldValue(r, ProductLink) == Some("")
    ensures forall g :: g != ProductLink ==> FieldValue(r, g) == FieldValue(data, g)
  {
    if mode == ModeB then data.(productLink := Some("")) else data
  }

  /** The inputs marked `required` on each tab: the link and the name on
      mode A; on mode B the name, category, description, price, audience,
      country and platform (mode A's country input is optional). */
  function RequiredFields(mode: FormMode): seq<Field>
  {
    if mode == ModeA then [ProductLink, Name]
    else [Name, Category, Description, Price, TargetAudience, Country, Platform]
  }

  /** A required input is satisfied by any non-empty value. */
  predicate Filled(data: ProductInput, f: Field)
  {
    FieldValue(data, f).Some? && FieldValue(data, f).value != ""
  }

  /** The browser lets the form submit only when every required input on the
      visible tab is filled in. */
  predicate Submittable(mode: FormMode, data: ProductInput): (ok: bool)
    ensures mode == ModeA ==>
              (ok <==> data.productLink.Some? && data.productLink.value != "" && data.name != "")
    ensures mode == ModeB ==>
              (ok <==> data.name != "" && data.category != "" && data.description != ""
                       && data.price != "" && data.targetAudience != ""
                       && data.country != "" && data.platform != "")
  {
    var req := RequiredFields(mode);
    assert Name in req;
    assert mode == ModeA ==> ProductLink in req;
    assert mode == ModeB ==> Category in req && Description in req && Price in req
                             && TargetAudience in req && Country in req && Platform in req;
    forall f <- req :: Filled(data, f)
  }

  /** A freshly opened form cannot be submitted on either tab. */
  lemma EmptyFormNotSubmittable(mode: FormMode)
    ensures !Submittable(mode, EmptyInput)
  {
  }

  /** Switching tabs after filling mode B's inputs leaves a form that mode A
      rejects until a link is typed, unless one was typed earlier. */
  lemma ModeARequiresLink(data: ProductInput)
    ensures Submittable(ModeA, data) ==> Submission(ModeA, data).productLink != Some("")
    ensures Submittable(ModeB, data) && data.productLink == Some("") ==> !Submittable(ModeA, data)
  {
  }

  /** A mode-B submission is always analysed in the manual mode, whatever
      link was typed before switching. */
  lemma ModeBSubmissionIsManual(data: ProductInput)
    ensures !GeminiService.IsModeA(Submission(ModeB, data))
    ensures GeminiService.BuildPrompt(Submission(ModeB, data)).productLink == "N/A"
  {
  }

  /** A mode-A submission is analysed in the link mode exactly when the typed
      link is not blank. */
  lemma ModeASubmissionFollowsLink(data: ProductInput)
    ensures GeminiService.IsModeA(Submission(ModeA, data)) <==>
            data.productLink.Some? && !Text.Blank(data.productLink.value)
  {
  }

  /** The state of one form: the selected tab and the typed values. */
  class FormState {
    var mode: FormMode
    var formData: ProductInput

    /** The form opens on mode A with every field empty. */
    constructor ()
      ensures mode == ModeA && formData == EmptyInput
    {
      mode := ModeA;
      formData := EmptyInput;
    }

    /** `handleChange`: typing into field `f` changes that field only. */
    method HandleChange(f: Field, value: string)
      modifies this
      ensures formData == SetField(old(formData), f, value)
      ensures mode == old(mode)
    {
      formData := SetField(formData, f, value);
    }

    /** `setMode`: switching tabs keeps every typed value. */
    method SetMode(m: FormMode)
      modifies this
      ensures mode == m && formData == old(formData)
    {
      mode := m;
    }

    /** `handleSubmit`: nothing is handed to the analysis while a required
        input is empty; otherwise the form's submission for its tab is; the
        form itself is unchanged. */
    method HandleSubmit() returns (submitted: Option<ProductInput>)
      ensures submitted.Some? <==> Submittable(mode, formData)
      ensures submitted.Some? ==> submitted.value == Submission(mode, formData)
      ensures submitted.Some? && mode == ModeA ==> submitted.value.productLink != Some("")
      ensures submitted.Some? && mode == ModeB ==> !GeminiService.IsModeA(submitted.value)
    {
      if !Submittable(mode, formData) {
        submitted := None;
      } else if mode == ModeB {
        submitted := Some(formData.(productLink := Some("")));
      } else {
        submitted := Some(formData);
      }
    }
  }
}
