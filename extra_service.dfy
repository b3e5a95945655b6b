/** The extra-service question editor (`AddExtraServiceModal`): a draft
    question with its answer options or its numeric pricing, the handlers that
    edit the draft, and the submit that validates it and builds the multipart
    request. */
module ExtraService {
  import opened Common
  import opened Text
  import Lists

  datatype QuestionType = SingleChoice | MultipleChoice | ImageName | NumberInput

  /** The source's type admits FIXED and PERCENTAGE, but the modifier selector
      also offers MULTIPLIER, so all three can be stored. */
  datatype ModifierType = Fixed | Percentage | Multiplier

  datatype PricingType = Flat | Tiered

  /** `max` is `None` for an open-ended tier (the input was cleared). */
  datatype Tier = Tier(max: Option<int>, pricePerUnit: int)

  /** The source's `{type, pricePerUnit?, tiers?}` record, kept as a record
      because handlers spread it and hydration copies it from the server. */
  datatype PricingConfig = PricingConfig(kind: PricingType, pricePerUnit: Option<int>, tiers: Option<seq<Tier>>)

  /** An option's image: none, an already hosted path, or a file picked in
      this session. */
  datatype OptionImage = NoImage | Hosted(path: string) | Pending(file: File)

  datatype AnswerOption = AnswerOption(id: Option<string>, text: string, image: OptionImage, modifierValue: int, modifierType: ModifierType)

  /** One field write of `handleOptionChange(index, field, value)`. */
  datatype OptionField =
    | SetText(text: string)
    | SetImage(image: OptionImage)
    | SetModifierValue(value: int)
    | SetModifierType(kind: ModifierType)

  /** One field write of `handleUpdateTier(index, field, value)`. */
  datatype TierField = SetMax(max: Option<int>) | SetTierPrice(price: int)

  /** A question as the server returns it. */
  datatype PersistedOption = PersistedOption(id: string, text: string, image: Option<string>, modifierValue: int, modifierType: ModifierType)
  datatype PersistedQuestion = PersistedQuestion(
    id: string, categoryId: string, text: string, questionType: QuestionType,
    options: seq<PersistedOption>, pricingConfig: Option<PricingConfig>)

  /** The editor's four state fields as one value. */
  datatype Draft = Draft(questionText: string, questionType: QuestionType, options: seq<AnswerOption>, pricing: PricingConfig)

  const BlankOption := AnswerOption(None, "", NoImage, 0, Fixed)
  const DefaultPricing := PricingConfig(Flat, Some(0), None)
  const OpenTier := Tier(None, 0)

  /** Why `handleSubmit` stops before any request is made. */
  datatype Refusal = BlankQuestion | NoPricing | BlankOptionText | MissingOptionImage | NoCategory {
    /** The error toast shown for the refusal. */
    function Message(): string {
      match this
      case BlankQuestion => "Please enter question text"
      case NoPricing => "Please configure pricing"
      case BlankOptionText => "All options must have text"
      case MissingOptionImage => "All options must have images for IMAGE_NAME type"
      case NoCategory => "Category not selected"
    }
  }

  const MsgFailed := "Operation failed"
  const MsgKeepOneOption := "At least one option is required"

  // ---------------------------------------------------------------------
  // Pricing configuration

  /** `handleUpdatePricingType`: a fresh configuration of the chosen kind. */
  function FreshPricing(kind: PricingType): PricingConfig {
    match kind
    case Flat => DefaultPricing
    case Tiered => PricingConfig(Tiered, None, Some([OpenTier]))
  }

  /** `handleUpdateFlatPrice` */
  function FlatPricing(price: int): PricingConfig {
    PricingConfig(Flat, Some(price), None)
  }

  /** `handleAddTier`: the configuration with one open tier appended. */
  function WithAddedTier(c: PricingConfig): PricingConfig {
    c.(tiers := Some(c.tiers.GetOr([]) + [OpenTier]))
  }

  function ApplyTierField(t: Tier, f: TierField): Tier {
    match f
    case SetMax(m) => t.(max := m)
    case SetTierPrice(p) => t.(pricePerUnit := p)
  }

  predicate TierIndexOk(c: PricingConfig, index: int) {
    c.tiers.Some? ==> 0 <= index < |c.tiers.value|
  }

  /** `handleUpdateTier`: nothing without tiers; otherwise one field of one tier. */
  function WithUpdatedTier(c: PricingConfig, index: int, f: TierField): PricingConfig
    requires TierIndexOk(c, index)
  {
    if c.tiers.None? then c
    else c.(tiers := Some(c.tiers.value[index := ApplyTierField(c.tiers.value[index], f)]))
  }

  /** Switching pricing kind discards the previous configuration entirely:
      two drafts that differ only in their pricing are equal after the same
      switch, whatever their old tiers or flat price were. A switch to flat
      leaves no tiers behind and a switch to tiered no flat price. */
  lemma FreshPricingForgets(d1: Draft, d2: Draft, kind: PricingType)
    requires d1.(pricing := d2.pricing) == d2
    ensures d1.(pricing := FreshPricing(kind)) == d2.(pricing := FreshPricing(kind))
    ensures FreshPricing(kind).kind == kind
    ensures kind == Flat ==> FreshPricing(kind).tiers.None? && FreshPricing(kind).pricePerUnit == Some(0)
    ensures kind == Tiered ==> FreshPricing(kind).pricePerUnit.None? && FreshPricing(kind).tiers == Some([OpenTier])
  {
  }

  /** Adding a tier appends one open tier after the existing ones and changes
      nothing else. */
  lemma AddTierAppends(c: PricingConfig)
    ensures var r := WithAddedTier(c);
      && r.kind == c.kind && r.pricePerUnit == c.pricePerUnit && r.tiers.Some?
      && |r.tiers.value| == |c.tiers.GetOr([])| + 1
      && r.tiers.value[..|c.tiers.GetOr([])|] == c.tiers.GetOr([])
      && r.tiers.value[|c.tiers.GetOr([])|] == Tier(None, 0)
  {
  }

  /** Updating a tier touches only the named field of the tier at `index`;
      the number of tiers never changes, so no tier is ever removed. */
  lemma UpdateTierIsLocal(c: PricingConfig, index: int, f: TierField)
    requires c.tiers.Some? && 0 <= index < |c.tiers.value|
    ensures var r := WithUpdatedTier(c, index, f);
      && r.kind == c.kind && r.pricePerUnit == c.pricePerUnit
      && r.tiers.Some? && |r.tiers.value| == |c.tiers.value|
      && (forall j :: 0 <= j < |c.tiers.value| && j != index ==> r.tiers.value[j] == c.tiers.value[j])
      && (f.SetMax? ==> r.tiers.value[index] == Tier(f.max, c.tiers.value[index].pricePerUnit))
      && (f.SetTierPrice? ==> r.tiers.value[index] == Tier(c.tiers.value[index].max, f.price))
  {
  }

  // ---------------------------------------------------------------------
  // Answer options

  function ApplyOptionField(o: AnswerOption, f: OptionField): AnswerOption {
    match f
    case SetText(t) => o.(text := t)
    case SetImage(img) => o.(image := img)
    case SetModifierValue(v) => o.(modifierValue := v)
    case SetModifierType(k) => o.(modifierType := k)
  }

  /** `handleImageUpload`: the upload entry's fresh file, or no image when the
      entry is gone or has no file. */
  function UploadedImage(entry: Option<UploadEntry>): OptionImage {
    if entry.Some? && entry.value.originFile.Some? then Pending(entry.value.originFile.value) else NoImage
  }

  /** `handleRemoveOption`'s new list and warning: the option at `index` is
      dropped when more than one exists; otherwise the list stays and the
      operator is warned. */
  function RemovedOption(options: seq<AnswerOption>, index: int): (seq<AnswerOption>, Option<string>) {
    if |options| > 1 then (Lists.RemoveAt(options, index), None) else (options, Some(MsgKeepOneOption))
  }

  /** Removing an option never empties a non-empty list, and when it removes
      it removes exactly the option at `index`. */
  lemma RemoveOptionKeepsOne(options: seq<AnswerOption>, index: int)
    ensures |options| >= 1 ==> |RemovedOption(options, index).0| >= 1
    ensures |options| > 1 && 0 <= index < |options| ==>
      RemovedOption(options, index).0 == options[..index] + options[index + 1..]
    ensures |options| <= 1 ==> RemovedOption(options, index) == (options, Some(MsgKeepOneOption))
  {
  }

  // ---------------------------------------------------------------------
  // Hydration

  function FromPersisted(o: PersistedOption): AnswerOption {
    AnswerOption(Some(o.id), o.text, if Truthy(o.image) then Hosted(o.image.value) else NoImage, o.modifierValue, o.modifierType)
  }

  function FromPersistedAll(os: seq<PersistedOption>): (r: seq<AnswerOption>)
    ensures |r| == |os| && forall i :: 0 <= i < |os| ==> r[i] == FromPersisted(os[i])
  {
    if os == [] then [] else [FromPersisted(os[0])] + FromPersistedAll(os[1..])
  }

  /** The effect run when the modal opens: an edited question is copied in,
      a new one starts blank. */
  function Hydrated(service: Option<PersistedQuestion>): Draft {
    match service
    case None => Draft("", SingleChoice, [BlankOption], DefaultPricing)
    case Some(q) =>
      if q.questionType == NumberInput && q.pricingConfig.Some? then
        Draft(q.text, q.questionType, [], q.pricingConfig.value)
      else
        Draft(q.text, q.questionType, FromPersistedAll(q.options), DefaultPricing)
  }

  /** Hydration's three cases. */
  lemma HydrationCases(service: Option<PersistedQuestion>)
    ensures service.None? ==> Hydrated(service) == Draft("", SingleChoice, [AnswerOption(None, "", NoImage, 0, Fixed)], PricingConfig(Flat, Some(0), None))
    ensures service.Some? ==> Hydrated(service).questionText == service.value.text && Hydrated(service).questionType == service.value.questionType
    ensures service.Some? && service.value.questionType == NumberInput && service.value.pricingConfig.Some? ==>
      Hydrated(service).options == [] && Hydrated(service).pricing == service.value.pricingConfig.value
    ensures service.Some? && !(service.value.questionType == NumberInput && service.value.pricingConfig.Some?) ==>
      var q := service.value; var d := Hydrated(service);
      && d.pricing == PricingConfig(Flat, Some(0), None)
      && |d.options| == |q.options|
      && forall i :: 0 <= i < |q.options| ==>
           && d.options[i].id == Some(q.options[i].id) && d.options[i].text == q.options[i].text
           && d.options[i].modifierValue == q.options[i].modifierValue && d.options[i].modifierType == q.options[i].modifierType
           && (d.options[i].image == NoImage <==> !Truthy(q.options[i].image))
  {
  }

  // ---------------------------------------------------------------------
  // Validation

  /** `!opt.optionImage`: no image, or an empty hosted path. */
  predicate HasImage(img: OptionImage) {
    match img
    case NoImage => false
    case Hosted(p) => p != ""
    case Pending(_) => true
  }

  predicate MissingTiers(c: PricingConfig) {
    c.kind == Tiered && (c.tiers.None? || |c.tiers.value| == 0)
  }

  /** `options.some(opt => !opt.optionText.trim())`; a text trims to ""
      exactly when it is all whitespace (`Text.TrimEmptyIffAllSpace`). */
  predicate SomeBlankText(os: seq<AnswerOption>) {
    exists i :: 0 <= i < |os| && AllSpace(os[i].text)
  }

  /** `options.some(opt => !opt.optionImage)` */
  predicate SomeImageless(os: seq<AnswerOption>) {
    exists i :: 0 <= i < |os| && !HasImage(os[i].image)
  }

  /** The early-return checks of `handleSubmit`, in order: the refusal shown
      when the draft is refused, or `None` when it may be sent. */
  function Validate(d: Draft): Option<Refusal> {
    if AllSpace(d.questionText) then Some(BlankQuestion)
    else if d.questionType == NumberInput then
      if MissingTiers(d.pricing) then Some(NoPricing) else None
    else if SomeBlankText(d.options) then Some(BlankOptionText)
    else if d.questionType == ImageName && SomeImageless(d.options) then Some(MissingOptionImage)
    else None
  }

  /** The draft is refused for its question text exactly when that text
      trims to "", as in the source's `!questionText.trim()`; an option text
      counts as blank exactly when it trims to "". */
  lemma BlankMeansTrimmedEmpty(d: Draft)
    ensures Validate(d) == Some(BlankQuestion) <==> Trim(d.questionText) == ""
    ensures SomeBlankText(d.options) <==> exists i :: 0 <= i < |d.options| && Trim(d.options[i].text) == ""
  {
    TrimEmptyIffAllSpace(d.questionText);
    forall i | 0 <= i < |d.options| ensures AllSpace(d.options[i].text) <==> Trim(d.options[i].text) == "" {
      TrimEmptyIffAllSpace(d.options[i].text);
    }
  }

  /** A numeric question passes with flat pricing whatever its price, and
      with tiered pricing exactly when there is at least one tier, whatever
      the tiers hold; the options are not looked at. */
  lemma NumberInputPricingRule(d: Draft)
    requires d.questionType == NumberInput && Trim(d.questionText) != ""
    ensures d.pricing.kind == Flat ==> Validate(d) == None
    ensures d.pricing.kind == Tiered ==>
      (Validate(d) == None <==> d.pricing.tiers.Some? && |d.pricing.tiers.value| >= 1)
  {
    TrimEmptyIffAllSpace(d.questionText);
  }

  /** Any freshly switched-to pricing kind passes validation. */
  lemma FreshPricingValid(d: Draft, kind: PricingType)
    requires d.questionType == NumberInput && Trim(d.questionText) != ""
    ensures Validate(d.(pricing := FreshPricing(kind))) == None
  {
    NumberInputPricingRule(d.(pricing := FreshPricing(kind)));
  }

  /** For a choice question: refused when some option's text is blank, and
      for an image question also when some option has no image; accepted when
      every option has text (and, for images, an image). */
  lemma ChoiceOptionRules(d: Draft)
    requires d.questionType != NumberInput && !AllSpace(d.questionText)
    ensures (exists i :: 0 <= i < |d.options| && AllSpace(d.options[i].text)) ==> Validate(d) == Some(BlankOptionText)
    ensures (forall i :: 0 <= i < |d.options| ==> !AllSpace(d.options[i].text)) ==>
      (d.questionType == ImageName && (exists i :: 0 <= i < |d.options| && !HasImage(d.options[i].image)) ==> Validate(d) == Some(MissingOptionImage))
      && (d.questionType == ImageName && (forall i :: 0 <= i < |d.options| ==> HasImage(d.options[i].image)) ==> Validate(d) == None)
      && (d.questionType != ImageName ==> Validate(d) == None)
  {
  }

  /** A new draft is refused until its question text is filled in. */
  lemma NewDraftRefused()
    ensures Validate(Hydrated(None)) == Some(BlankQuestion)
  {
  }

  /** An image question opened for editing in which a persisted option has
      no image is refused, so no request is made. */
  lemma EditedImageQuestionMissingImageRefused(q: PersistedQuestion, k: int)
    requires q.questionType == ImageName && !AllSpace(q.text)
    requires 0 <= k < |q.options| && !Truthy(q.options[k].image)
    ensures Validate(Hydrated(Some(q))).Some?
  {
    var d := Hydrated(Some(q));
    assert d.options == FromPersistedAll(q.options);
    assert d.options[k] == FromPersisted(q.options[k]);
    assert !HasImage(d.options[k].image);
    ChoiceOptionRules(d);
  }

  // ---------------------------------------------------------------------
  // Serialisation

  /** One element of `data.options` in the request: `optionImage` only when
      the image is an already hosted path. */
  datatype WireOption = WireOption(id: Option<string>, text: string, modifierValue: int, modifierType: ModifierType, image: Option<string>)

  datatype FieldName = QuestionTextField | QuestionTypeField | PricingConfigField | DataField | OptionImageField(index: nat) | CategoryIdField

  /** A multipart value; the JSON strings are kept as the values they encode. */
  datatype FieldValue = TextValue(text: string) | PricingJson(config: PricingConfig) | OptionsJson(options: seq<WireOption>) | FileValue(file: File)

  datatype FormEntry = FormEntry(name: FieldName, value: FieldValue)

  datatype Request = CreateQuestion(form: seq<FormEntry>) | UpdateQuestion(id: string, form: seq<FormEntry>)

  /** What `handleSubmit` ends in: refused before any request, or a request
      that succeeded (the modal is then asked to close) or failed. */
  datatype SubmitOutcome = Refused(reason: Refusal) | Succeeded(request: Request) | Failed(request: Request, message: string)

  function TypeName(t: QuestionType): string {
    match t
    case SingleChoice => "SINGLE_CHOICE"
    case MultipleChoice => "MULTIPLE_CHOICE"
    case ImageName => "IMAGE_NAME"
    case NumberInput => "NUMBER_INPUT"
  }

  function ToWire(o: AnswerOption): WireOption {
    WireOption(o.id, o.text, o.modifierValue, o.modifierType, if o.image.Hosted? then Some(o.image.path) else None)
  }

  function WireOptions(os: seq<AnswerOption>): (r: seq<WireOption>)
    ensures |r| == |os| && forall i :: 0 <= i < |os| ==> r[i] == ToWire(os[i])
  {
    if os == [] then [] else [ToWire(os[0])] + WireOptions(os[1..])
  }

  /** The text fields and the JSON payload, before any file part. */
  function PayloadEntries(d: Draft): seq<FormEntry> {
    [FormEntry(QuestionTextField, TextValue(d.questionText)), FormEntry(QuestionTypeField, TextValue(TypeName(d.questionType)))]
    + if d.questionType == NumberInput then
        [FormEntry(PricingConfigField, PricingJson(d.pricing)), FormEntry(DataField, OptionsJson([]))]
      else
        [FormEntry(DataField, OptionsJson(WireOptions(d.options)))]
  }

  /** The `optionImages[i]` parts for the options that hold a picked file. */
  function ImageParts(os: seq<AnswerOption>): seq<FormEntry> {
    if os == [] then []
    else
      var last := os[|os| - 1];
      ImageParts(os[..|os| - 1])
      + if last.image.Pending? then [FormEntry(OptionImageField(|os| - 1), FileValue(last.image.file))] else []
  }

  /** The form of `handleSubmit` before the category id. */
  function QuestionForm(d: Draft): seq<FormEntry> {
    PayloadEntries(d) + if d.questionType == ImageName then ImageParts(d.options) else []
  }

  /** `handleSubmit` as a whole: validation, serialisation, then update when a
      persisted question is edited, or create when a category is known. */
  function SubmitResult(d: Draft, service: Option<PersistedQuestion>, categoryId: Option<string>, api: ApiResult): SubmitOutcome {
    if Validate(d).Some? then Refused(Validate(d).value)
    else if service.None? && !Truthy(categoryId) then Refused(NoCategory)
    else
      var request :=
        if service.Some? then UpdateQuestion(service.value.id, QuestionForm(d))
        else CreateQuestion(QuestionForm(d) + [FormEntry(CategoryIdField, TextValue(categoryId.value))]);
      if api.ApiOk? then Succeeded(request) else Failed(request, ErrorText(api, MsgFailed))
  }

  /** A file part `optionImages[i]` is sent exactly for the options at
      position `i` holding a picked file, with that file. */
  lemma {:induction false} ImagePartsExact(os: seq<AnswerOption>, i: nat, f: File)
    ensures FormEntry(OptionImageField(i), FileValue(f)) in ImageParts(os) <==> i < |os| && os[i].image == Pending(f)
  {
    if os != [] {
      var init := os[..|os| - 1];
      ImagePartsExact(init, i, f);
      if i < |init| {
        assert os[i] == init[i];
      }
    }
  }

  /** File parts carry only `optionImages[...]` names. */
  lemma {:induction false} ImagePartsNamesOnly(os: seq<AnswerOption>, e: FormEntry)
    requires e in ImageParts(os)
    ensures e.name.OptionImageField? && e.value.FileValue?
  {
    if os != [] {
      if e in ImageParts(os[..|os| - 1]) {
        ImagePartsNamesOnly(os[..|os| - 1], e);
      }
    }
  }

  /** A hosted image travels as `optionImage` inside `data`, a picked file
      never does; option order, ids, texts and modifiers are kept. */
  lemma WireOptionsMirror(os: seq<AnswerOption>)
    ensures |WireOptions(os)| == |os|
    ensures forall i :: 0 <= i < |os| ==>
      && WireOptions(os)[i].id == os[i].id && WireOptions(os)[i].text == os[i].text
      && WireOptions(os)[i].modifierValue == os[i].modifierValue && WireOptions(os)[i].modifierType == os[i].modifierType
      && (WireOptions(os)[i].image.Some? <==> os[i].image.Hosted?)
  {
  }

  /** Only the create request carries `categoryId`, as its last field and
      with the opening category; an update never sends it. */
  lemma CategoryIdOnlyOnCreate(d: Draft, service: Option<PersistedQuestion>, categoryId: Option<string>, api: ApiResult)
    requires !SubmitResult(d, service, categoryId, api).Refused?
    ensures var r := SubmitResult(d, service, categoryId, api).request;
      && (r.UpdateQuestion? <==> service.Some?)
      && (r.CreateQuestion? ==> r.form[|r.form| - 1] == FormEntry(CategoryIdField, TextValue(categoryId.value)))
      && (r.UpdateQuestion? ==> forall e :: e in r.form ==> e.name != CategoryIdField)
  {
    var form := QuestionForm(d);
    forall e | e in form ensures e.name != CategoryIdField {
      if e !in PayloadEntries(d) {
        ImagePartsNamesOnly(d.options, e);
      }
    }
  }

  /** A numeric question sends its pricing configuration unchanged and an
      empty `data.options`, and no file part. */
  lemma NumberInputSerialisation(d: Draft)
    requires d.questionType == NumberInput
    ensures QuestionForm(d) == [
      FormEntry(QuestionTextField, TextValue(d.questionText)),
      FormEntry(QuestionTypeField, TextValue("NUMBER_INPUT")),
      FormEntry(PricingConfigField, PricingJson(d.pricing)),
      FormEntry(DataField, OptionsJson([]))]
  {
  }

  /** A create-mode multiple-choice draft with two options is sent as one
      create request whose `data` lists both options in order. */
  lemma TwoOptionCreateExample(api: ApiResult)
    requires api.ApiOk?
    ensures var d := Draft("Flooring?", MultipleChoice,
                           [AnswerOption(None, "Laminate", NoImage, 10, Fixed), AnswerOption(None, "Oak", NoImage, 5, Percentage)],
                           DefaultPricing);
      SubmitResult(d, None, Some("cat-1"), api) == Succeeded(CreateQuestion([
        FormEntry(QuestionTextField, TextValue("Flooring?")),
        FormEntry(QuestionTypeField, TextValue("MULTIPLE_CHOICE")),
        FormEntry(DataField, OptionsJson([WireOption(None, "Laminate", 10, Fixed, None), WireOption(None, "Oak", 5, Percentage, None)])),
        FormEntry(CategoryIdField, TextValue("cat-1"))]))
  {
    var o1 := AnswerOption(None, "Laminate", NoImage, 10, Fixed);
    var o2 := AnswerOption(None, "Oak", NoImage, 5, Percentage);
    var d := Draft("Flooring?", MultipleChoice, [o1, o2], DefaultPricing);
    assert !IsSpace(d.questionText[0]);
    assert !IsSpace(o1.text[0]) && !IsSpace(o2.text[0]);
    ChoiceOptionRules(d);
    assert Validate(d) == None;
    assert WireOptions([o2]) == [ToWire(o2)];
    assert WireOptions(d.options) == [ToWire(o1), ToWire(o2)];
    assert QuestionForm(d) == PayloadEntries(d);
    assert PayloadEntries(d) == [
      FormEntry(QuestionTextField, TextValue("Flooring?")),
      FormEntry(QuestionTypeField, TextValue("MULTIPLE_CHOICE")),
      FormEntry(DataField, OptionsJson([ToWire(o1), ToWire(o2)]))];
    assert Truthy(Some("cat-1"));
    assert QuestionForm(d) + [FormEntry(CategoryIdField, TextValue("cat-1"))] == [
      FormEntry(QuestionTextField, TextValue("Flooring?")),
      FormEntry(QuestionTypeField, TextValue("MULTIPLE_CHOICE")),
      FormEntry(DataField, OptionsJson([WireOption(None, "Laminate", 10, Fixed, None), WireOption(None, "Oak", 5, Percentage, None)])),
      FormEntry(CategoryIdField, TextValue("cat-1"))];
    assert SubmitResult(d, None, Some("cat-1"), api) == Succeeded(CreateQuestion(QuestionForm(d) + [FormEntry(CategoryIdField, TextValue("cat-1"))]));
  }

  // ---------------------------------------------------------------------
  // The component

  class QuestionEditor {
    var questionText: string
    var questionType: QuestionType
    var options: seq<AnswerOption>
    var pricingConfig: PricingConfig
    /** The props: the category a new question goes to, and the question
        being edited (edit mode when present). */
    const categoryId: Option<string>
    const service: Option<PersistedQuestion>

    function Current(): Draft
      reads this
    {
      Draft(questionText, questionType, options, pricingConfig)
    }

    /** The `useState` initial values, before the opening effect runs. */
    constructor (categoryId: Option<string>, service: Option<PersistedQuestion>)
      ensures this.categoryId == categoryId && this.service == service
      ensures Current() == Draft("", SingleChoice, [], DefaultPricing)
    {
      this.categoryId := categoryId;
      this.service := service;
      questionText := "";
      questionType := SingleChoice;
      options := [];
      pricingConfig := DefaultPricing;
    }

    /** The effect on `[service, open]`. */
    method Hydrate()
      modifies this
      ensures Current() == Hydrated(service)
    {
      match service {
        case None =>
          questionText := "";
          questionType := SingleChoice;
          pricingConfig := DefaultPricing;
          options := [BlankOption];
        case Some(q) =>
          questionText := q.text;
          questionType := q.questionType;
          if q.questionType == NumberInput && q.pricingConfig.Some? {
            pricingConfig := q.pricingConfig.value;
            options := [];
          } else {
            pricingConfig := DefaultPricing;
            options := FromPersistedAll(q.options);
          }
      }
    }

    /** The question-text input, disabled while editing. */
    method ChangeQuestionText(text: string)
      modifies this
      ensures service.Some? ==> Current() == old(Current())
      ensures service.None? ==> Current() == old(Current()).(questionText := text)
    {
      if service.None? {
        questionText := text;
      }
    }

    /** The question-type selector, disabled while editing; options and
        pricing are left as they were. */
    method ChangeQuestionType(t: QuestionType)
      modifies this
      ensures service.Some? ==> Current() == old(Current())
      ensures service.None? ==> Current() == old(Current()).(questionType := t)
    {
      if service.None? {
        questionType := t;
      }
    }

    /** The pricing-type selector, disabled while editing. */
    method ChangePricingType(kind: PricingType)
      modifies this
      ensures service.Some? ==> Current() == old(Current())
      ensures service.None? ==> Current() == old(Current()).(pricing := FreshPricing(kind))
    {
      if service.None? {
        pricingConfig := FreshPricing(kind);
      }
    }

    method UpdateFlatPrice(price: int)
      modifies this
      ensures Current() == old(Current()).(pricing := FlatPricing(price))
    {
      pricingConfig := FlatPricing(price);
    }

    method AddTier()
      modifies this
      ensures Current() == old(Current()).(pricing := WithAddedTier(old(pricingConfig)))
    {
      pricingConfig := WithAddedTier(pricingConfig);
    }

    method UpdateTier(index: int, f: TierField)
      requires TierIndexOk(pricingConfig, index)
      modifies this
      ensures Current() == old(Current()).(pricing := WithUpdatedTier(old(pricingConfig), index, f))
    {
      if pricingConfig.tiers.Some? {
        var tiers := pricingConfig.tiers.value;
        tiers := tiers[index := ApplyTierField(tiers[index], f)];
        pricingConfig := pricingConfig.(tiers := Some(tiers));
      }
    }

    method AddOption()
      modifies this
      ensures Current() == old(Current()).(options := old(options) + [BlankOption])
    {
      options := options + [BlankOption];
    }

    method RemoveOption(index: int) returns (warning: Option<string>)
      modifies this
      ensures (options, warning) == RemovedOption(old(options), index)
      ensures Current() == old(Current()).(options := options)
    {
      if |options| > 1 {
        options := Lists.RemoveAt(options, index);
        warning := None;
      } else {
        warning := Some(MsgKeepOneOption);
      }
    }

    method ChangeOption(index: int, f: OptionField)
      requires 0 <= index < |options|
      modifies this
      ensures Current() == old(Current()).(options := old(options)[index := ApplyOptionField(old(options)[index], f)])
    {
      options := options[index := ApplyOptionField(options[index], f)];
    }

    method UploadOptionImage(index: int, entry: Option<UploadEntry>)
      requires 0 <= index < |options|
      modifies this
      ensures Current() == old(Current()).(options := old(options)[index := old(options)[index].(image := UploadedImage(entry))])
    {
      ChangeOption(index, SetImage(UploadedImage(entry)));
    }

    /** The validation block of `handleSubmit`: the first failing check's
        refusal, or `None`. */
    method CheckDraft() returns (error: Option<Refusal>)
      ensures error == Validate(Current())
    {
      if AllSpace(questionText) {
        return Some(BlankQuestion);
      }
      if questionType == NumberInput {
        if pricingConfig.kind == Tiered && (pricingConfig.tiers.None? || |pricingConfig.tiers.value| == 0) {
          return Some(NoPricing);
        }
        return None;
      }
      var i := 0;
      while i < |options|
        invariant 0 <= i <= |options|
        invariant forall j :: 0 <= j < i ==> !AllSpace(options[j].text)
      {
        if AllSpace(options[i].text) {
          assert SomeBlankText(options);
          return Some(BlankOptionText);
        }
        i := i + 1;
      }
      assert !SomeBlankText(options);
      if questionType == ImageName {
        i := 0;
        while i < |options|
          invariant 0 <= i <= |options|
          invariant forall j :: 0 <= j < i ==> HasImage(options[j].image)
        {
          if !HasImage(options[i].image) {
            assert SomeImageless(options);
            return Some(MissingOptionImage);
          }
          i := i + 1;
        }
        assert !SomeImageless(options);
      }
      return None;
    }

    /** The serialisation block of `handleSubmit`: the text fields, the JSON
        payload and, for an image question, one file part per picked file. */
    method BuildForm() returns (form: seq<FormEntry>)
      ensures form == QuestionForm(Current())
    {
      form := PayloadEntries(Current());
      if questionType == ImageName {
        var i := 0;
        while i < |options|
          invariant 0 <= i <= |options|
          invariant form == PayloadEntries(Current()) + ImageParts(options[..i])
        {
          assert options[..i + 1][..i] == options[..i];
          if options[i].image.Pending? {
            form := form + [FormEntry(OptionImageField(i), FileValue(options[i].image.file))];
          }
          i := i + 1;
        }
        assert options[..|options|] == options;
      }
    }

    /** `handleSubmit`: the draft is only read; the result says whether a
        request was made and how it ended. */
    method Submit(api: ApiResult) returns (outcome: SubmitOutcome)
      ensures outcome == SubmitResult(Current(), service, categoryId, api)
    {
      var error := CheckDraft();
      if error.Some? {
        return Refused(error.value);
      }
      var form := BuildForm();
      var request: Request;
      if service.Some? {
        request := UpdateQuestion(service.value.id, form);
      } else {
        if !Truthy(categoryId) {
          return Refused(NoCategory);
        }
        form := form + [FormEntry(CategoryIdField, TextValue(categoryId.value))];
        request := CreateQuestion(form);
      }
      if api.ApiOk? {
        outcome := Succeeded(request);
      } else {
        outcome := Failed(request, ErrorText(api, MsgFailed));
      }
    }
  }
}
