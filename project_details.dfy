/** The project detail page: three modals that patch one project (its
    status, its two totals, its artisan), the artisan picker's options and
    search filter, and the French status labels. */
module ProjectDetails {
  import opened Common
  import opened Text

  /** The parts of the loaded project the modals read. Amounts are kept as
      integers (see the README on floating point). */
  datatype Details = Details(status: string, totalWithoutVat: Option<int>, totalWithVat: Option<int>, artisanId: Option<string>)

  datatype Artisan = Artisan(id: string, firstName: string, lastName: string)

  /** An option of an antd `Select`. */
  datatype SelectOption = SelectOption(text: string, value: string)

  /** The body of `updateProject`: the route id and the fields to change. */
  datatype Patch = Patch(id: string, status: Option<string>, totalWithoutVat: Option<int>, totalWithVat: Option<int>, artisanId: Option<string>)

  /** How one modal's OK ends: no request (with the warning shown, if any),
      or a request that succeeded or failed. */
  datatype UpdateOutcome = NotSent(warning: Option<string>) | Succeeded(patch: Patch) | Failed(patch: Patch, message: string)

  const MsgNoValue := "Please enter at least one value"
  const MsgNoArtisan := "Please select an artisan"

  // ---------------------------------------------------------------------
  // Status labels

  /** The status tag: "NEW" and "COMPLETED" have their own labels, every
      other value shows as in progress. */
  function StatusLabel(status: string): string {
    if status == "NEW" then "Estimé"
    else if status == "COMPLETED" then "Projet terminé "
    else "Projet en cours"
  }

  /** The status picker's choices. */
  const StatusOptions := [
    SelectOption("Estimé", "NEW"),
    SelectOption("Projet terminé ", "COMPLETED"),
    SelectOption("Projet en cours", "ACCEPTED")]

  /** Each choice of the picker carries the label the tag shows for its
      value, and the three labels differ. */
  lemma StatusLabelsAgree()
    ensures forall i :: 0 <= i < |StatusOptions| ==> StatusLabel(StatusOptions[i].value) == StatusOptions[i].text
    ensures StatusOptions[0].text != StatusOptions[1].text && StatusOptions[1].text != StatusOptions[2].text
      && StatusOptions[0].text != StatusOptions[2].text
  {
    assert StatusOptions[0].text[0] == 'E';
    assert StatusOptions[1].text[7] == 't' && StatusOptions[2].text[7] == 'e';
    assert StatusOptions[0].text != StatusOptions[2].text by {
      assert StatusOptions[2].text[0] == 'P';
    }
  }

  // ---------------------------------------------------------------------
  // Amounts

  /** The amount inputs' `onChange(val || undefined)`: a cleared input and
      a typed 0 both become "not set". */
  function AmountInput(val: Option<int>): Option<int> {
    if val.Some? && val.value != 0 then val else None
  }

  /** The VAT modal's patch fields: exactly the totals that are set. */
  function VatPatch(id: string, withoutVat: Option<int>, withVat: Option<int>): Patch {
    Patch(id, None, withoutVat, withVat, None)
  }

  /** `handleVatUpdate`'s decision: silent without a route id, a warning
      when neither total is set, otherwise the patch. */
  function VatResult(routeId: Option<string>, withoutVat: Option<int>, withVat: Option<int>, api: ApiResult): UpdateOutcome {
    if !Truthy(routeId) then NotSent(None)
    else if withoutVat.None? && withVat.None? then NotSent(Some(MsgNoValue))
    else
      var patch := VatPatch(routeId.value, withoutVat, withVat);
      if api.ApiOk? then Succeeded(patch) else Failed(patch, "Failed to update values")
  }

  /** A request is made exactly when there is a route id and at least one
      total is set; it carries exactly the set totals and nothing else. A
      typed 0 is never sent, but a 0 loaded from the project is. */
  lemma VatRule(routeId: Option<string>, withoutVat: Option<int>, withVat: Option<int>, api: ApiResult)
    ensures VatResult(routeId, withoutVat, withVat, api).NotSent? <==> !Truthy(routeId) || (withoutVat.None? && withVat.None?)
    ensures Truthy(routeId) && withoutVat.None? && withVat.None? ==> VatResult(routeId, withoutVat, withVat, api) == NotSent(Some("Please enter at least one value"))
    ensures !VatResult(routeId, withoutVat, withVat, api).NotSent? ==>
      var p := VatResult(routeId, withoutVat, withVat, api).patch;
      p.id == routeId.value && p.totalWithoutVat == withoutVat && p.totalWithVat == withVat && p.status.None? && p.artisanId.None?
    ensures AmountInput(Some(0)).None? && AmountInput(None).None?
    ensures Truthy(routeId) ==> !VatResult(routeId, Some(0), None, api).NotSent?
  {
  }

  // ---------------------------------------------------------------------
  // Status and artisan

  function StatusResult(routeId: Option<string>, selected: Option<string>, api: ApiResult): UpdateOutcome {
    if !Truthy(routeId) || !Truthy(selected) then NotSent(None)
    else
      var patch := Patch(routeId.value, selected, None, None, None);
      if api.ApiOk? then Succeeded(patch) else Failed(patch, "Failed to update status")
  }

  function ArtisanResult(routeId: Option<string>, selected: Option<string>, api: ApiResult): UpdateOutcome {
    if !Truthy(routeId) || !Truthy(selected) then NotSent(Some(MsgNoArtisan))
    else
      var patch := Patch(routeId.value, None, None, None, selected);
      if api.ApiOk? then Succeeded(patch) else Failed(patch, "Failed to assign artisan")
  }

  /** The status and artisan modals send a request exactly when both the
      route id and a choice are present, and the patch changes only that one
      field; a missing artisan is warned about, a missing status is not. */
  lemma StatusAndArtisanRule(routeId: Option<string>, selected: Option<string>, api: ApiResult)
    ensures StatusResult(routeId, selected, api).NotSent? <==> !(Truthy(routeId) && Truthy(selected))
    ensures ArtisanResult(routeId, selected, api).NotSent? <==> !(Truthy(routeId) && Truthy(selected))
    ensures StatusResult(routeId, selected, api).NotSent? ==> StatusResult(routeId, selected, api).warning.None?
    ensures ArtisanResult(routeId, selected, api).NotSent? ==> ArtisanResult(routeId, selected, api).warning == Some("Please select an artisan")
    ensures !StatusResult(routeId, selected, api).NotSent? ==>
      StatusResult(routeId, selected, api).patch == Patch(routeId.value, selected, None, None, None)
    ensures !ArtisanResult(routeId, selected, api).NotSent? ==>
      ArtisanResult(routeId, selected, api).patch == Patch(routeId.value, None, None, None, selected)
  {
  }

  /** `artisanOptions`: one option per artisan, in order, labelled with the
      full name and valued with the id. */
  function ArtisanOptions(artisans: seq<Artisan>): (r: seq<SelectOption>)
    ensures |r| == |artisans|
    ensures forall i :: 0 <= i < |artisans| ==>
      r[i].value == artisans[i].id && r[i].text == artisans[i].firstName + " " + artisans[i].lastName
  {
    if artisans == [] then []
    else
      var a := artisans[0];
      [SelectOption(a.firstName + " " + a.lastName, a.id)] + ArtisanOptions(artisans[1..])
  }

  /** The picker's `filterOption`, applied to the option's label: the
      lower-cased label includes the lower-cased input. */
  function FilterOption(input: string, optionText: string): bool {
    Includes(Lower(optionText), Lower(input))
  }

  /** The filter is a case-insensitive substring test: it keeps an option
      exactly when the lower-cased input occurs somewhere in the lower-cased
      label; an empty input keeps every option, and typing an artisan's first
      name in any case keeps that artisan. */
  lemma FilterOptionRule(input: string, optionText: string, a: Artisan)
    ensures FilterOption(input, optionText) ==> exists i :: OccursAt(Lower(optionText), Lower(input), i)
    ensures (exists i :: OccursAt(Lower(optionText), Lower(input), i)) ==> FilterOption(input, optionText)
    ensures FilterOption("", optionText)
    ensures FilterOption(a.firstName, a.firstName + " " + a.lastName)
  {
    IncludesIff(Lower(optionText), Lower(input));
    IncludesEmptyAndSelf(Lower(optionText));
    var caption := a.firstName + " " + a.lastName;
    LowerAppend(a.firstName, " " + a.lastName);
    assert StartsWith(Lower(caption), Lower(a.firstName));
    IncludesPrefix(Lower(caption), Lower(a.firstName));
  }

  // ---------------------------------------------------------------------
  // The page

  class ProjectDetailsPage {
    /** The `:id` route parameter. */
    const routeId: Option<string>
    var statusModalOpen: bool
    var vatModalOpen: bool
    var artisanModalOpen: bool
    var selectedStatus: Option<string>
    var totalWithoutVat: Option<int>
    var totalWithVat: Option<int>
    var selectedArtisanId: Option<string>

    constructor (routeId: Option<string>)
      ensures this.routeId == routeId
      ensures !statusModalOpen && !vatModalOpen && !artisanModalOpen
      ensures selectedStatus.None? && totalWithoutVat.None? && totalWithVat.None? && selectedArtisanId.None?
    {
      this.routeId := routeId;
      statusModalOpen := false;
      vatModalOpen := false;
      artisanModalOpen := false;
      selectedStatus := None;
      totalWithoutVat := None;
      totalWithVat := None;
      selectedArtisanId := None;
    }

    /** `openStatusModal`: preselects the loaded status, if loaded. */
    method OpenStatusModal(details: Option<Details>)
      modifies this
      ensures statusModalOpen
      ensures selectedStatus == if details.Some? then Some(details.value.status) else old(selectedStatus)
      ensures vatModalOpen == old(vatModalOpen) && artisanModalOpen == old(artisanModalOpen)
      ensures totalWithoutVat == old(totalWithoutVat) && totalWithVat == old(totalWithVat) && selectedArtisanId == old(selectedArtisanId)
    {
      if details.Some? {
        selectedStatus := Some(details.value.status);
      }
      statusModalOpen := true;
    }

    /** `openVatModal`: copies both loaded totals, set or not. */
    method OpenVatModal(details: Option<Details>)
      modifies this
      ensures vatModalOpen
      ensures details.Some? ==> totalWithoutVat == details.value.totalWithoutVat && totalWithVat == details.value.totalWithVat
      ensures details.None? ==> totalWithoutVat == old(totalWithoutVat) && totalWithVat == old(totalWithVat)
      ensures statusModalOpen == old(statusModalOpen) && artisanModalOpen == old(artisanModalOpen)
      ensures selectedStatus == old(selectedStatus) && selectedArtisanId == old(selectedArtisanId)
    {
      if details.Some? {
        totalWithoutVat := details.value.totalWithoutVat;
        totalWithVat := details.value.totalWithVat;
      }
      vatModalOpen := true;
    }

    /** `openArtisanModal`: preselects the assigned artisan, if any. */
    method OpenArtisanModal(details: Option<Details>)
      modifies this
      ensures artisanModalOpen
      ensures selectedArtisanId == if details.Some? && details.value.artisanId.Some? then details.value.artisanId else old(selectedArtisanId)
      ensures statusModalOpen == old(statusModalOpen) && vatModalOpen == old(vatModalOpen)
      ensures selectedStatus == old(selectedStatus) && totalWithoutVat == old(totalWithoutVat) && totalWithVat == old(totalWithVat)
    {
      if details.Some? && details.value.artisanId.Some? {
        selectedArtisanId := details.value.artisanId;
      }
      artisanModalOpen := true;
    }

    method SelectStatus(status: Option<string>)
      modifies this
      ensures selectedStatus == status
      ensures statusModalOpen == old(statusModalOpen) && vatModalOpen == old(vatModalOpen) && artisanModalOpen == old(artisanModalOpen)
      ensures totalWithoutVat == old(totalWithoutVat) && totalWithVat == old(totalWithVat) && selectedArtisanId == old(selectedArtisanId)
    {
      selectedStatus := status;
    }

    /** The "without VAT" input. */
    method ChangeTotalWithoutVat(val: Option<int>)
      modifies this
      ensures totalWithoutVat == AmountInput(val)
      ensures statusModalOpen == old(statusModalOpen) && vatModalOpen == old(vatModalOpen) && artisanModalOpen == old(artisanModalOpen)
      ensures selectedStatus == old(selectedStatus) && totalWithVat == old(totalWithVat) && selectedArtisanId == old(selectedArtisanId)
    {
      totalWithoutVat := AmountInput(val);
    }

    /** The "with VAT" input. */
    method ChangeTotalWithVat(val: Option<int>)
      modifies this
      ensures totalWithVat == AmountInput(val)
      ensures statusModalOpen == old(statusModalOpen) && vatModalOpen == old(vatModalOpen) && artisanModalOpen == old(artisanModalOpen)
      ensures selectedStatus == old(selectedStatus) && totalWithoutVat == old(totalWithoutVat) && selectedArtisanId == old(selectedArtisanId)
    {
      totalWithVat := AmountInput(val);
    }

    method SelectArtisan(id: Option<string>)
      modifies this
      ensures selectedArtisanId == id
      ensures statusModalOpen == old(statusModalOpen) && vatModalOpen == old(vatModalOpen) && artisanModalOpen == old(artisanModalOpen)
      ensures selectedStatus == old(selectedStatus) && totalWithoutVat == old(totalWithoutVat) && totalWithVat == old(totalWithVat)
    {
      selectedArtisanId := id;
    }

    /** `handleStatusUpdate`: a success closes the modal and keeps the
        selection. */
    method UpdateStatus(api: ApiResult) returns (outcome: UpdateOutcome)
      modifies this
      ensures outcome == StatusResult(routeId, old(selectedStatus), api)
      ensures statusModalOpen == (old(statusModalOpen) && !outcome.Succeeded?)
      ensures vatModalOpen == old(vatModalOpen) && artisanModalOpen == old(artisanModalOpen) && selectedStatus == old(selectedStatus)
      ensures totalWithoutVat == old(totalWithoutVat) && totalWithVat == old(totalWithVat) && selectedArtisanId == old(selectedArtisanId)
    {
      if !Truthy(routeId) || !Truthy(selectedStatus) {
        return NotSent(None);
      }
      var patch := Patch(routeId.value, selectedStatus, None, None, None);
      if api.ApiError? {
        return Failed(patch, "Failed to update status");
      }
      statusModalOpen := false;
      return Succeeded(patch);
    }

    /** `handleVatUpdate`: a success closes the modal and clears both totals. */
    method UpdateVat(api: ApiResult) returns (outcome: UpdateOutcome)
      modifies this
      ensures outcome == VatResult(routeId, old(totalWithoutVat), old(totalWithVat), api)
      ensures outcome.Succeeded? ==> !vatModalOpen && totalWithoutVat.None? && totalWithVat.None?
      ensures !outcome.Succeeded? ==> vatModalOpen == old(vatModalOpen) && totalWithoutVat == old(totalWithoutVat) && totalWithVat == old(totalWithVat)
      ensures statusModalOpen == old(statusModalOpen) && artisanModalOpen == old(artisanModalOpen)
      ensures selectedStatus == old(selectedStatus) && selectedArtisanId == old(selectedArtisanId)
    {
      if !Truthy(routeId) {
        return NotSent(None);
      }
      var patch := Patch(routeId.value, None, None, None, None);
      if totalWithoutVat.Some? {
        patch := patch.(totalWithoutVat := totalWithoutVat);
      }
      if totalWithVat.Some? {
        patch := patch.(totalWithVat := totalWithVat);
      }
      if patch.totalWithoutVat.None? && patch.totalWithVat.None? {
        return NotSent(Some(MsgNoValue));
      }
      if api.ApiError? {
        return Failed(patch, "Failed to update values");
      }
      vatModalOpen := false;
      totalWithoutVat := None;
      totalWithVat := None;
      return Succeeded(patch);
    }

    /** `handleArtisanUpdate`: a success closes the modal and clears the
        selection. */
    method UpdateArtisan(api: ApiResult) returns (outcome: UpdateOutcome)
      modifies this
      ensures outcome == ArtisanResult(routeId, old(selectedArtisanId), api)
      ensures outcome.Succeeded? ==> !artisanModalOpen && selectedArtisanId.None?
      ensures !outcome.Succeeded? ==> artisanModalOpen == old(artisanModalOpen) && selectedArtisanId == old(selectedArtisanId)
      ensures statusModalOpen == old(statusModalOpen) && vatModalOpen == old(vatModalOpen)
      ensures selectedStatus == old(selectedStatus) && totalWithoutVat == old(totalWithoutVat) && totalWithVat == old(totalWithVat)
    {
      if !Truthy(routeId) || !Truthy(selectedArtisanId) {
        return NotSent(Some(MsgNoArtisan));
      }
      var patch := Patch(routeId.value, None, None, None, selectedArtisanId);
      if api.ApiError? {
        return Failed(patch, "Failed to assign artisan");
      }
      artisanModalOpen := false;
      selectedArtisanId := None;
      return Succeeded(patch);
    }

    /** The status modal's cancel. */
    method CancelStatus()
      modifies this
      ensures !statusModalOpen && selectedStatus.None?
      ensures vatModalOpen == old(vatModalOpen) && artisanModalOpen == old(artisanModalOpen)
      ensures totalWithoutVat == old(totalWithoutVat) && totalWithVat == old(totalWithVat) && selectedArtisanId == old(selectedArtisanId)
    {
      statusModalOpen := false;
      selectedStatus := None;
    }

    /** The VAT modal's cancel. */
    method CancelVat()
      modifies this
      ensures !vatModalOpen && totalWithoutVat.None? && totalWithVat.None?
      ensures statusModalOpen == old(statusModalOpen) && artisanModalOpen == old(artisanModalOpen)
      ensures selectedStatus == old(selectedStatus) && selectedArtisanId == old(selectedArtisanId)
    {
      vatModalOpen := false;
      totalWithoutVat := None;
      totalWithVat := None;
    }

    /** The artisan modal's cancel. */
    method CancelArtisan()
      modifies this
      ensures !artisanModalOpen && selectedArtisanId.None?
      ensures statusModalOpen == old(statusModalOpen) && vatModalOpen == old(vatModalOpen)
      ensures selectedStatus == old(selectedStatus) && totalWithoutVat == old(totalWithoutVat) && totalWithVat == old(totalWithVat)
    {
      artisanModalOpen := false;
      selectedArtisanId := None;
    }
  }
}
