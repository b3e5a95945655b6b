/** The "our projects" page: a paged table of showcase projects and a
    modal form with a title, a description, an optional video link and two
    single-image upload slots (after and before). */
module OurProjects {
  import opened Common
  import opened Text

  datatype Project = Project(id: string, title: string, description: string, afterImage: string, beforeImage: string, videoLink: Option<string>)

  /** The antd form store of the modal. */
  datatype FormValues = FormValues(title: Option<string>, description: Option<string>, videoLink: Option<string>)

  const EmptyForm := FormValues(None, None, None)

  datatype Slot = AfterSlot | BeforeSlot

  /** A multipart field of the create and update requests. */
  datatype Part =
    | TitlePart(title: string)
    | DescriptionPart(description: string)
    | VideoPart(link: string)
    | AfterImagePart(file: File)
    | BeforeImagePart(file: File)

  datatype Request = CreateProject(form: seq<Part>) | UpdateProject(id: string, form: seq<Part>)

  datatype SubmitOutcome = Invalid(errors: seq<string>) | Succeeded(request: Request) | Failed(request: Request, message: string)

  const MsgFailed := "Operation failed!"
  const MsgNotImage := "You can only upload image files!"

  // ---------------------------------------------------------------------
  // Upload slots

  /** The pre-filled entry of a hosted image in edit mode. */
  function HostedEntry(uid: string, name: string, url: string): UploadEntry {
    UploadEntry(uid, name, None, Some(url))
  }

  /** `beforeUpload` of either slot: a file whose MIME type does not start
      with "image/" is refused and the list kept; an image replaces the list
      with one entry for it. `objectUrl` stands for `URL.createObjectURL`. */
  function Picked(list: seq<UploadEntry>, file: File, objectUrl: string): (seq<UploadEntry>, Option<string>) {
    if !StartsWith(file.mimeType, "image/") then (list, Some(MsgNotImage))
    else ([UploadEntry(file.name, file.name, Some(file), Some(objectUrl))], None)
  }

  /** A refused file leaves the list as it was; an accepted file becomes the
      only entry, carrying that very file. */
  lemma PickRule(list: seq<UploadEntry>, file: File, objectUrl: string)
    ensures !StartsWith(file.mimeType, "image/") ==> Picked(list, file, objectUrl) == (list, Some("You can only upload image files!"))
    ensures StartsWith(file.mimeType, "image/") ==>
      var l := Picked(list, file, objectUrl).0;
      |l| == 1 && l[0].originFile == Some(file) && Picked(list, file, objectUrl).1.None?
  {
  }

  /** The file a slot contributes to the request: the first entry's fresh
      file, if any. */
  function SlotFile(list: seq<UploadEntry>): Option<File> {
    if |list| > 0 && list[0].originFile.Some? then list[0].originFile else None
  }

  // ---------------------------------------------------------------------
  // Validation and the request

  /** The messages of the form rules that fail, in field order; `onFinish`
      runs only when there is none. */
  function ValidationErrors(v: FormValues, after: seq<UploadEntry>, before: seq<UploadEntry>, editing: Option<Project>): seq<string> {
    (if Truthy(v.title) then [] else ["Please input the project name!"])
    + (if Truthy(v.description) then [] else ["Please input the description!"])
    + (if |after| > 0 || editing.Some? then [] else ["Please upload after image!"])
    + (if |before| > 0 || editing.Some? then [] else ["Please upload before image!"])
  }

  /** The form passes exactly when title and description are filled in and,
      when creating, both slots hold an entry; when editing the image rules
      always pass, even with empty slots. */
  lemma ValidationRule(v: FormValues, after: seq<UploadEntry>, before: seq<UploadEntry>, editing: Option<Project>)
    ensures ValidationErrors(v, after, before, editing) == [] <==>
      Truthy(v.title) && Truthy(v.description) && (editing.Some? || (|after| > 0 && |before| > 0))
    ensures editing.Some? && Truthy(v.title) && Truthy(v.description) ==> ValidationErrors(v, [], [], editing) == []
  {
  }

  /** `handleSubmit`'s FormData. */
  function RequestForm(v: FormValues, after: seq<UploadEntry>, before: seq<UploadEntry>): seq<Part>
    requires v.title.Some? && v.description.Some?
  {
    [TitlePart(v.title.value), DescriptionPart(v.description.value)]
    + (if Truthy(v.videoLink) then [VideoPart(v.videoLink.value)] else [])
    + (if SlotFile(after).Some? then [AfterImagePart(SlotFile(after).value)] else [])
    + (if SlotFile(before).Some? then [BeforeImagePart(SlotFile(before).value)] else [])
  }

  function SubmitResult(v: FormValues, after: seq<UploadEntry>, before: seq<UploadEntry>, editing: Option<Project>, api: ApiResult): SubmitOutcome {
    var errors := ValidationErrors(v, after, before, editing);
    if errors != [] then Invalid(errors)
    else
      var form := RequestForm(v, after, before);
      var request := if editing.Some? then UpdateProject(editing.value.id, form) else CreateProject(form);
      if api.ApiOk? then Succeeded(request) else Failed(request, ErrorText(api, MsgFailed))
  }

  /** "video" is sent exactly when the link is non-empty, and an image part
      exactly when its slot's first entry holds a fresh file. */
  lemma RequestFormParts(v: FormValues, after: seq<UploadEntry>, before: seq<UploadEntry>)
    requires v.title.Some? && v.description.Some?
    ensures var f := RequestForm(v, after, before);
      && f[..2] == [TitlePart(v.title.value), DescriptionPart(v.description.value)]
      && ((exists i :: 0 <= i < |f| && f[i].VideoPart?) <==> Truthy(v.videoLink))
      && ((exists i :: 0 <= i < |f| && f[i].AfterImagePart?) <==> |after| > 0 && after[0].originFile.Some?)
      && ((exists i :: 0 <= i < |f| && f[i].BeforeImagePart?) <==> |before| > 0 && before[0].originFile.Some?)
  {
    var f := RequestForm(v, after, before);
    if Truthy(v.videoLink) {
      assert f[2].VideoPart?;
    }
    if SlotFile(after).Some? {
      assert f[|f| - 1 - (if SlotFile(before).Some? then 1 else 0)].AfterImagePart?;
    }
    if SlotFile(before).Some? {
      assert f[|f| - 1].BeforeImagePart?;
    }
  }

  /** Images pre-filled for an edit have no file and are never resent, so an
      untouched edit sends only the text fields. */
  lemma HostedImagesNotResent(p: Project, v: FormValues, baseUrl: string)
    requires v.title.Some? && v.description.Some? && !Truthy(v.videoLink)
    ensures RequestForm(v, [HostedEntry(p.id + "-after", "After Image", baseUrl + p.afterImage)],
                           [HostedEntry(p.id + "-before", "Before Image", baseUrl + p.beforeImage)])
      == [TitlePart(v.title.value), DescriptionPart(v.description.value)]
  {
  }

  // ---------------------------------------------------------------------
  // Table

  /** The description column: at most 50 characters and "...". */
  function Truncate(text: string): string {
    if |text| > 50 then text[..50] + "..." else text
  }

  lemma TruncateRule(text: string)
    ensures |text| <= 50 ==> Truncate(text) == text
    ensures |text| > 50 ==> |Truncate(text)| == 53 && StartsWith(Truncate(text), text[..50]) && StartsWith(text, Truncate(text)[..50])
    ensures |text| > 50 ==> Truncate(text)[50..] == "..."
  {
  }

  // ---------------------------------------------------------------------
  // The page

  class OurProjectsPage {
    var currentPage: nat
    const perPage: nat
    var modalVisible: bool
    var viewModalVisible: bool
    var editing: Option<Project>
    var viewing: Option<Project>
    var form: FormValues
    var afterList: seq<UploadEntry>
    var beforeList: seq<UploadEntry>

    constructor ()
      ensures currentPage == 1 && perPage == 10
      ensures !modalVisible && !viewModalVisible && editing.None? && viewing.None?
      ensures form == EmptyForm && afterList == [] && beforeList == []
    {
      currentPage := 1;
      perPage := 10;
      modalVisible := false;
      viewModalVisible := false;
      editing := None;
      viewing := None;
      form := EmptyForm;
      afterList := [];
      beforeList := [];
    }

    /** `handleOpenModal`: an edit pre-fills the form and both slots with the
        hosted images; an add clears them. `baseUrl` is the API host. */
    method OpenModal(project: Option<Project>, baseUrl: string)
      modifies this
      ensures modalVisible && editing == project
      ensures project.Some? ==>
        var p := project.value;
        && form == old(form).(title := Some(p.title), description := Some(p.description), videoLink := Some(p.videoLink.GetOr("")))
        && afterList == [HostedEntry(p.id + "-after", "After Image", baseUrl + p.afterImage)]
        && beforeList == [HostedEntry(p.id + "-before", "Before Image", baseUrl + p.beforeImage)]
      ensures project.None? ==> form == EmptyForm && afterList == [] && beforeList == []
      ensures currentPage == old(currentPage) && viewModalVisible == old(viewModalVisible) && viewing == old(viewing)
    {
      if project.Some? {
        var p := project.value;
        editing := project;
        form := form.(title := Some(p.title), description := Some(p.description), videoLink := Some(p.videoLink.GetOr("")));
        afterList := [HostedEntry(p.id + "-after", "After Image", baseUrl + p.afterImage)];
        beforeList := [HostedEntry(p.id + "-before", "Before Image", baseUrl + p.beforeImage)];
      } else {
        editing := None;
        form := EmptyForm;
        afterList := [];
        beforeList := [];
      }
      modalVisible := true;
    }

    /** `handleCloseModal` */
    method CloseModal()
      modifies this
      ensures !modalVisible && editing.None? && form == EmptyForm && afterList == [] && beforeList == []
      ensures currentPage == old(currentPage) && viewModalVisible == old(viewModalVisible) && viewing == old(viewing)
    {
      modalVisible := false;
      editing := None;
      form := EmptyForm;
      afterList := [];
      beforeList := [];
    }

    method OpenViewModal(project: Project)
      modifies this
      ensures viewModalVisible && viewing == Some(project)
      ensures currentPage == old(currentPage) && modalVisible == old(modalVisible) && editing == old(editing)
      ensures form == old(form) && afterList == old(afterList) && beforeList == old(beforeList)
    {
      viewing := Some(project);
      viewModalVisible := true;
    }

    method CloseViewModal()
      modifies this
      ensures !viewModalVisible && viewing.None?
      ensures currentPage == old(currentPage) && modalVisible == old(modalVisible) && editing == old(editing)
      ensures form == old(form) && afterList == old(afterList) && beforeList == old(beforeList)
    {
      viewModalVisible := false;
      viewing := None;
    }

    /** The table's pagination `onChange`. */
    method ChangePage(page: nat)
      modifies this
      ensures currentPage == page
      ensures modalVisible == old(modalVisible) && viewModalVisible == old(viewModalVisible) && editing == old(editing) && viewing == old(viewing)
      ensures form == old(form) && afterList == old(afterList) && beforeList == old(beforeList)
    {
      currentPage := page;
    }

    method EnterValues(v: FormValues)
      modifies this
      ensures form == v
      ensures currentPage == old(currentPage) && modalVisible == old(modalVisible) && viewModalVisible == old(viewModalVisible)
      ensures editing == old(editing) && viewing == old(viewing) && afterList == old(afterList) && beforeList == old(beforeList)
    {
      form := v;
    }

    /** `beforeUpload` of one slot; the result is the error toast, if any. */
    method PickFile(slot: Slot, file: File, objectUrl: string) returns (error: Option<string>)
      modifies this
      ensures slot == AfterSlot ==> (afterList, error) == Picked(old(afterList), file, objectUrl) && beforeList == old(beforeList)
      ensures slot == BeforeSlot ==> (beforeList, error) == Picked(old(beforeList), file, objectUrl) && afterList == old(afterList)
      ensures currentPage == old(currentPage) && modalVisible == old(modalVisible) && viewModalVisible == old(viewModalVisible)
      ensures editing == old(editing) && viewing == old(viewing) && form == old(form)
    {
      if !StartsWith(file.mimeType, "image/") {
        return Some(MsgNotImage);
      }
      var entry := UploadEntry(file.name, file.name, Some(file), Some(objectUrl));
      if slot == AfterSlot {
        afterList := [entry];
      } else {
        beforeList := [entry];
      }
      return None;
    }

    /** `onRemove` of one slot. */
    method RemoveFile(slot: Slot)
      modifies this
      ensures slot == AfterSlot ==> afterList == [] && beforeList == old(beforeList)
      ensures slot == BeforeSlot ==> beforeList == [] && afterList == old(afterList)
      ensures currentPage == old(currentPage) && modalVisible == old(modalVisible) && viewModalVisible == old(viewModalVisible)
      ensures editing == old(editing) && viewing == old(viewing) && form == old(form)
    {
      if slot == AfterSlot {
        afterList := [];
      } else {
        beforeList := [];
      }
    }

    /** The form's validation followed by `handleSubmit`: a success closes and
        clears the modal; a failure or invalid form changes nothing. */
    method Submit(api: ApiResult) returns (outcome: SubmitOutcome)
      modifies this
      ensures outcome == SubmitResult(old(form), old(afterList), old(beforeList), old(editing), api)
      ensures outcome.Succeeded? ==> !modalVisible && editing.None? && form == EmptyForm && afterList == [] && beforeList == []
      ensures !outcome.Succeeded? ==>
        modalVisible == old(modalVisible) && editing == old(editing) && form == old(form) &&
        afterList == old(afterList) && beforeList == old(beforeList)
      ensures currentPage == old(currentPage) && viewModalVisible == old(viewModalVisible) && viewing == old(viewing)
    {
      var errors := ValidationErrors(form, afterList, beforeList, editing);
      if errors != [] {
        return Invalid(errors);
      }
      var parts := [TitlePart(form.title.value), DescriptionPart(form.description.value)];
      if Truthy(form.videoLink) {
        parts := parts + [VideoPart(form.videoLink.value)];
      }
      if |afterList| > 0 && afterList[0].originFile.Some? {
        parts := parts + [AfterImagePart(afterList[0].originFile.value)];
      }
      if |beforeList| > 0 && beforeList[0].originFile.Some? {
        parts := parts + [BeforeImagePart(beforeList[0].originFile.value)];
      }
      assert parts == RequestForm(form, afterList, beforeList);
      var request := if editing.Some? then UpdateProject(editing.value.id, parts) else CreateProject(parts);
      if api.ApiError? {
        return Failed(request, ErrorText(api, MsgFailed));
      }
      CloseModal();
      return Succeeded(request);
    }
  }
}
