/** The category page backed by the server: the create/edit modal with its
    name and image, the upload list it shows, and the two extra-service
    modals opened for one category. */
module Categories {
  import opened Common
  import opened Text
  import opened Lists

  /** A category as the server lists it; `image` is a path on the API host. */
  datatype CategoryRecord = CategoryRecord(id: string, name: string, image: string)

  /** Why `onSubmit` stops before any request. */
  datatype Refusal = MissingName | MissingImage {
    function Message(): string {
      match this
      case MissingName => "Please enter category name"
      case MissingImage => "Please upload an image"
    }
  }

  /** A multipart field of the category mutations. */
  datatype Part = NamePart(name: string) | ImagePart(file: File)

  datatype Request = CreateCategory(form: seq<Part>) | UpdateCategory(id: string, form: seq<Part>)

  datatype SubmitOutcome = Refused(reason: Refusal) | Succeeded(request: Request) | Failed(request: Request, message: string)

  const MsgFailed := "Operation failed"

  /** `categories.find(c => c._id === id)`: the first category with that
      id, or nothing when none has it. */
  function FindCategory(cats: seq<CategoryRecord>, id: string): (r: Option<CategoryRecord>)
    ensures r.Some? ==> r.value in cats && r.value.id == id
    ensures r.Some? ==> exists k :: 0 <= k < |cats| && cats[k] == r.value && forall j :: 0 <= j < k ==> cats[j].id != id
    ensures r.None? <==> forall i :: 0 <= i < |cats| ==> cats[i].id != id
  {
    var k := FindIndex(cats, (c: CategoryRecord) => c.id == id);
    if k.Some? then Some(cats[k.value]) else None
  }

  /** The upload list the edit modal shows for a hosted image: one entry
      with the full URL and no file. */
  function HostedEntry(cat: CategoryRecord, baseUrl: string): UploadEntry {
    UploadEntry(cat.id, "image", None, Some(baseUrl + cat.image))
  }

  /** The effect on `[editingId, categories]`: the new upload list, or `None`
      when the list is left as it is (an edited id the server no longer
      lists). */
  function SyncedFileList(editingId: Option<string>, cats: seq<CategoryRecord>, baseUrl: string): Option<seq<UploadEntry>> {
    if Truthy(editingId) then
      var cat := FindCategory(cats, editingId.value);
      if cat.Some? then Some([HostedEntry(cat.value, baseUrl)]) else None
    else Some([])
  }

  /** The upload `onChange`: the first entry when it carries a freshly chosen
      file, otherwise nothing. */
  function PendingImage(list: seq<UploadEntry>): Option<UploadEntry> {
    if list != [] && list[0].originFile.Some? then Some(list[0]) else None
  }

  /** A pending image always has a file, and one exists exactly when the
      first entry carries a fresh file; the pre-filled hosted entry of edit
      mode never counts. */
  lemma PendingImageRule(list: seq<UploadEntry>, editingId: Option<string>, cats: seq<CategoryRecord>, baseUrl: string)
    ensures PendingImage(list).Some? ==> PendingImage(list).value.originFile.Some?
    ensures PendingImage(list).Some? <==> |list| > 0 && list[0].originFile.Some?
    ensures var synced := SyncedFileList(editingId, cats, baseUrl);
      synced.Some? ==> PendingImage(synced.value).None?
  {
  }

  /** Editing an id the server lists shows exactly its hosted image. */
  lemma SyncShowsEditedImage(editingId: string, cats: seq<CategoryRecord>, baseUrl: string, k: int)
    requires editingId != "" && 0 <= k < |cats| && cats[k].id == editingId
    ensures SyncedFileList(Some(editingId), cats, baseUrl).Some?
    ensures var list := SyncedFileList(Some(editingId), cats, baseUrl).value;
      |list| == 1 && list[0].uid == editingId && list[0].originFile.None?
  {
  }

  /** The refusal of `onSubmit`, if any. */
  function Validate(name: string, editingId: Option<string>, imageFile: Option<UploadEntry>): Option<Refusal> {
    if AllSpace(name) then Some(MissingName)
    else if !Truthy(editingId) && imageFile.None? then Some(MissingImage)
    else None
  }

  /** `{name, image: imageFile?.originFileObj}` as the mutation encodes it:
      the image part only when there is a file. */
  function Form(name: string, imageFile: Option<UploadEntry>): seq<Part> {
    [NamePart(name)] + if imageFile.Some? && imageFile.value.originFile.Some? then [ImagePart(imageFile.value.originFile.value)] else []
  }

  function SubmitResult(name: string, editingId: Option<string>, imageFile: Option<UploadEntry>, api: ApiResult): SubmitOutcome {
    if Validate(name, editingId, imageFile).Some? then Refused(Validate(name, editingId, imageFile).value)
    else
      var request := if Truthy(editingId) then UpdateCategory(editingId.value, Form(name, imageFile)) else CreateCategory(Form(name, imageFile));
      if api.ApiOk? then Succeeded(request) else Failed(request, ErrorText(api, MsgFailed))
  }

  /** A name that trims to "" is refused, whatever else is set. */
  lemma BlankNameRefused(name: string, editingId: Option<string>, imageFile: Option<UploadEntry>, api: ApiResult)
    requires Trim(name) == ""
    ensures SubmitResult(name, editingId, imageFile, api) == Refused(MissingName)
  {
    TrimEmptyIffAllSpace(name);
  }

  /** Creating needs a freshly chosen image; editing proceeds without one
      and then sends only the name, so the stored image is kept. */
  lemma ImageRequiredOnlyOnCreate(name: string, editingId: Option<string>, api: ApiResult)
    requires Trim(name) != ""
    ensures !Truthy(editingId) ==> SubmitResult(name, editingId, None, api) == Refused(MissingImage)
    ensures Truthy(editingId) ==>
      !SubmitResult(name, editingId, None, api).Refused? &&
      SubmitResult(name, editingId, None, api).request == UpdateCategory(editingId.value, [NamePart(name)])
  {
    TrimEmptyIffAllSpace(name);
  }

  /** A request made with a pending image sends its file, after the name. */
  lemma ChosenFileIsSent(name: string, editingId: Option<string>, list: seq<UploadEntry>, api: ApiResult)
    requires Trim(name) != "" && PendingImage(list).Some?
    ensures !SubmitResult(name, editingId, PendingImage(list), api).Refused?
    ensures SubmitResult(name, editingId, PendingImage(list), api).request.form == [NamePart(name), ImagePart(list[0].originFile.value)]
  {
    TrimEmptyIffAllSpace(name);
  }

  class CategoriesPage {
    var open: bool
    var editingId: Option<string>
    var name: string
    var imageFile: Option<UploadEntry>
    var fileList: seq<UploadEntry>
    var viewServicesOpen: bool
    var addServiceOpen: bool
    var selectedCategoryId: Option<string>

    constructor ()
      ensures !open && editingId.None? && name == "" && imageFile.None? && fileList == []
      ensures !viewServicesOpen && !addServiceOpen && selectedCategoryId.None?
    {
      open := false;
      editingId := None;
      name := "";
      imageFile := None;
      fileList := [];
      viewServicesOpen := false;
      addServiceOpen := false;
      selectedCategoryId := None;
    }

    /** The effect on `[editingId, categories]`; `baseUrl` is the API host. */
    method SyncFileList(cats: seq<CategoryRecord>, baseUrl: string)
      modifies this
      ensures var synced := SyncedFileList(editingId, cats, baseUrl);
        fileList == if synced.Some? then synced.value else old(fileList)
      ensures open == old(open) && editingId == old(editingId) && name == old(name) && imageFile == old(imageFile)
      ensures viewServicesOpen == old(viewServicesOpen) && addServiceOpen == old(addServiceOpen) && selectedCategoryId == old(selectedCategoryId)
    {
      if Truthy(editingId) {
        var cat := FindCategory(cats, editingId.value);
        if cat.Some? {
          fileList := [HostedEntry(cat.value, baseUrl)];
        }
      } else {
        fileList := [];
      }
    }

    method Edit(record: CategoryRecord)
      modifies this
      ensures editingId == Some(record.id) && name == record.name && imageFile.None? && open
      ensures fileList == old(fileList) && viewServicesOpen == old(viewServicesOpen) && addServiceOpen == old(addServiceOpen) && selectedCategoryId == old(selectedCategoryId)
    {
      editingId := Some(record.id);
      name := record.name;
      imageFile := None;
      open := true;
    }

    method AddClick()
      modifies this
      ensures editingId.None? && name == "" && imageFile.None? && open
      ensures fileList == old(fileList) && viewServicesOpen == old(viewServicesOpen) && addServiceOpen == old(addServiceOpen) && selectedCategoryId == old(selectedCategoryId)
    {
      editingId := None;
      name := "";
      imageFile := None;
      open := true;
    }

    method ChangeName(value: string)
      modifies this
      ensures name == value
      ensures open == old(open) && editingId == old(editingId) && imageFile == old(imageFile) && fileList == old(fileList)
      ensures viewServicesOpen == old(viewServicesOpen) && addServiceOpen == old(addServiceOpen) && selectedCategoryId == old(selectedCategoryId)
    {
      name := value;
    }

    /** The upload's `onChange` with the new list. */
    method ChangeUpload(list: seq<UploadEntry>)
      modifies this
      ensures fileList == list && imageFile == PendingImage(list)
      ensures open == old(open) && editingId == old(editingId) && name == old(name)
      ensures viewServicesOpen == old(viewServicesOpen) && addServiceOpen == old(addServiceOpen) && selectedCategoryId == old(selectedCategoryId)
    {
      fileList := list;
      if |list| > 0 && list[0].originFile.Some? {
        imageFile := Some(list[0]);
      } else {
        imageFile := None;
      }
    }

    method Cancel()
      modifies this
      ensures !open
      ensures editingId == old(editingId) && name == old(name) && imageFile == old(imageFile) && fileList == old(fileList)
      ensures viewServicesOpen == old(viewServicesOpen) && addServiceOpen == old(addServiceOpen) && selectedCategoryId == old(selectedCategoryId)
    {
      open := false;
    }

    /** `onSubmit`: after a success the modal closes and the name and the
        pending image are cleared; a refusal or a failure changes nothing. */
    method Submit(api: ApiResult) returns (outcome: SubmitOutcome)
      modifies this
      ensures outcome == SubmitResult(old(name), old(editingId), old(imageFile), api)
      ensures outcome.Succeeded? ==> !open && name == "" && imageFile.None?
      ensures !outcome.Succeeded? ==> open == old(open) && name == old(name) && imageFile == old(imageFile)
      ensures editingId == old(editingId) && fileList == old(fileList)
      ensures viewServicesOpen == old(viewServicesOpen) && addServiceOpen == old(addServiceOpen) && selectedCategoryId == old(selectedCategoryId)
    {
      if AllSpace(name) {
        return Refused(MissingName);
      }
      if !Truthy(editingId) && imageFile.None? {
        return Refused(MissingImage);
      }
      var request: Request;
      if Truthy(editingId) {
        request := UpdateCategory(editingId.value, Form(name, imageFile));
      } else {
        request := CreateCategory(Form(name, imageFile));
      }
      if api.ApiError? {
        return Failed(request, ErrorText(api, MsgFailed));
      }
      open := false;
      name := "";
      imageFile := None;
      return Succeeded(request);
    }

    /** `handleViewServices` */
    method ViewServices(categoryId: string)
      modifies this
      ensures selectedCategoryId == Some(categoryId) && viewServicesOpen && addServiceOpen == old(addServiceOpen)
      ensures open == old(open) && editingId == old(editingId) && name == old(name) && imageFile == old(imageFile) && fileList == old(fileList)
    {
      selectedCategoryId := Some(categoryId);
      viewServicesOpen := true;
    }

    /** `handleAddService` */
    method AddService(categoryId: string)
      modifies this
      ensures selectedCategoryId == Some(categoryId) && addServiceOpen && viewServicesOpen == old(viewServicesOpen)
      ensures open == old(open) && editingId == old(editingId) && name == old(name) && imageFile == old(imageFile) && fileList == old(fileList)
    {
      selectedCategoryId := Some(categoryId);
      addServiceOpen := true;
    }

    /** The view modal's `onClose`. */
    method CloseViewServices()
      modifies this
      ensures selectedCategoryId.None? && !viewServicesOpen && addServiceOpen == old(addServiceOpen)
      ensures open == old(open) && editingId == old(editingId) && name == old(name) && imageFile == old(imageFile) && fileList == old(fileList)
    {
      viewServicesOpen := false;
      selectedCategoryId := None;
    }

    /** The add modal's `onClose`. */
    method CloseAddService()
      modifies this
      ensures selectedCategoryId.None? && !addServiceOpen && viewServicesOpen == old(viewServicesOpen)
      ensures open == old(open) && editingId == old(editingId) && name == old(name) && imageFile == old(imageFile) && fileList == old(fileList)
    {
      addServiceOpen := false;
      selectedCategoryId := None;
    }
  }
}
