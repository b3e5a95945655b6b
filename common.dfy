/** Values shared by the dashboard's pages: optional values, browser files,
    antd upload-list entries and the outcome of an awaited API call. */
module Common {

  /** `T | undefined` (or `T | null`) of the TypeScript source. */
  datatype Option<+T> = None | Some(value: T) {
    /** `x ?? default` */
    function GetOr(default: T): T {
      if Some? then value else default
    }
  }

  /** JavaScript truthiness of an optional string: present and not "". */
  predicate Truthy(s: Option<string>) {
    s.Some? && s.value != ""
  }

  /** `value || fallback` on an optional string. */
  function Or(value: Option<string>, fallback: string): (r: string)
    ensures fallback != "" ==> r != ""
    ensures Truthy(value) ==> r == value.value
    ensures !Truthy(value) ==> r == fallback
  {
    if Truthy(value) then value.value else fallback
  }

  /** A browser `File`: `handle` stands for its identity (two picks of the
      same name are still different files), plus its name and MIME type. */
  datatype File = File(handle: nat, name: string, mimeType: string)

  /** An antd `UploadFile` entry. Entries pre-filled from an already hosted
      image carry a `url` and no `originFileObj`; a freshly chosen file
      carries `originFileObj`. */
  datatype UploadEntry = UploadEntry(uid: string, name: string, originFile: Option<File>, url: Option<string>)

  /** The outcome of `await mutation(...).unwrap()`: success, or a rejection
      whose body may carry `data.message`. */
  datatype ApiResult = ApiOk | ApiError(serverMessage: Option<string>)

  /** `error?.data?.message || fallback`: the server's message when it is a
      non-empty string, otherwise the page's fallback text. */
  function ErrorText(result: ApiResult, fallback: string): string {
    if result.ApiError? && Truthy(result.serverMessage) then result.serverMessage.value else fallback
  }
}
