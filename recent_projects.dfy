/** The home page's "Recent Active Projects" table: server records are
    flattened into display rows, and each row's status is drawn as a badge. */
module RecentProjects {
  import opened Common
  import opened Text

  /** The populated `artisanId` of a project record. */
  datatype ArtisanRef = ArtisanRef(firstName: Option<string>, lastName: Option<string>)

  /** A project record as the server sends it; absent fields are `None`. */
  datatype ProjectRecord = ProjectRecord(
    id: string, projectCode: string,
    firstName: Option<string>, lastName: Option<string>,
    artisan: Option<ArtisanRef>, totalWithVat: Option<int>,
    status: Option<string>, createdAt: Option<string>)

  /** A row of the table. */
  datatype Row = Row(
    key: string, projectId: string, clientName: string, artisan: string,
    estimatedAmount: Option<int>, status: Option<string>, createdAt: Option<string>)

  const NotAssigned := "Not Assign yet"

  /** The artisan cell: the name between one leading and two trailing
      spaces, or the "not assigned" text. */
  function ArtisanCell(artisan: Option<ArtisanRef>): (r: string)
    ensures r != ""
  {
    if artisan.None? then NotAssigned
    else " " + Or(artisan.value.firstName, "") + " " + Or(artisan.value.lastName, "") + "  "
  }

  /** One element of `formattedData`. */
  function FormatRow(item: ProjectRecord): Row {
    Row(
      item.id,
      item.projectCode,
      Or(item.firstName, "") + " " + Or(item.lastName, ""),
      ArtisanCell(item.artisan),
      item.totalWithVat,
      if item.status.Some? then Some(Lower(item.status.value)) else None,
      if Truthy(item.createdAt) then item.createdAt else None)
  }

  /** `formattedData`: every record formatted in order; no data gives no
      rows. */
  function FormatAll(data: Option<seq<ProjectRecord>>): (r: seq<Row>)
    ensures data.None? ==> r == []
    ensures data.Some? ==> |r| == |data.value|
    ensures data.Some? ==> forall i :: 0 <= i < |r| ==> r[i] == FormatRow(data.value[i])
  {
    if data.None? then [] else FormatRows(data.value)
  }

  function FormatRows(items: seq<ProjectRecord>): (r: seq<Row>)
    ensures |r| == |items|
    ensures forall i :: 0 <= i < |r| ==> r[i] == FormatRow(items[i])
  {
    if items == [] then [] else [FormatRow(items[0])] + FormatRows(items[1..])
  }

  /** How a record's fields end up in its row. */
  lemma FormatRowRule(item: ProjectRecord)
    ensures FormatRow(item).key == item.id && FormatRow(item).projectId == item.projectCode
    ensures item.firstName.None? && item.lastName.None? ==> FormatRow(item).clientName == " "
    ensures item.artisan.None? ==> FormatRow(item).artisan == "Not Assign yet"
    ensures item.artisan.Some? ==>
      var cell := FormatRow(item).artisan;
      |cell| >= 4 && cell[0] == ' ' && cell[|cell| - 2..] == "  " &&
      cell[1..|cell| - 2] == Or(item.artisan.value.firstName, "") + " " + Or(item.artisan.value.lastName, "")
    ensures item.artisan == Some(ArtisanRef(Some("Ana"), None)) ==> FormatRow(item).artisan == " Ana   "
    ensures FormatRow(item).estimatedAmount == item.totalWithVat
    ensures item.createdAt.None? || item.createdAt == Some("") ==> FormatRow(item).createdAt.None?
    ensures item.status.Some? ==> FormatRow(item).status == Some(Lower(item.status.value))
  {
  }

  /** The artisan column's `text || "Not Assign yet"` fallback never fires:
      the cell is never empty. */
  lemma ArtisanCellNeverEmpty(item: ProjectRecord)
    ensures Or(Some(FormatRow(item).artisan), NotAssigned) == FormatRow(item).artisan
  {
  }

  /** A badge's caption and colour. `caption` is `None` where the source
      shows `undefined`. */
  datatype Badge = Badge(caption: Option<string>, color: string)

  /** `statusMap[status] || { label: status, color: "gray" }` */
  function StatusBadge(status: Option<string>): (r: Badge)
  {
    if status == Some("accepted") then Badge(Some("Accepted"), "green")
    else if status == Some("pending") then Badge(Some("Pending"), "orange")
    else if status == Some("completed") then Badge(Some("Completed"), "blue")
    else if status == Some("new") then Badge(Some("New"), "#f59e0b")
    else Badge(status, "gray")
  }

  predicate KnownStatus(s: string) {
    s == "accepted" || s == "pending" || s == "completed" || s == "new"
  }

  /** Known statuses get their own caption and a colour other than gray;
      anything else is shown as itself in gray. */
  lemma StatusBadgeRule(status: Option<string>)
    ensures status.Some? && KnownStatus(status.value) ==> StatusBadge(status).color != "gray"
    ensures !(status.Some? && KnownStatus(status.value)) ==> StatusBadge(status) == Badge(status, "gray")
    ensures status == Some("new") ==> StatusBadge(status).caption == Some("New")
  {
  }

  /** Because the row's status is lower-cased first, the server's case does
      not matter: "ACCEPTED" and "accepted" draw the same badge. */
  lemma BadgeIgnoresServerCase(item: ProjectRecord, other: ProjectRecord)
    requires item.status.Some? && other.status.Some?
    requires Lower(item.status.value) == Lower(other.status.value)
    ensures StatusBadge(FormatRow(item).status) == StatusBadge(FormatRow(other).status)
  {
  }
}
