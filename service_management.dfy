/** The in-memory service-management page: a category table and a
    subcategory table edited through one shared modal form. Rows are deleted
    by id, edited by id, and appended with an id built from a slug of the
    title and a timestamp. */
module ServiceManagement {
  import opened Common
  import opened Text
  import Lists

  datatype Category = Category(id: string, title: string, image: string)
  datatype SubCategory = SubCategory(id: string, title: string, categoryId: string)

  datatype Tab = CategoryTab | SubCategoryTab
  datatype EntityKind = CategoryKind | SubCategoryKind

  /** `editing`: which table the modal writes to, and the row id when an
      existing row is edited. */
  datatype Editing = Editing(kind: EntityKind, id: Option<string>)

  /** The antd form store: one slot per form field, `None` when unset. */
  datatype FormValues = FormValues(title: Option<string>, image: Option<seq<UploadEntry>>, categoryId: Option<string>)

  const EmptyForm := FormValues(None, None, None)

  /** Both tables together. */
  datatype Tables = Tables(categories: seq<Category>, subcategories: seq<SubCategory>)

  const InitialCategories := [
    Category("cat-tiles", "Tiles", "https://picsum.photos/seed/tiles/80/80"),
    Category("cat-flooring", "Flooring", "https://picsum.photos/seed/flooring/80/80"),
    Category("cat-painting", "Painting", "https://picsum.photos/seed/painting/80/80")]

  const InitialSubCategories := [
    SubCategory("sub-ceramic", "Ceramic", "cat-tiles"),
    SubCategory("sub-porcelain", "Porcelain", "cat-tiles"),
    SubCategory("sub-wood", "Wood", "cat-flooring"),
    SubCategory("sub-acrylic", "Acrylic", "cat-painting")]

  // ---------------------------------------------------------------------
  // Deleting and looking up

  function DeleteCategory(cats: seq<Category>, id: string): seq<Category> {
    Lists.Filter(cats, (c: Category) => c.id != id)
  }

  function DeleteSubCategory(subs: seq<SubCategory>, id: string): seq<SubCategory> {
    Lists.Filter(subs, (s: SubCategory) => s.id != id)
  }

  /** Deleting a category removes every row with that id and keeps every
      other row, in order and as many times as it occurs. */
  lemma DeleteCategoryRemovesOnly(cats: seq<Category>, id: string)
    ensures forall i :: 0 <= i < |DeleteCategory(cats, id)| ==> DeleteCategory(cats, id)[i].id != id
    ensures forall i :: 0 <= i < |cats| && cats[i].id != id ==> cats[i] in DeleteCategory(cats, id)
    ensures Lists.IsSubsequence(DeleteCategory(cats, id), cats)
    ensures forall row :: multiset(DeleteCategory(cats, id))[row] == if row.id != id then multiset(cats)[row] else 0
  {
    Lists.FilterIsSubsequence(cats, (c: Category) => c.id != id);
    Lists.FilterCounts(cats, (c: Category) => c.id != id);
  }

  /** The same for subcategories. */
  lemma DeleteSubCategoryRemovesOnly(subs: seq<SubCategory>, id: string)
    ensures forall i :: 0 <= i < |DeleteSubCategory(subs, id)| ==> DeleteSubCategory(subs, id)[i].id != id
    ensures forall i :: 0 <= i < |subs| && subs[i].id != id ==> subs[i] in DeleteSubCategory(subs, id)
    ensures Lists.IsSubsequence(DeleteSubCategory(subs, id), subs)
    ensures forall row :: multiset(DeleteSubCategory(subs, id))[row] == if row.id != id then multiset(subs)[row] else 0
  {
    Lists.FilterIsSubsequence(subs, (s: SubCategory) => s.id != id);
    Lists.FilterCounts(subs, (s: SubCategory) => s.id != id);
  }

  /** The category column: `categories.find(c => c.id === id)?.title ?? id`. */
  function CategoryTitle(cats: seq<Category>, id: string): string {
    if cats == [] then id
    else if cats[0].id == id then cats[0].title
    else CategoryTitle(cats[1..], id)
  }

  /** With no category of that id the raw id is shown. */
  lemma {:induction false} TitleOfMissing(cats: seq<Category>, id: string)
    requires forall i :: 0 <= i < |cats| ==> cats[i].id != id
    ensures CategoryTitle(cats, id) == id
  {
    if cats != [] {
      TitleOfMissing(cats[1..], id);
    }
  }

  /** Otherwise the title of the first category with that id is shown. */
  lemma {:induction false} TitleOfFirst(cats: seq<Category>, id: string, k: int)
    requires 0 <= k < |cats| && cats[k].id == id
    requires forall j :: 0 <= j < k ==> cats[j].id != id
    ensures CategoryTitle(cats, id) == cats[k].title
  {
    if k > 0 {
      TitleOfFirst(cats[1..], id, k - 1);
    }
  }

  /** A subcategory whose category was deleted shows its category id. */
  lemma TitleAfterDelete(cats: seq<Category>, id: string)
    ensures CategoryTitle(DeleteCategory(cats, id), id) == id
  {
    TitleOfMissing(DeleteCategory(cats, id), id);
  }

  // ---------------------------------------------------------------------
  // Editing

  /** `prev.map(c => c.id === id ? {...c, title, image: image ?? c.image} : c)` */
  function EditedCategories(cats: seq<Category>, id: string, title: string, image: Option<string>): (r: seq<Category>)
    ensures |r| == |cats|
    ensures forall i :: 0 <= i < |cats| ==> r[i].id == cats[i].id
    ensures forall i :: 0 <= i < |cats| && cats[i].id != id ==> r[i] == cats[i]
    ensures forall i :: 0 <= i < |cats| && cats[i].id == id ==> r[i].title == title && r[i].image == image.GetOr(cats[i].image)
  {
    if cats == [] then []
    else
      var head := if cats[0].id == id then cats[0].(title := title, image := image.GetOr(cats[0].image)) else cats[0];
      [head] + EditedCategories(cats[1..], id, title, image)
  }

  /** `prev.map(s => s.id === id ? {...s, ...values} : s)` with the two form
      fields of the subcategory form. */
  function EditedSubCategories(subs: seq<SubCategory>, id: string, title: string, categoryId: string): (r: seq<SubCategory>)
    ensures |r| == |subs|
    ensures forall i :: 0 <= i < |subs| && subs[i].id != id ==> r[i] == subs[i]
    ensures forall i :: 0 <= i < |subs| && subs[i].id == id ==> r[i] == SubCategory(id, title, categoryId)
  {
    if subs == [] then []
    else
      var head := if subs[0].id == id then SubCategory(subs[0].id, title, categoryId) else subs[0];
      [head] + EditedSubCategories(subs[1..], id, title, categoryId)
  }

  /** After an edit the category column shows the new title for the edited
      id. */
  lemma {:induction false} TitleAfterEdit(cats: seq<Category>, id: string, title: string, image: Option<string>, k: int)
    requires 0 <= k < |cats| && cats[k].id == id
    ensures CategoryTitle(EditedCategories(cats, id, title, image), id) == title
  {
    var r := EditedCategories(cats, id, title, image);
    if cats[0].id != id {
      TitleAfterEdit(cats[1..], id, title, image, k - 1);
      assert r[1..] == EditedCategories(cats[1..], id, title, image);
    }
  }

  /** ... and the old title for every other id. */
  lemma {:induction false} TitleOfOtherAfterEdit(cats: seq<Category>, id: string, title: string, image: Option<string>, other: string)
    requires other != id
    ensures CategoryTitle(EditedCategories(cats, id, title, image), other) == CategoryTitle(cats, other)
  {
    if cats != [] {
      var r := EditedCategories(cats, id, title, image);
      TitleOfOtherAfterEdit(cats[1..], id, title, image, other);
      assert r[1..] == EditedCategories(cats[1..], id, title, image);
    }
  }

  // ---------------------------------------------------------------------
  // Ids

  /** `s.toLowerCase().replace(/\s+/g, "-")`: every maximal whitespace run
      becomes one "-", every other character is lower-cased; so a slug never
      holds whitespace. */
  function Slug(s: string): (r: string)
    ensures NoSpace(r)
    decreases |s|
  {
    if s == [] then []
    else if IsSpace(s[0]) then
      var rest := TrimStart(s[1..]);
      assert TrimStart(s) == rest;
      var tail := Slug(rest);
      assert forall i :: 0 <= i < |tail| ==> ("-" + tail)[i + 1] == tail[i];
      "-" + tail
    else
      var tail := Slug(s[1..]);
      assert !IsSpace(LowerChar(s[0]));
      assert forall i :: 0 <= i < |tail| ==> ([LowerChar(s[0])] + tail)[i + 1] == tail[i];
      [LowerChar(s[0])] + tail
  }

  /** `${prefix}${slug}-${Date.now()}` */
  function NewId(prefix: string, title: string, now: nat): string {
    prefix + Slug(title) + "-" + NatToDecimal(now)
  }

  /** A title without whitespace is only lower-cased. */
  lemma {:induction false} SlugOfWord(s: string)
    requires NoSpace(s)
    ensures Slug(s) == Lower(s)
  {
    if s != [] {
      SlugOfWord(s[1..]);
    }
  }

  /** Words separated by a whitespace run are joined by exactly one "-". */
  lemma {:induction false} SlugJoinsWords(a: string, w: string, b: string)
    requires NoSpace(a) && w != [] && AllSpace(w)
    requires b == [] || !IsSpace(b[0])
    ensures Slug(a + w + b) == Lower(a) + "-" + Slug(b)
  {
    if a == [] {
      assert a + w + b == w + b;
      SkipSpaces(w, b);
    } else {
      NoSpaceTail(a);
      SlugJoinsWords(a[1..], w, b);
      Associative(a[1..], w, b);
      Associative(a, w, b);
      SlugJoinStep(a, w + b, Lower(a[1..]) + "-" + Slug(b));
      assert Lower(a) == [LowerChar(a[0])] + Lower(a[1..]);
      Associative([LowerChar(a[0])], Lower(a[1..]) + "-", Slug(b));
      Associative([LowerChar(a[0])], Lower(a[1..]), "-");
    }
  }

  lemma Associative<T>(x: seq<T>, y: seq<T>, z: seq<T>)
    ensures x + y + z == x + (y + z)
  {
  }

  /** `prefix + slug + "-" + ts` starts with the prefix, ends with "-" and
      the stamp, and has no whitespace when its parts have none. */
  lemma IdShape(prefix: string, slug: string, ts: string)
    requires NoSpace(prefix) && NoSpace(slug) && NoSpace(ts)
    ensures var id := prefix + slug + "-" + ts;
      && StartsWith(id, prefix) && NoSpace(id)
      && id[|id| - |ts| - 1..] == "-" + ts
  {
    var head, tail := prefix + slug, "-" + ts;
    Associative(prefix, slug, "-");
    Associative(head, "-", ts);
    Associative(prefix, slug + "-", ts);
    Associative(prefix, slug, tail);
    Split(prefix, slug + tail);
    Split(head, tail);
    assert NoSpace(tail) by {
      assert forall i :: 1 <= i < |tail| ==> tail[i] == ts[i - 1];
    }
    NoSpaceJoin(prefix, slug);
    NoSpaceJoin(head, tail);
  }

  /** A concatenation splits back into its two parts. */
  lemma Split<T>(x: seq<T>, y: seq<T>)
    ensures (x + y)[..|x|] == x && (x + y)[|x|..] == y
  {
  }

  lemma NoSpaceJoin(x: string, y: string)
    requires NoSpace(x) && NoSpace(y)
    ensures NoSpace(x + y)
  {
    assert forall i :: |x| <= i < |x + y| ==> (x + y)[i] == y[i - |x|];
  }

  lemma NoSpaceTail(a: string)
    requires a != [] && NoSpace(a)
    ensures NoSpace(a[1..])
  {
    assert forall i :: 0 <= i < |a[1..]| ==> a[1..][i] == a[i + 1];
  }

  /** One step of `SlugJoinsWords`: a leading letter goes, lower-cased, in
      front of the slug of the rest. */
  lemma SlugJoinStep(a: string, rest: string, tail: string)
    requires a != [] && !IsSpace(a[0])
    requires Slug(a[1..] + rest) == tail
    ensures Slug(a + rest) == [LowerChar(a[0])] + tail
  {
    assert a + rest == [a[0]] + (a[1..] + rest);
    SlugOfLetter(a[0], a[1..] + rest);
  }

  /** A leading non-space character is lower-cased and kept. */
  lemma SlugOfLetter(c: char, t: string)
    requires !IsSpace(c)
    ensures Slug([c] + t) == [LowerChar(c)] + Slug(t)
  {
    assert ([c] + t)[1..] == t;
  }

  lemma {:induction false} SkipSpaces(w: string, b: string)
    requires w != [] && AllSpace(w)
    requires b == [] || !IsSpace(b[0])
    ensures Slug(w + b) == "-" + Slug(b)
  {
    TrimStartSkips(w, b);
  }

  lemma {:induction false} TrimStartSkips(w: string, b: string)
    requires AllSpace(w)
    requires b == [] || !IsSpace(b[0])
    ensures TrimStart(w + b) == b
  {
    if w != [] {
      assert (w + b)[1..] == w[1..] + b;
      TrimStartSkips(w[1..], b);
    } else {
      assert w + b == b;
    }
  }

  /** A new id starts with its prefix ("cat-" or "sub-"), holds no
      whitespace, and ends with "-" and the timestamp. */
  lemma NewIdShape(prefix: string, title: string, now: nat)
    requires NoSpace(prefix)
    ensures StartsWith(NewId(prefix, title, now), prefix)
    ensures NoSpace(NewId(prefix, title, now))
    ensures var id := NewId(prefix, title, now); var ts := NatToDecimal(now);
      id[|id| - |ts| - 1..] == "-" + ts
  {
    var ts := NatToDecimal(now);
    assert NoSpace(ts) by {
      assert forall i :: 0 <= i < |ts| ==> IsDigit(ts[i]);
    }
    IdShape(prefix, Slug(title), ts);
  }

  // ---------------------------------------------------------------------
  // Submitting

  /** The `required` rules of the fields the modal renders: title and image
      for a category, title and category for a subcategory (the subcategory
      fields are rendered whenever the modal is not editing a category). */
  predicate FormValid(editing: Option<Editing>, v: FormValues) {
    if editing.Some? && editing.value.kind == CategoryKind then
      Truthy(v.title) && v.image.Some? && v.image.value != []
    else
      Truthy(v.title) && Truthy(v.categoryId)
  }

  /** The image a saved category takes from the upload list: the first
      entry's fresh file as a data URL, else its hosted url; `None` when
      neither exists. */
  function ChosenImage(list: Option<seq<UploadEntry>>, dataUrl: File -> string): Option<string> {
    if list.None? || list.value == [] then None
    else if list.value[0].originFile.Some? then Some(dataUrl(list.value[0].originFile.value))
    else list.value[0].url
  }

  /** `onSubmit`: `None` when validation fails (nothing is written and the
      modal stays open), otherwise the tables after the save. */
  function Saved(t: Tables, editing: Option<Editing>, v: FormValues, now: nat, dataUrl: File -> string): Option<Tables> {
    if !FormValid(editing, v) then None
    else if editing.Some? && editing.value.kind == CategoryKind then
      var image := ChosenImage(v.image, dataUrl);
      if Truthy(editing.value.id) then
        Some(t.(categories := EditedCategories(t.categories, editing.value.id.value, v.title.value, image)))
      else
        Some(t.(categories := t.categories + [Category(NewId("cat-", v.title.value, now), v.title.value, image.GetOr(""))]))
    else if editing.Some? then
      if Truthy(editing.value.id) then
        Some(t.(subcategories := EditedSubCategories(t.subcategories, editing.value.id.value, v.title.value, v.categoryId.value)))
      else
        Some(t.(subcategories := t.subcategories + [SubCategory(NewId("sub-", v.title.value, now), v.title.value, v.categoryId.value)]))
    else Some(t)
  }

  /** Adding a category appends exactly one row after the unchanged old rows;
      its id is the "cat-" slug id, and its image is "" when none was given. */
  lemma AddCategoryAppends(t: Tables, v: FormValues, now: nat, dataUrl: File -> string)
    requires FormValid(Some(Editing(CategoryKind, None)), v)
    ensures var r := Saved(t, Some(Editing(CategoryKind, None)), v, now, dataUrl);
      && r.Some? && r.value.subcategories == t.subcategories
      && |r.value.categories| == |t.categories| + 1
      && r.value.categories[..|t.categories|] == t.categories
      && var added := r.value.categories[|t.categories|];
         && added.title == v.title.value && StartsWith(added.id, "cat-")
         && (ChosenImage(v.image, dataUrl).None? ==> added.image == "")
  {
    var r := Saved(t, Some(Editing(CategoryKind, None)), v, now, dataUrl);
    NewIdShape("cat-", v.title.value, now);
    assert r.value.categories[..|t.categories|] == t.categories;
  }

  /** Adding a subcategory appends exactly one row after the unchanged old
      rows and leaves the categories alone; its id is the "sub-" slug id and
      its title and parent category are the form's. */
  lemma AddSubCategoryAppends(t: Tables, v: FormValues, now: nat, dataUrl: File -> string)
    requires FormValid(Some(Editing(SubCategoryKind, None)), v)
    ensures var r := Saved(t, Some(Editing(SubCategoryKind, None)), v, now, dataUrl);
      && r.Some? && r.value.categories == t.categories
      && |r.value.subcategories| == |t.subcategories| + 1
      && r.value.subcategories[..|t.subcategories|] == t.subcategories
      && var added := r.value.subcategories[|t.subcategories|];
         && added.title == v.title.value && added.categoryId == v.categoryId.value
         && StartsWith(added.id, "sub-")
  {
    var r := Saved(t, Some(Editing(SubCategoryKind, None)), v, now, dataUrl);
    NewIdShape("sub-", v.title.value, now);
    assert r.value.subcategories[..|t.subcategories|] == t.subcategories;
  }

  /** Editing a category touches only the rows with the edited id: the title
      is replaced, the image is replaced by the new upload or url and kept
      when neither is given; subcategories are untouched. */
  lemma EditCategoryIsLocal(t: Tables, id: string, v: FormValues, now: nat, dataUrl: File -> string)
    requires id != "" && FormValid(Some(Editing(CategoryKind, Some(id))), v)
    ensures var r := Saved(t, Some(Editing(CategoryKind, Some(id))), v, now, dataUrl);
      && r.Some? && r.value.subcategories == t.subcategories
      && |r.value.categories| == |t.categories|
      && (forall i :: 0 <= i < |t.categories| && t.categories[i].id != id ==> r.value.categories[i] == t.categories[i])
      && (forall i :: 0 <= i < |t.categories| && t.categories[i].id == id ==>
            r.value.categories[i] == Category(id, v.title.value, ChosenImage(v.image, dataUrl).GetOr(t.categories[i].image)))
  {
  }

  /** A form that fails its required rules writes nothing. */
  lemma InvalidFormWritesNothing(t: Tables, editing: Option<Editing>, v: FormValues, now: nat, dataUrl: File -> string)
    requires v.title.None? || v.title == Some("")
    ensures Saved(t, editing, v, now, dataUrl).None?
  {
  }

  // ---------------------------------------------------------------------
  // The page

  class ServiceManagementPage {
    var activeTab: Tab
    var categories: seq<Category>
    var subcategories: seq<SubCategory>
    var open: bool
    var editing: Option<Editing>
    var form: FormValues

    function CurrentTables(): Tables
      reads this
    {
      Tables(categories, subcategories)
    }

    constructor ()
      ensures activeTab == CategoryTab && !open && editing.None? && form == EmptyForm
      ensures CurrentTables() == Tables(InitialCategories, InitialSubCategories)
    {
      activeTab := CategoryTab;
      categories := InitialCategories;
      subcategories := InitialSubCategories;
      open := false;
      editing := None;
      form := EmptyForm;
    }

    method ChangeTab(tab: Tab)
      modifies this
      ensures activeTab == tab
      ensures CurrentTables() == old(CurrentTables()) && open == old(open) && editing == old(editing) && form == old(form)
    {
      activeTab := tab;
    }

    /** The category row's edit button: `setFieldsValue` merges the row's
        title and a hosted-image entry into the form. */
    method EditCategoryClick(record: Category)
      modifies this
      ensures editing == Some(Editing(CategoryKind, Some(record.id))) && open
      ensures form == old(form).(title := Some(record.title), image := Some([UploadEntry(record.id, "image", None, Some(record.image))]))
      ensures CurrentTables() == old(CurrentTables()) && activeTab == old(activeTab)
    {
      editing := Some(Editing(CategoryKind, Some(record.id)));
      form := form.(title := Some(record.title), image := Some([UploadEntry(record.id, "image", None, Some(record.image))]));
      open := true;
    }

    method EditSubCategoryClick(record: SubCategory)
      modifies this
      ensures editing == Some(Editing(SubCategoryKind, Some(record.id))) && open
      ensures form == old(form).(title := Some(record.title), categoryId := Some(record.categoryId))
      ensures CurrentTables() == old(CurrentTables()) && activeTab == old(activeTab)
    {
      editing := Some(Editing(SubCategoryKind, Some(record.id)));
      form := form.(title := Some(record.title), categoryId := Some(record.categoryId));
      open := true;
    }

    /** Deleting a category leaves the subcategories untouched. */
    method DeleteCategoryClick(record: Category)
      modifies this
      ensures categories == DeleteCategory(old(categories), record.id)
      ensures subcategories == old(subcategories) && open == old(open) && editing == old(editing) && form == old(form)
      ensures activeTab == old(activeTab)
    {
      categories := DeleteCategory(categories, record.id);
    }

    method DeleteSubCategoryClick(record: SubCategory)
      modifies this
      ensures subcategories == DeleteSubCategory(old(subcategories), record.id)
      ensures categories == old(categories) && open == old(open) && editing == old(editing) && form == old(form)
      ensures activeTab == old(activeTab)
    {
      subcategories := DeleteSubCategory(subcategories, record.id);
    }

    /** `onAddClick`: a new row of that kind, with a cleared form. */
    method AddClick(kind: EntityKind)
      modifies this
      ensures editing == Some(Editing(kind, None)) && form == EmptyForm && open
      ensures CurrentTables() == old(CurrentTables()) && activeTab == old(activeTab)
    {
      editing := Some(Editing(kind, None));
      form := EmptyForm;
      open := true;
    }

    /** Typing or choosing in the modal's fields. */
    method EnterValues(v: FormValues)
      modifies this
      ensures form == v
      ensures CurrentTables() == old(CurrentTables()) && open == old(open) && editing == old(editing)
      ensures activeTab == old(activeTab)
    {
      form := v;
    }

    method Cancel()
      modifies this
      ensures !open
      ensures CurrentTables() == old(CurrentTables()) && editing == old(editing) && form == old(form)
      ensures activeTab == old(activeTab)
    {
      open := false;
    }

    /** `onSubmit`; `now` stands for `Date.now()` and `dataUrl` for the
        `FileReader` conversion. The modal closes after every save, whichever
        branch ran. */
    method Submit(now: nat, dataUrl: File -> string) returns (saved: bool)
      modifies this
      ensures saved <==> Saved(old(CurrentTables()), editing, form, now, dataUrl).Some?
      ensures saved ==> CurrentTables() == Saved(old(CurrentTables()), editing, form, now, dataUrl).value && !open
      ensures !saved ==> CurrentTables() == old(CurrentTables()) && open == old(open)
      ensures editing == old(editing) && form == old(form) && activeTab == old(activeTab)
    {
      if !FormValid(editing, form) {
        return false;
      }
      var values := form;
      if editing.Some? && editing.value.kind == CategoryKind {
        var image := ChosenImage(values.image, dataUrl);
        if Truthy(editing.value.id) {
          categories := EditedCategories(categories, editing.value.id.value, values.title.value, image);
        } else {
          var id := NewId("cat-", values.title.value, now);
          categories := categories + [Category(id, values.title.value, image.GetOr(""))];
        }
      } else if editing.Some? {
        if Truthy(editing.value.id) {
          subcategories := EditedSubCategories(subcategories, editing.value.id.value, values.title.value, values.categoryId.value);
        } else {
          var id := NewId("sub-", values.title.value, now);
          subcategories := subcategories + [SubCategory(id, values.title.value, values.categoryId.value)];
        }
      }
      open := false;
      return true;
    }
  }
}
