# el_badaoui dashboard — a Dafny model of the admin pages

This project models the page logic of the el_badaoui administration
dashboard. The dashboard is a React console for a home-services marketplace.
The model covers:

- **Extra services.** The question editor with its pricing configuration
  (flat or tiered) and its answer options. It is hydrated from a persisted
  question, validated, and serialised into a multipart request.
- **Service management.** The in-memory category and subcategory tables:
  edit, delete, add with a generated slug id, and the category-title lookup.
- **Categories.** The category modal: name, a single image upload, the
  effect that pre-fills the hosted image, and validation.
- **Our projects.** The showcase-project modal: two single-image upload slots
  that refuse non-images, form validation, the request form, and the
  description truncation.
- **Project details.** Three modals: status, VAT amounts, and artisan
  assignment. They cover the guards, the payloads and the reset after
  success.
- **Users.** The URL-driven table state (page, limit, role, search term), the
  search handler, and the confirm dialogs for block/activate and delete.
- **Project management.** The status and free-text filter over the fixed
  project table.
- **Sidebar.** The route effect that picks the highlighted menu key and the
  expanded submenu.
- **Language selector.** The `lang` URL parameter, with French as the
  default.
- **Recent active projects.** The mapping of server records to table rows,
  and the status badge.

Each stateful React component is a `class` whose fields are its `useState`
variables (and, where the page reads the URL, the search parameters). Each
handler is a `method` whose `ensures` ties the new state to a pure function
of the old state. The page's promises are proved as lemmas about those
functions. Server calls are not executed: a mutation's outcome is an
`ApiResult` parameter, either `ApiOk` or `ApiError` with the server's optional
message. Shared JavaScript semantics are modelled once:

- `Text`: `trim` with JavaScript's whitespace, `toLowerCase`, `includes`,
  `startsWith`, and `toString`/`parseInt` on non-negative integers;
- `SearchParams`: `URLSearchParams` as an ordered list of pairs;
- `Lists`: `filter`, `find` and removal by index;
- `Common`: `Option` and JavaScript truthiness of optional strings.

Three behaviours of the extra-service editor are easy to misread:

- A new draft starts as a single-choice question (`ExtraService.tsx:129`),
  not a multiple-choice one.
- Changing the question type only sets the type (`ExtraService.tsx:280`). It
  neither discards the options nor installs a default pricing.
- On success the editor only calls its `onClose` prop (`ExtraService.tsx:244`).
  The draft is replaced when the opening effect next runs, not discarded at
  once.

## Model

| member | source | states |
|---|---|---|
| Common.Or | src/Pages/Dashboard/Users.tsx:65-68 | `value \|\| fallback` on an optional string: the value when it is non-empty, otherwise the fallback; never empty when the fallback is not |
| Text.TrimStart | src/Pages/Dashboard/serviceManagement/ExtraService.tsx:174 | the result is a suffix of the input, everything cut is whitespace, and the result does not start with whitespace |
| Text.TrimEnd | src/Pages/Dashboard/serviceManagement/ExtraService.tsx:174 | the result is a prefix of the input, everything cut is whitespace, and the result does not end with whitespace |
| Text.TrimEmptyIffAllSpace | src/Pages/Dashboard/serviceManagement/ExtraService.tsx:174 | `!s.trim()` holds exactly when every character of `s` is whitespace |
| Text.TrimIdempotent | src/Pages/Dashboard/Users.tsx:126-127 | trimming an already trimmed text changes nothing |
| Text.Lower | src/Pages/Dashboard/ProjectManagement.tsx:156 | `toLowerCase` keeps the length and lower-cases each character on its own |
| Text.LowerAppend | src/Pages/Dashboard/ProjectManagement.tsx:160-161 | lower-casing distributes over concatenation |
| Text.LowerKeepsSpaces | src/Pages/Dashboard/ServiceManagement.tsx:182-183 | lower-casing neither creates nor removes whitespace |
| Text.IncludesIff | src/Pages/Dashboard/ProjectManagement.tsx:162 | `includes` holds exactly when the needle occurs at some index |
| Text.IncludesEmptyAndSelf | src/Pages/Dashboard/ProjectManagementDetails.tsx:438-442 | every text includes the empty text and itself |
| Text.IncludesPrefix | src/Pages/Dashboard/ProjectManagementDetails.tsx:438-442 | a text includes each of its prefixes |
| Text.NatToDecimal | src/Pages/Dashboard/Users.tsx:72-73 | `toString` of a non-negative integer is a non-empty run of digits |
| Text.LeadingDigits | src/Pages/Dashboard/Users.tsx:65-66 | the digits `parseInt` reads: a prefix of digits followed by a non-digit or the end |
| Text.DecimalRoundTrip | src/Pages/Dashboard/Users.tsx:65-73 | the digits printed for a number have that number as value |
| Text.ParseIntDecimal | src/Pages/Dashboard/Users.tsx:65-73 | `parseInt(n.toString())` gives back `n` |
| Text.ParseIntNaN | src/Pages/Dashboard/Users.tsx:65-66 | a text that does not start (after whitespace) with a digit parses to NaN |
| Text.AllDigitsAreLeading | src/Pages/Dashboard/Users.tsx:65-66 | a text made of digits is read entirely |
| Lists.Filter | src/Pages/Dashboard/ProjectManagement.tsx:157-164 | `filter` keeps exactly the elements passing the test, and no more of them than the input has |
| Lists.FilterCounts | src/Pages/Dashboard/ProjectManagement.tsx:157-164 | `filter` keeps each passing value as many times as the input holds it, and no failing value at all |
| Lists.FilterIsSubsequence | src/Pages/Dashboard/ProjectManagement.tsx:157-164 | `filter` keeps the input's order |
| Lists.FilterKeepsAll | src/Pages/Dashboard/ProjectManagement.tsx:157-164 | when every element passes, `filter` returns the input itself |
| Lists.RemoveAt | src/Pages/Dashboard/serviceManagement/ExtraService.tsx:157 | `filter((_, i) => i !== index)` drops exactly the element at `index`, and nothing for an index out of range |
| Lists.FindIndex | src/Layout/Main/Sidebar.tsx:166-169 | `find` returns the first element passing the test, or nothing when none does |
| SearchParams.Get | src/components/common/LanguageSelector.tsx:23 | `get` is absent exactly when no pair has the name, and otherwise the value of the first pair with that name |
| SearchParams.Without | src/components/common/LanguageSelector.tsx:28-29 | removing a name leaves no pair of that name |
| SearchParams.GetAfterSet | src/components/common/LanguageSelector.tsx:28-29 | after `set(name, value)`, `get(name)` is `value` |
| SearchParams.GetOtherAfterSet | src/components/common/LanguageSelector.tsx:66-67 | `set` leaves every other name's value alone |
| SearchParams.WithoutKeepsOthers | src/components/common/LanguageSelector.tsx:66-67 | removing one name leaves every other name's value alone |
| SearchParams.SetKeepsOtherPairs | src/components/common/LanguageSelector.tsx:66-67 | apart from the set name, `set` keeps every other pair in order, and the new pair is present |
| SearchParams.WithoutIdempotent | src/components/common/LanguageSelector.tsx:66-67 | removing a name twice is removing it once |
| ExtraService.FreshPricingForgets | src/Pages/Dashboard/serviceManagement/ExtraService.tsx:61-70 | two drafts that differ only in their pricing are equal after the same pricing-kind switch; a flat switch leaves no tiers and price 0, a tiered one no flat price and one open tier |
| ExtraService.AddTierAppends | src/Pages/Dashboard/serviceManagement/ExtraService.tsx:76-84 | adding a tier appends one open tier at price 0 after the existing tiers and keeps kind and flat price |
| ExtraService.UpdateTierIsLocal | src/Pages/Dashboard/serviceManagement/ExtraService.tsx:93-104 | updating a tier changes only the named field of the tier at that index |
| ExtraService.RemoveOptionKeepsOne | src/Pages/Dashboard/serviceManagement/ExtraService.tsx:155-161 | removing an option drops exactly that option while more than one is left; with one option left nothing changes and the warning is shown |
| ExtraService.FromPersistedAll | src/Pages/Dashboard/serviceManagement/ExtraService.tsx:117-124 | the persisted options are copied one for one, in order |
| ExtraService.HydrationCases | src/Pages/Dashboard/serviceManagement/ExtraService.tsx:108-141 | a new draft is empty single-choice with one blank option and flat price 0; an edited numeric question takes its pricing and no options; any other edited question takes its options and flat price 0 |
| ExtraService.BlankMeansTrimmedEmpty | src/Pages/Dashboard/serviceManagement/ExtraService.tsx:174-177 | the draft is refused for its question text exactly when the text trims to empty; an option text is blank exactly when it trims to empty |
| ExtraService.NumberInputPricingRule | src/Pages/Dashboard/serviceManagement/ExtraService.tsx:179-184 | a numeric question passes with flat pricing, and with tiered pricing exactly when the tier list is present and non-empty |
| ExtraService.FreshPricingValid | src/Pages/Dashboard/serviceManagement/ExtraService.tsx:61-70 | whichever pricing kind was just chosen, a numeric question with text passes validation |
| ExtraService.ChoiceOptionRules | src/Pages/Dashboard/serviceManagement/ExtraService.tsx:185-199 | a choice question is refused for a blank option text; otherwise only an image question missing an option image is refused |
| ExtraService.NewDraftRefused | src/Pages/Dashboard/serviceManagement/ExtraService.tsx:127-139 | a new draft is refused until its question text is filled in |
| ExtraService.EditedImageQuestionMissingImageRefused | src/Pages/Dashboard/serviceManagement/ExtraService.tsx:121 | an edited image question in which a persisted option has no image cannot be submitted as it is |
| ExtraService.WireOptions | src/Pages/Dashboard/serviceManagement/ExtraService.tsx:210-218 | one wire option per option, in order |
| ExtraService.ImagePartsExact | src/Pages/Dashboard/serviceManagement/ExtraService.tsx:222-228 | a part `optionImages[i]` carrying a file is sent exactly when option `i` holds that freshly picked file |
| ExtraService.ImagePartsNamesOnly | src/Pages/Dashboard/serviceManagement/ExtraService.tsx:222-228 | the file parts are only `optionImages[...]` parts carrying files |
| ExtraService.WireOptionsMirror | src/Pages/Dashboard/serviceManagement/ExtraService.tsx:210-218 | each wire option has its option's id, text and modifier, and carries `optionImage` exactly when the image is an already hosted path |
| ExtraService.CategoryIdOnlyOnCreate | src/Pages/Dashboard/serviceManagement/ExtraService.tsx:230-243 | an edit sends the update with no `categoryId`; a create sends `categoryId` as the last field |
| ExtraService.NumberInputSerialisation | src/Pages/Dashboard/serviceManagement/ExtraService.tsx:203-208 | a numeric question sends its text, its type, its pricing unchanged and an empty options list |
| ExtraService.TwoOptionCreateExample | src/Pages/Dashboard/serviceManagement/ExtraService.tsx:173-243 | a two-option multiple-choice draft in create mode is sent as one create request with exactly the expected fields |
| ExtraService.QuestionEditor.constructor | src/Pages/Dashboard/serviceManagement/ExtraService.tsx:53-56 | the `useState` initial values |
| ExtraService.QuestionEditor.Hydrate | src/Pages/Dashboard/serviceManagement/ExtraService.tsx:108-141 | the draft becomes the hydration of the edited question, or the new-draft defaults |
| ExtraService.QuestionEditor.ChangeQuestionText | src/Pages/Dashboard/serviceManagement/ExtraService.tsx:269-271 | the text changes in create mode; the input is disabled while editing |
| ExtraService.QuestionEditor.ChangeQuestionType | src/Pages/Dashboard/serviceManagement/ExtraService.tsx:280-288 | only the type changes in create mode; the selector is disabled while editing |
| ExtraService.QuestionEditor.ChangePricingType | src/Pages/Dashboard/serviceManagement/ExtraService.tsx:308-314 | the pricing becomes the fresh configuration of the chosen kind in create mode; disabled while editing |
| ExtraService.QuestionEditor.UpdateFlatPrice | src/Pages/Dashboard/serviceManagement/ExtraService.tsx:72-74 | the pricing becomes flat at the given price, nothing else changes |
| ExtraService.QuestionEditor.AddTier | src/Pages/Dashboard/serviceManagement/ExtraService.tsx:76-84 | the pricing gets one open tier appended, nothing else changes |
| ExtraService.QuestionEditor.UpdateTier | src/Pages/Dashboard/serviceManagement/ExtraService.tsx:93-104 | one field of one tier changes, nothing else |
| ExtraService.QuestionEditor.AddOption | src/Pages/Dashboard/serviceManagement/ExtraService.tsx:143-153 | one blank option is appended |
| ExtraService.QuestionEditor.RemoveOption | src/Pages/Dashboard/serviceManagement/ExtraService.tsx:155-161 | the options and warning are those of the removal rule |
| ExtraService.QuestionEditor.ChangeOption | src/Pages/Dashboard/serviceManagement/ExtraService.tsx:163-167 | one field of the option at the index changes, every other option is kept |
| ExtraService.QuestionEditor.UploadOptionImage | src/Pages/Dashboard/serviceManagement/ExtraService.tsx:169-171 | the option's image becomes the picked file, or no image when the entry has none |
| ExtraService.QuestionEditor.CheckDraft | src/Pages/Dashboard/serviceManagement/ExtraService.tsx:174-199 | the loop over the options returns the refusal of the validation rule, in the source's order of checks |
| ExtraService.QuestionEditor.BuildForm | src/Pages/Dashboard/serviceManagement/ExtraService.tsx:202-228 | the loop builds the multipart form the serialisation rule describes |
| ExtraService.QuestionEditor.Submit | src/Pages/Dashboard/serviceManagement/ExtraService.tsx:173-248 | the outcome is refusal, success or failure with the server's message or "Operation failed", as the submit rule says |
| ServiceManagement.DeleteCategoryRemovesOnly | src/Pages/Dashboard/ServiceManagement.tsx:104 | deleting a category removes every row with that id and keeps every other row in order, each as many times as it occurred |
| ServiceManagement.DeleteSubCategoryRemovesOnly | src/Pages/Dashboard/ServiceManagement.tsx:142 | deleting a subcategory removes every row with that id and keeps every other row in order, each as many times as it occurred |
| ServiceManagement.TitleOfMissing | src/Pages/Dashboard/ServiceManagement.tsx:120 | with no category of that id the column shows the raw id |
| ServiceManagement.TitleOfFirst | src/Pages/Dashboard/ServiceManagement.tsx:120 | otherwise the column shows the title of the first category with that id |
| ServiceManagement.TitleAfterDelete | src/Pages/Dashboard/ServiceManagement.tsx:104-120 | a subcategory whose category was deleted shows the category id |
| ServiceManagement.EditedCategories | src/Pages/Dashboard/ServiceManagement.tsx:169-179 | editing keeps length, ids and every other row; the edited rows get the new title, and the new image when one was chosen |
| ServiceManagement.EditedSubCategories | src/Pages/Dashboard/ServiceManagement.tsx:194-197 | editing keeps every other row; the edited rows take the form's title and category |
| ServiceManagement.TitleAfterEdit | src/Pages/Dashboard/ServiceManagement.tsx:120-179 | after an edit the column shows the new title for the edited id |
| ServiceManagement.TitleOfOtherAfterEdit | src/Pages/Dashboard/ServiceManagement.tsx:120-179 | and the old title for every other id |
| ServiceManagement.Slug | src/Pages/Dashboard/ServiceManagement.tsx:181-183 | the slug of a title holds no whitespace |
| ServiceManagement.SlugOfWord | src/Pages/Dashboard/ServiceManagement.tsx:181-183 | a title without whitespace is only lower-cased |
| ServiceManagement.SlugJoinsWords | src/Pages/Dashboard/ServiceManagement.tsx:181-183 | words separated by a whitespace run are joined by exactly one "-" |
| ServiceManagement.NewIdShape | src/Pages/Dashboard/ServiceManagement.tsx:181-183 | a new id starts with its prefix, holds no whitespace, and ends with "-" and the timestamp's digits |
| ServiceManagement.AddCategoryAppends | src/Pages/Dashboard/ServiceManagement.tsx:180-191 | adding a category appends exactly one row with the form's title after the unchanged old rows, and keeps the subcategories |
| ServiceManagement.AddSubCategoryAppends | src/Pages/Dashboard/ServiceManagement.tsx:198-205 | adding a subcategory appends exactly one row with a "sub-" id and the form's title and parent category after the unchanged old rows, and keeps the categories |
| ServiceManagement.EditCategoryIsLocal | src/Pages/Dashboard/ServiceManagement.tsx:169-179 | editing a category changes only the rows with that id and keeps the subcategories |
| ServiceManagement.InvalidFormWritesNothing | src/Pages/Dashboard/ServiceManagement.tsx:329-362 | a form with no title fails its required rule and writes nothing |
| ServiceManagement.ServiceManagementPage.constructor | src/Pages/Dashboard/ServiceManagement.tsx:31-68 | the initial tables and a closed modal on the category tab |
| ServiceManagement.ServiceManagementPage.ChangeTab | src/Pages/Dashboard/ServiceManagement.tsx:305 | only the active tab changes |
| ServiceManagement.ServiceManagementPage.EditCategoryClick | src/Pages/Dashboard/ServiceManagement.tsx:90-97 | the modal opens on that category, its title and hosted image merged into the form |
| ServiceManagement.ServiceManagementPage.EditSubCategoryClick | src/Pages/Dashboard/ServiceManagement.tsx:128-135 | the modal opens on that subcategory, its title and category merged into the form |
| ServiceManagement.ServiceManagementPage.DeleteCategoryClick | src/Pages/Dashboard/ServiceManagement.tsx:104 | the category table loses that id; the subcategories stay |
| ServiceManagement.ServiceManagementPage.DeleteSubCategoryClick | src/Pages/Dashboard/ServiceManagement.tsx:142 | the subcategory table loses that id; the categories stay |
| ServiceManagement.ServiceManagementPage.AddClick | src/Pages/Dashboard/ServiceManagement.tsx:152-156 | the modal opens for a new row of that kind with a cleared form |
| ServiceManagement.ServiceManagementPage.EnterValues | src/Pages/Dashboard/ServiceManagement.tsx:329-366 | the form holds what was typed |
| ServiceManagement.ServiceManagementPage.Cancel | src/Pages/Dashboard/ServiceManagement.tsx:319 | the modal closes, nothing else changes |
| ServiceManagement.ServiceManagementPage.Submit | src/Pages/Dashboard/ServiceManagement.tsx:166-209 | a valid form writes the saved tables and closes the modal; an invalid one changes nothing |
| Categories.FindCategory | src/Pages/Dashboard/serviceManagement/Categories.tsx:62 | `find` by id: the first category with that id; none is found exactly when no category has it |
| Categories.PendingImageRule | src/Pages/Dashboard/serviceManagement/Categories.tsx:316-325 | the image to send is the first entry exactly when it holds a fresh file; the pre-filled hosted entry is never sent |
| Categories.SyncShowsEditedImage | src/Pages/Dashboard/serviceManagement/Categories.tsx:60-76 | while a category is edited, the upload list shows its hosted image under the base URL |
| Categories.BlankNameRefused | src/Pages/Dashboard/serviceManagement/Categories.tsx:197-200 | a name that trims to empty is refused before any request |
| Categories.ImageRequiredOnlyOnCreate | src/Pages/Dashboard/serviceManagement/Categories.tsx:202-213 | creating without an image is refused; editing without one sends the update with no image |
| Categories.ChosenFileIsSent | src/Pages/Dashboard/serviceManagement/Categories.tsx:207-221 | a picked file is sent with the name |
| Categories.CategoriesPage.constructor | src/Pages/Dashboard/serviceManagement/Categories.tsx:34-45 | the `useState` initial values |
| Categories.CategoriesPage.SyncFileList | src/Pages/Dashboard/serviceManagement/Categories.tsx:60-76 | the upload list follows the edited category, or is emptied with no edit |
| Categories.CategoriesPage.Edit | src/Pages/Dashboard/serviceManagement/Categories.tsx:154-159 | the modal opens on that category's id and name, with no image chosen |
| Categories.CategoriesPage.AddClick | src/Pages/Dashboard/serviceManagement/Categories.tsx:189-194 | the modal opens for a new category with an empty name and no image |
| Categories.CategoriesPage.ChangeName | src/Pages/Dashboard/serviceManagement/Categories.tsx:304 | only the name changes |
| Categories.CategoriesPage.ChangeUpload | src/Pages/Dashboard/serviceManagement/Categories.tsx:316-325 | the list is replaced and the image becomes its pending file, if any |
| Categories.CategoriesPage.Cancel | src/Pages/Dashboard/serviceManagement/Categories.tsx:287 | the modal closes, nothing else changes |
| Categories.CategoriesPage.Submit | src/Pages/Dashboard/serviceManagement/Categories.tsx:196-229 | the outcome is the submit rule's; success closes the modal and clears the name and image; otherwise nothing changes |
| Categories.CategoriesPage.ViewServices | src/Pages/Dashboard/serviceManagement/Categories.tsx:179-182 | the services list opens for that category |
| Categories.CategoriesPage.AddService | src/Pages/Dashboard/serviceManagement/Categories.tsx:184-187 | the add-service modal opens for that category |
| Categories.CategoriesPage.CloseViewServices | src/Pages/Dashboard/serviceManagement/Categories.tsx:336-339 | the services list closes and the selected category is cleared |
| Categories.CategoriesPage.CloseAddService | src/Pages/Dashboard/serviceManagement/Categories.tsx:346-349 | the add-service modal closes and the selected category is cleared |
| OurProjects.PickRule | src/Pages/Dashboard/OurProjectsManagement.tsx:264-281 | a non-image file is refused with its message and the list kept; an image becomes the only entry, carrying that file |
| OurProjects.ValidationRule | src/Pages/Dashboard/OurProjectsManagement.tsx:367-423 | the form passes exactly when title and description are filled in and, outside an edit, both slots hold an entry; an edit passes with empty slots |
| OurProjects.RequestFormParts | src/Pages/Dashboard/OurProjectsManagement.tsx:121-144 | title and description come first; "video" is sent exactly when the link is non-empty; an image part exactly when its slot's first entry holds a fresh file |
| OurProjects.HostedImagesNotResent | src/Pages/Dashboard/OurProjectsManagement.tsx:74-91 | the images pre-filled for an edit are never resent, so an untouched edit sends only title and description |
| OurProjects.TruncateRule | src/Pages/Dashboard/OurProjectsManagement.tsx:222 | a description of at most 50 characters is shown whole; a longer one as exactly its first 50 characters followed by "..." |
| OurProjects.OurProjectsPage.constructor | src/Pages/Dashboard/OurProjectsManagement.tsx:40-48 | the `useState` initial values |
| OurProjects.OurProjectsPage.OpenModal | src/Pages/Dashboard/OurProjectsManagement.tsx:64-99 | an edit pre-fills the form and both slots with the hosted images; a create clears them |
| OurProjects.OurProjectsPage.CloseModal | src/Pages/Dashboard/OurProjectsManagement.tsx:101-107 | the modal closes and the edit, the form and both slots are cleared |
| OurProjects.OurProjectsPage.OpenViewModal | src/Pages/Dashboard/OurProjectsManagement.tsx:109-112 | the view modal opens on that project |
| OurProjects.OurProjectsPage.CloseViewModal | src/Pages/Dashboard/OurProjectsManagement.tsx:114-117 | the view modal closes and the viewed project is cleared |
| OurProjects.OurProjectsPage.ChangePage | src/Pages/Dashboard/OurProjectsManagement.tsx:352 | only the page changes |
| OurProjects.OurProjectsPage.EnterValues | src/Pages/Dashboard/OurProjectsManagement.tsx:367-389 | the form holds what was typed |
| OurProjects.OurProjectsPage.PickFile | src/Pages/Dashboard/OurProjectsManagement.tsx:262-316 | the chosen slot follows the pick rule; the other slot is kept |
| OurProjects.OurProjectsPage.RemoveFile | src/Pages/Dashboard/OurProjectsManagement.tsx:283-285 | the chosen slot is emptied; the other slot is kept |
| OurProjects.OurProjectsPage.Submit | src/Pages/Dashboard/OurProjectsManagement.tsx:119-162 | the outcome is the submit rule's; success closes and clears the modal; otherwise nothing changes |
| ProjectDetails.StatusLabelsAgree | src/Pages/Dashboard/ProjectManagementDetails.tsx:27-31 | each status choice carries the label the status tag shows for its value, and the three labels differ |
| ProjectDetails.VatRule | src/Pages/Dashboard/ProjectManagementDetails.tsx:101-127 | no request without a route id or with both amounts unset (then the warning); otherwise exactly the set amounts are sent; a cleared or zero input counts as unset |
| ProjectDetails.StatusAndArtisanRule | src/Pages/Dashboard/ProjectManagementDetails.tsx:85-148 | a status or artisan request is sent exactly when the route id and the selection are both present; only the artisan guard warns |
| ProjectDetails.ArtisanOptions | src/Pages/Dashboard/ProjectManagementDetails.tsx:151-155 | one option per artisan, labelled first name, space, last name, valued by its id |
| ProjectDetails.FilterOptionRule | src/Pages/Dashboard/ProjectManagementDetails.tsx:438-442 | the artisan search matches exactly when the typed text occurs in the label, ignoring case; empty input and a first name always match |
| ProjectDetails.ProjectDetailsPage.constructor | src/Pages/Dashboard/ProjectManagementDetails.tsx:48-56 | the `useState` initial values for the route's id |
| ProjectDetails.ProjectDetailsPage.OpenStatusModal | src/Pages/Dashboard/ProjectManagementDetails.tsx:61-66 | the status modal opens, pre-selected with the loaded status |
| ProjectDetails.ProjectDetailsPage.OpenVatModal | src/Pages/Dashboard/ProjectManagementDetails.tsx:69-75 | the VAT modal opens, pre-filled with the loaded amounts |
| ProjectDetails.ProjectDetailsPage.OpenArtisanModal | src/Pages/Dashboard/ProjectManagementDetails.tsx:78-83 | the artisan modal opens, pre-selected with the assigned artisan |
| ProjectDetails.ProjectDetailsPage.SelectStatus | src/Pages/Dashboard/ProjectManagementDetails.tsx:346 | only the selected status changes |
| ProjectDetails.ProjectDetailsPage.ChangeTotalWithoutVat | src/Pages/Dashboard/ProjectManagementDetails.tsx:379 | the amount becomes the input, or unset for a cleared or zero input |
| ProjectDetails.ProjectDetailsPage.ChangeTotalWithVat | src/Pages/Dashboard/ProjectManagementDetails.tsx:398 | the same for the amount with VAT |
| ProjectDetails.ProjectDetailsPage.SelectArtisan | src/Pages/Dashboard/ProjectManagementDetails.tsx:433 | only the selected artisan changes |
| ProjectDetails.ProjectDetailsPage.UpdateStatus | src/Pages/Dashboard/ProjectManagementDetails.tsx:85-99 | the outcome is the status rule's; success closes the modal |
| ProjectDetails.ProjectDetailsPage.UpdateVat | src/Pages/Dashboard/ProjectManagementDetails.tsx:101-127 | the outcome is the VAT rule's; success closes the modal and clears both amounts |
| ProjectDetails.ProjectDetailsPage.UpdateArtisan | src/Pages/Dashboard/ProjectManagementDetails.tsx:130-148 | the outcome is the artisan rule's; success closes the modal and clears the selection |
| ProjectDetails.ProjectDetailsPage.CancelStatus | src/Pages/Dashboard/ProjectManagementDetails.tsx:333-336 | the status modal closes and the selection is cleared |
| ProjectDetails.ProjectDetailsPage.CancelVat | src/Pages/Dashboard/ProjectManagementDetails.tsx:364-368 | the VAT modal closes and both amounts are cleared |
| ProjectDetails.ProjectDetailsPage.CancelArtisan | src/Pages/Dashboard/ProjectManagementDetails.tsx:415-418 | the artisan modal closes and the selection is cleared |
| Users.NumberText | src/Pages/Dashboard/Users.tsx:72-73 | `toString` of a number, "NaN" included, is never empty |
| Users.NumberTextRoundTrip | src/Pages/Dashboard/Users.tsx:65-73 | parsing the printed page or limit gives it back, NaN included |
| Users.UrlDefaults | src/Pages/Dashboard/Users.tsx:65-68 | with no URL parameters: page 1, limit 10, tab "USER", no search |
| Users.ReadBack | src/Pages/Dashboard/Users.tsx:100-130 | the parameters a handler writes are read back as that role, page, limit and search term; `searchTerm` is present exactly when non-empty |
| Users.TabChangeRule | src/Pages/Dashboard/Users.tsx:100-106 | a tab change selects the tab (or "USER" for an empty key), goes to page 1, keeps the limit and drops the search |
| Users.PageChangeRule | src/Pages/Dashboard/Users.tsx:108-118 | a page change keeps the tab and the search and takes the new page and size |
| Users.SearchChangeRule | src/Pages/Dashboard/Users.tsx:120-130 | a search keeps tab and limit, goes to page 1, and stores the trimmed text, which is absent exactly when the text is all whitespace |
| Users.Toggled | src/Pages/Dashboard/Users.tsx:145 | the new status is "INACTIVE" exactly when the old one is "ACTIVE"; it is always one of the two |
| Users.ToggleTwice | src/Pages/Dashboard/Users.tsx:145 | toggling twice gives back the status |
| Users.BlockRule | src/Pages/Dashboard/Users.tsx:142-158 | confirming sends the toggled status for the selected user; success reports "blocked" or "activated"; a failure reports the server's message when it is non-empty and "Failed to update user status" otherwise |
| Users.DeleteRule | src/Pages/Dashboard/Users.tsx:165-176 | confirming deletes the selected user; success reports "User deleted successfully"; a failure reports the server's message when it is non-empty and "Failed to delete user" otherwise |
| Users.UsersPage.constructor | src/Pages/Dashboard/Users.tsx:54-61 | the `useState` initial values for a URL |
| Users.UsersPage.QueryParams | src/Pages/Dashboard/Users.tsx:71-79 | the query is page, limit and role, plus `searchTerm` when the search is non-empty |
| Users.UsersPage.SyncSearchTerm | src/Pages/Dashboard/Users.tsx:87-89 | the search box takes the URL's search term |
| Users.UsersPage.ChangeSearchTerm | src/Pages/Dashboard/Users.tsx:354 | only the search box changes |
| Users.UsersPage.HandleTabChange | src/Pages/Dashboard/Users.tsx:100-106 | the URL becomes the tab-change parameters |
| Users.UsersPage.HandlePageChange | src/Pages/Dashboard/Users.tsx:108-118 | the URL becomes the page-change parameters |
| Users.UsersPage.SearchObject | src/Pages/Dashboard/Users.tsx:121-128 | the parameter object built by the search handler, pushed field by field |
| Users.UsersPage.HandleSearch | src/Pages/Dashboard/Users.tsx:120-130 | the URL becomes the search parameters |
| Users.UsersPage.DebounceElapsed | src/Pages/Dashboard/Users.tsx:91-98 | when the timer fires, a search box that differs from the URL is searched; otherwise nothing changes |
| Users.UsersPage.HandleView | src/Pages/Dashboard/Users.tsx:132-135 | the view dialog opens on that user |
| Users.UsersPage.HandleBlock | src/Pages/Dashboard/Users.tsx:137-140 | the block dialog opens on that user |
| Users.UsersPage.HandleDelete | src/Pages/Dashboard/Users.tsx:160-163 | the delete dialog opens on that user |
| Users.UsersPage.CloseView | src/Pages/Dashboard/Users.tsx:391-394 | the view dialog closes and the selection is cleared |
| Users.UsersPage.CancelBlock | src/Pages/Dashboard/Users.tsx:427-430 | the block dialog closes and the selection is cleared |
| Users.UsersPage.CancelDelete | src/Pages/Dashboard/Users.tsx:447-450 | the delete dialog closes and the selection is cleared |
| Users.UsersPage.ConfirmBlock | src/Pages/Dashboard/Users.tsx:142-158 | the outcome is the block rule's; success closes the dialog and clears the selection; otherwise nothing changes |
| Users.UsersPage.ConfirmDelete | src/Pages/Dashboard/Users.tsx:165-176 | the outcome is the delete rule's; success closes the dialog and clears the selection; otherwise nothing changes |
| ProjectManagement.ShownRule | src/Pages/Dashboard/ProjectManagement.tsx:157-164 | the table shows, in their original order and with their multiplicity, exactly the rows passing both the status and the search test |
| ProjectManagement.UnfilteredShowsAll | src/Pages/Dashboard/ProjectManagement.tsx:155-165 | with "All" and a blank or whitespace-only search every row is shown |
| ProjectManagement.StatusFilterExact | src/Pages/Dashboard/ProjectManagement.tsx:158-159 | with one status selected every shown row has that status |
| ProjectManagement.SearchSpansFields | src/Pages/Dashboard/ProjectManagement.tsx:160-162 | a term occurring anywhere in the joined "client artisan" text, across the space between them, finds the row |
| ProjectManagement.SearchTermIsLowerCase | src/Pages/Dashboard/ProjectManagement.tsx:156 | the search term is already lower case, like the text it is looked up in |
| Sidebar.UnknownPathKeepsState | src/Layout/Main/Sidebar.tsx:165-185 | a path that is neither an entry's key nor a child's key changes nothing |
| Sidebar.KnownPathSelected | src/Layout/Main/Sidebar.tsx:171-172 | a known path becomes the highlighted key |
| Sidebar.ChildPathOpensParent | src/Layout/Main/Sidebar.tsx:166-176 | a child's path expands exactly the submenu holding it, when no earlier entry claims the path |
| Sidebar.LeafPathKeepsOpenKeys | src/Layout/Main/Sidebar.tsx:176-183 | a top-level route no submenu lists keeps the expanded submenus as they were |
| Sidebar.AvailableTimeOpensSettings | src/Layout/Main/Sidebar.tsx:36-163 | on the real menu "/available-time" highlights itself and expands only the settings submenu |
| Sidebar.EveryChildOpensItsSubmenu | src/Layout/Main/Sidebar.tsx:36-185 | on the real menu every child route expands exactly its own submenu |
| Sidebar.EveryLeafKeepsOpenKeys | src/Layout/Main/Sidebar.tsx:36-185 | on the real menu every top-level route keeps the expanded submenus |
| Sidebar.SidebarMenu.constructor | src/Layout/Main/Sidebar.tsx:23-24 | nothing highlighted, nothing expanded |
| Sidebar.SidebarMenu.RouteChanged | src/Layout/Main/Sidebar.tsx:165-185 | the new highlighted key and expanded submenus are those of the route rule |
| Sidebar.SidebarMenu.OpenChange | src/Layout/Main/Sidebar.tsx:187-189 | the expanded submenus become the reported ones; the highlight stays |
| LanguageSelector.CurrentLang | src/components/common/LanguageSelector.tsx:23 | the URL's language code, or "fr"; never empty |
| LanguageSelector.CurrentLanguage | src/components/common/LanguageSelector.tsx:87 | the shown language is always one of those offered |
| LanguageSelector.CurrentLanguageRule | src/components/common/LanguageSelector.tsx:87 | "en" shows English, every other code French |
| LanguageSelector.WithDefaultLangRule | src/components/common/LanguageSelector.tsx:25-31 | the mount effect writes a language into the URL without changing the shown one, keeps the other parameters, and is idempotent |
| LanguageSelector.LanguageChangeRule | src/components/common/LanguageSelector.tsx:57-68 | after a choice the chosen code is the current one, and the other parameters are kept |
| LanguageSelector.LanguagePicker.constructor | src/components/common/LanguageSelector.tsx:19-20 | the URL's parameters, dropdown closed |
| LanguageSelector.LanguagePicker.EnsureLangParam | src/components/common/LanguageSelector.tsx:27-31 | the URL becomes the one with the default language filled in |
| LanguageSelector.LanguagePicker.ChangeLanguage | src/components/common/LanguageSelector.tsx:57-68 | the dropdown closes and the URL takes the language-change rule |
| LanguageSelector.LanguagePicker.Toggle | src/components/common/LanguageSelector.tsx:92 | the dropdown flips |
| LanguageSelector.LanguagePicker.Close | src/components/common/LanguageSelector.tsx:121 | the dropdown closes |
| RecentProjects.ArtisanCell | src/components/ui/Home/RecentActiveProject.tsx:28-30 | the artisan cell is never empty |
| RecentProjects.FormatAll | src/components/ui/Home/RecentActiveProject.tsx:21-34 | no data gives no rows; otherwise one row per record, in order |
| RecentProjects.FormatRows | src/components/ui/Home/RecentActiveProject.tsx:22-34 | one formatted row per record, in order |
| RecentProjects.FormatRowRule | src/components/ui/Home/RecentActiveProject.tsx:21-34 | how each field reaches its row: the client name is " " when both names are missing; the artisan name sits between one leading and two trailing spaces; a missing or empty date is unset; the status is lower-cased |
| RecentProjects.ArtisanCellNeverEmpty | src/components/ui/Home/RecentActiveProject.tsx:50 | the column's "Not Assign yet" fallback never replaces a formatted cell |
| RecentProjects.StatusBadgeRule | src/components/ui/Home/RecentActiveProject.tsx:63-74 | the four known statuses get their own caption and a non-gray colour; anything else is shown as itself in gray |
| RecentProjects.BadgeIgnoresServerCase | src/components/ui/Home/RecentActiveProject.tsx:32-74 | statuses that differ only in case draw the same badge |

## Left out

- Network and data layer: the RTK Query hooks, refetching and loading flags are not modelled. A mutation's outcome is an `ApiResult` parameter, and fetched data (categories, project details, artisans) is passed in as values.
- `JSON.stringify`: the `pricingConfig` and `data` fields are kept as the structured values they encode, not as text.
- Browser services are parameters: `FileReader` data URLs (`dataUrl`), `URL.createObjectURL` (`objectUrl`), `Date.now()` (`now`) and `import.meta.env.VITE_API_BASE_URL` (`baseUrl`).
- Toasts, modal titles, table columns, icons and styling are not modelled, except the messages each outcome carries.
- Text.Lower: `toLowerCase` is modelled on ASCII letters only; other Unicode case mappings are not modelled.
- Text.ParseIntNaN: `parseInt` is modelled on an optional run of leading digits only. A sign prefix, a radix prefix and values beyond the safe-integer range are not modelled.
- Amounts (`pricePerUnit`, `max`, price modifiers, VAT totals) are integers; JavaScript's floating-point numbers are not modelled.
- OurProjects.TruncateRule: counts characters, where JavaScript's `length` and `slice` count UTF-16 code units.
- RecentProjects.StatusBadge: `statusMap` is a plain object, so statuses such as "constructor" would hit its prototype; only its four own keys are modelled.
- ExtraService.QuestionEditor.UpdateTier: `handleUpdateTier` writes into tier objects shared with the previous state (the array is copied, the tiers are not). The model replaces the tier as a value; the aliasing is not modelled.
- ExtraService.QuestionEditor.UpdateTier: requires an index inside the tier list. At other indices the source throws on the missing tier.
- ExtraService.QuestionEditor.ChangeOption: requires an index inside the option list. At other indices the source writes past the end and leaves holes.
- ExtraService.QuestionEditor.UploadOptionImage: requires an index inside the option list, for the same reason.
- The extra-service editor's `onClose` prop and the categories and projects it is opened from are parameters; the submit method does not close anything itself, as the source only calls the prop.
- Categories and OurProjects `handleDelete` only call the delete mutation and show a toast; nothing in page state changes, so they are not modelled.
- Users: the artisan form (`artisanModalOpen`, `editMode`, `handleAddArtisan`, `handleEditArtisan`, `handleArtisanSubmit`) is not modelled; it only forwards the form's values to the server.
- Users.UsersPage.DebounceElapsed: the 500 ms timer and its cancellation are not modelled; the method is the timer's firing after the last keystroke.
- LanguageSelector: the Google Translate call, its 100 ms polling, the 300 ms delay and the 5 s timeout are not modelled; only the URL and the dropdown state are.
- Sidebar: icons, labels and the logout handler are not modelled; the menu is modelled by its keys.
- ProjectManagement: the sample table is a constant; the currency and date formatting of its columns is not modelled.
- The other pages of the dashboard (authentication, settings, FAQ, appointments, promotions, home charts) are not part of this model.
