# Portfolio site core, modelled in Dafny

This project models the behaviour of a React portfolio site: a public
masonry gallery of design projects and an admin panel that edits projects,
page contents and site settings. Each source file of the core becomes one
Dafny module. Page and component state becomes a class whose methods are the
event handlers. Data transformations become functions with lemmas about them.

- `types.dfy` (`Types`): the records (`Project`, `PageContent`, `SiteSetting`).
  It also holds the id invariants (`DistinctIds`, `ContiguousIds`) and the
  subsequence relation.
- `text.dfy` (`Text`): the JavaScript string operations the pages use. These
  are `startsWith`, `includes`, `indexOf`, `replace`, `split`/`join` on one
  character, first-letter upper-casing and decimal rendering of numbers.
- `projects_data.dfy` (`ProjectData`): the demo data generator and the
  twenty initial projects.
- `layout.dfy` (`Layout`): the masonry grid. It covers the width-to-columns
  breakpoints, the round-robin column split over an array, and the selected
  project.
- `gallery.dfy` (`Gallery`): the id renumbering of appended batches and the
  category filter.
- `home.dfy` (`HomePage`): the home page with infinite loading.
- `projects_page.dfy` (`ProjectsPage`): the project page with its category
  filter and loading.
- `lightbox.dfy` (`LightboxOverlay`): the overlay's key listener, body
  overflow and click handling.
- `routes.dfy` (`Routes`): the public router helpers.
- `admin_layout.dfy` (`AdminShell`): the admin shell's save button, mobile
  menu and link highlighting.
- `edit_maps.dfy` (`EditMaps`): the string-keyed edit records. They are
  filled by a `forEach` loop, and one update call goes out per entry.
- `page_editor.dfy` (`PageEditorPage`): the page-content editor.
- `site_settings.dfy` (`SiteSettingsPage`): the site settings editor.
- `project_api.dfy` (`ProjectApi`): the project data hook. It covers row
  mapping, update columns, and the loading and error flags.
- `project_form.dfy` (`ProjectFormPage`): the add/edit project form.
- `project_manager.dfy` (`ProjectManagerPage`): the admin project list and
  its delete handler.

Inputs from the outside world become parameters:

- the viewport width;
- whether the scroll sentinel intersects;
- the random draws of the generator;
- how a database request settled;
- the answer of the confirm dialog;
- the current timestamp.

The two halves of a delayed load (the request and the timer firing) are
separate methods.

## Model

| member | source | states |
|---|---|---|
| Layout.ColumnsForWidth | src/components/MasonryGrid.tsx:22-41 | each width band gets its own count: 1 below 640px, 2 from 640 to 767, 3 from 768 to 1023, 4 from 1024 to 1279, 5 from 1280 (each an if-and-only-if) |
| Layout.ColumnsMonotone | src/components/MasonryGrid.tsx:25-40 | a wider viewport never gets fewer columns |
| Layout.MasonryGrid.constructor | src/components/MasonryGrid.tsx:17-18 | the grid starts with five columns and no selected project |
| Layout.MasonryGrid.HandleResize | src/components/MasonryGrid.tsx:22-44 | the column count becomes the breakpoint value for the width; the selection is untouched |
| Layout.MasonryGrid.GetColumnProjects | src/components/MasonryGrid.tsx:76-85 | the loop over a fresh array of `columns` lists yields the partition. Item i sits in column i % c at row i / c, and every slot holds such an item. The lengths sum to the item count, and the columns hold the items as a multiset |
| Layout.Partition | src/components/MasonryGrid.tsx:76-85 | the reference for the loop: one list per column, item i pushed onto list i % c in input order; its placement and conservation are the lemmas below |
| Layout.PartitionSlot | src/components/MasonryGrid.tsx:79-82 | slot j of column k exists exactly when item k + j*c exists, and it holds that item, so each column keeps input order |
| Layout.PartitionPlacement | src/components/MasonryGrid.tsx:80-81 | item i lands in column i % c at position i / c |
| Layout.PartitionIsRoundRobin | src/components/MasonryGrid.tsx:79-82 | the partition places every item and fills every slot (both directions of the placement) |
| Layout.PartitionConserves | src/components/MasonryGrid.tsx:77-82 | no item is lost or duplicated: total length and multiset equal the input's |
| Layout.EmptyPartition | src/components/MasonryGrid.tsx:77 | with no items there are still c columns, all empty |
| Layout.MasonryGrid.HandleProjectClick | src/components/MasonryGrid.tsx:89-91 | the clicked project becomes the selection; the column count is untouched |
| Layout.MasonryGrid.HandleCloseLightbox | src/components/MasonryGrid.tsx:93-95 | the selection is cleared; the column count is untouched |
| ProjectData.RandomHeight | src/data/projects.ts:8-11 | a height lies between 200 and 599 |
| ProjectData.RandomHeightOnto | src/data/projects.ts:8-11 | every height from 200 to 599 comes from exactly one drawn offset |
| ProjectData.GenerateProjects | src/data/projects.ts:23-40 | `count` items with ids 1..count and titles "Project n". Image ids cycle with period 25. Categories come from the five, heights from 200..599, and there is no optional text |
| ProjectData.TitleInjective | src/data/projects.ts:33 | different item numbers give different titles |
| ProjectData.GeneratedTitlesDistinct | src/data/projects.ts:32-33 | no two generated items share a title |
| ProjectData.InitialProjects | src/data/projects.ts:43 | the initial list has 20 items with ids exactly 1..20, all distinct |
| Text.DecimalRoundTrip | src/data/projects.ts:33 | the decimal numeral of n reads back as n |
| Types.ContiguousIdsAreDistinct | src/data/projects.ts:32 | ids numbered 1..n are distinct and lie in 1..n |
| Gallery.ShiftIds | src/pages/Home.tsx:21-24 | renumbering keeps the length, adds the offset to every id and changes no other field |
| Gallery.AppendKeepsContiguous | src/pages/Home.tsx:21-26 | a batch numbered 1..m, shifted by the list length and appended, extends ids 1..n to 1..n+m, all distinct |
| Gallery.ContiguousMaxId | src/pages/Home.tsx:23 | on a list numbered 1..n the largest id is the length, so both renumberings agree there |
| Gallery.MaxId | src/pages/Projects.tsx:42 | the result is an upper bound of all ids, and it is 0 or one of the ids |
| Gallery.AppendAfterMaxKeepsDistinct | src/pages/Projects.tsx:40-45 | a batch shifted past the largest id keeps a list with distinct ids distinct |
| Gallery.FilterCategory | src/pages/Projects.tsx:28 | exactly the items of that category are kept, in their original order, each as often as in the input (multiset) |
| Gallery.SubsequenceKeepsDistinct | src/pages/Projects.tsx:28 | dropping items keeps ids distinct |
| HomePage.Home.constructor | src/pages/Home.tsx:11-12 | the page starts with the initial list and idle |
| HomePage.Home.LoadMoreProjects | src/pages/Home.tsx:14-17 | a request while busy is ignored; otherwise the page is busy and the offset is the current length |
| HomePage.Home.FinishLoad | src/pages/Home.tsx:20-28 | ten generated items shifted by the captured offset are appended. The old list is a prefix, the ids stay 1..n+10, and the page is idle again |
| HomePage.Home.OnSentinel | src/components/MasonryGrid.tsx:57-62 | only an intersecting sentinel triggers a load; the list is unchanged |
| ProjectsPage.Projects.constructor | src/pages/Projects.tsx:11-13 | the list is empty, the page idle, and the filter "All" |
| ProjectsPage.Projects.Mount | src/pages/Projects.tsx:17-19 | the list becomes the initial list; nothing else changes; ids stay distinct |
| ProjectsPage.CategoryView | src/pages/Projects.tsx:22-31 | "All" shows the initial list; any other value shows exactly its items, in order and with their multiplicities |
| ProjectsPage.CategoryViewKeepsDistinct | src/pages/Projects.tsx:25-30 | every category view of a list with distinct ids has distinct ids |
| ProjectsPage.Projects.HandleCategoryChange | src/pages/Projects.tsx:22-31 | the filter is set and the list is that category's view, which drops loaded items |
| ProjectsPage.Projects.LoadMoreProjects | src/pages/Projects.tsx:33-36 | ignored while busy or filtered; otherwise busy with the current length captured |
| ProjectsPage.Projects.OnSentinel | src/components/MasonryGrid.tsx:57-62 | a non-intersecting sentinel changes nothing; the list never changes |
| ProjectsPage.Projects.FinishLoadAsWritten | src/pages/Projects.tsx:39-47 | the page's own append: the batch shifted by the captured length follows the current list |
| ProjectsPage.DuplicateIdsAsWritten | src/pages/Projects.tsx:33-47 | mount, load, finish, load, "All", finish, load, finish yields 40 items where items 21 and 31 both have id 31, whatever the draws |
| ProjectsPage.Projects.FinishLoad | src/pages/Projects.tsx:39-47 | corrected append: under "All" ten items follow the old list, numbered after its largest id, so ids stay distinct; under a category the batch is not shown, so every shown item keeps the chosen category |
| ProjectsPage.CategoryLeakAsWritten | src/pages/Projects.tsx:33-47 | a load requested under "All" and finished after a category was chosen puts ten items in the filtered list, one of another category |
| LightboxOverlay.Lightbox.constructor | src/components/Lightbox.tsx:16-35 | mounting with a project adds exactly one own key listener and hides the overflow; otherwise nothing changes |
| LightboxOverlay.Lightbox.RunEffect | src/components/Lightbox.tsx:24-29 | with a project the effect installs one fresh handler and sets overflow "hidden"; without one it leaves everything |
| LightboxOverlay.Lightbox.Cleanup | src/components/Lightbox.tsx:30-33 | the cleanup removes exactly the handler it installed and sets overflow "auto"; other listeners stay |
| LightboxOverlay.Lightbox.UpdateProject | src/components/Lightbox.tsx:16-35 | after a prop change exactly one own listener exists iff a project is shown. Hiding restores "auto", and no handler accumulates |
| LightboxOverlay.Lightbox.Unmount | src/components/Lightbox.tsx:30-33 | unmounting leaves only the listeners others installed |
| LightboxOverlay.Lightbox.KeyDown | src/components/Lightbox.tsx:17-21 | a key closes the overlay iff it is Escape and a project is shown |
| LightboxOverlay.Lightbox.Click | src/components/Lightbox.tsx:37-51 | the backdrop and close button close the overlay and a panel click does not; nothing is rendered without a project |
| Routes.ShowsChrome | src/App.tsx:24 | the header and footer show iff the path does not start with "/admin" |
| Routes.IsAdminRoute | src/App.tsx:24 | a path is an admin route iff it is "/admin" followed by anything |
| Text.StartsWith | src/App.tsx:24 | a string starts with a prefix iff each of the prefix's characters is at its place in the string |
| Routes.PathForPage | src/App.tsx:27-41 | navigation goes to "/projects" or "/about" for those names and to "/" for everything else |
| Routes.ActivePage | src/App.tsx:44-49 | only the exact paths "/projects" and "/about" name their page; all else is "home" |
| Routes.ActiveAfterNavigate | src/App.tsx:27-49 | navigating to a public page and reading the active page gives that page back |
| Routes.NavigateToActive | src/App.tsx:27-49 | a path is reproduced by navigating to its active page iff it is one of the three public paths |
| Routes.NavigationStaysPublic | src/App.tsx:24-41 | header navigation never reaches an admin route |
| AdminShell.MobileActiveIsDesktopActive | src/components/admin/AdminLayout.tsx:136-171 | a link highlighted in the mobile menu is highlighted in the sidebar |
| AdminShell.DesktopLinkActive | src/components/admin/AdminLayout.tsx:136 | the sidebar highlights a link on its own path or on a path continuing it after a "/" |
| AdminShell.MobileLinkActive | src/components/admin/AdminLayout.tsx:171 | a mobile highlight is a sidebar highlight on a path of the link's own length |
| AdminShell.NestedPathDesktopOnly | src/components/admin/AdminLayout.tsx:136-171 | below a link's path only the sidebar highlights it |
| AdminShell.NavPathsPrefixFree | src/components/admin/AdminLayout.tsx:45-50 | no navigation path is a prefix of another |
| AdminShell.AtMostOneDesktopActive | src/components/admin/AdminLayout.tsx:136 | at most one sidebar link is highlighted for any path |
| AdminShell.AdminLayout.constructor | src/components/admin/AdminLayout.tsx:24-25 | not saving, menu closed |
| AdminShell.AdminLayout.ClickSave | src/components/admin/AdminLayout.tsx:32-36 | `onSave` runs iff it exists and no save is running; the shell is then busy |
| AdminShell.AdminLayout.SaveSettled | src/components/admin/AdminLayout.tsx:35-41 | resolved or thrown, the busy flag clears |
| AdminShell.AdminLayout.MenuClick | src/components/admin/AdminLayout.tsx:117-188 | the button toggles the menu; the backdrop and links close it; the panel leaves it |
| EditMaps.BuildRecord | src/pages/admin/PageEditor.tsx:23-26 | the loop's record equals the last-wins record of the pairs |
| EditMaps.LastWins | src/pages/admin/PageEditor.tsx:23-26 | the record has a key iff some pair carries it |
| EditMaps.LastWinsValue | src/pages/admin/PageEditor.tsx:24-26 | a key maps to the value of its last pair |
| EditMaps.DistinctKeysKeepAll | src/pages/admin/SiteSettings.tsx:19-22 | with distinct keys every pair's value is kept |
| EditMaps.UpdateCalls | src/pages/admin/PageEditor.tsx:42-44 | one call per entry with the entry's value, every entry called, no key twice |
| PageEditorPage.LoadedRecordHoldsContent | src/pages/admin/PageEditor.tsx:23-27 | with distinct ids the loaded record holds each section's content |
| PageEditorPage.GroupingKeepsLast | src/pages/admin/PageEditor.tsx:68-71 | a section key maps to the last section carrying it |
| PageEditorPage.GroupValueIsSection | src/pages/admin/PageEditor.tsx:68-71 | every grouped value is a loaded section with that key |
| PageEditorPage.PageTitle | src/pages/admin/PageEditor.tsx:53-64 | the title is one of four; a specific title appears iff the name is a public page |
| PageEditorPage.FormatKeepsWords | src/pages/admin/PageEditor.tsx:77-80 | splitting a heading on spaces gives the key's '_'-separated words, capitalised, as many as the key has |
| Text.JoinSplit | src/pages/admin/PageEditor.tsx:77-80 | joining the parts of a split gives the string back |
| Text.Capitalize | src/pages/admin/PageEditor.tsx:79 | the first character is upper-cased, every other is kept, and the length is kept |
| Text.ToUpper | src/pages/admin/PageEditor.tsx:79 | a lower-case ASCII letter becomes the upper-case letter at the same alphabet position; any other character is unchanged |
| Text.Split | src/pages/admin/PageEditor.tsx:78 | a split has at least one part; with JoinSplit and SplitJoin, split and join are inverse |
| Text.SplitJoin | src/pages/admin/PageEditor.tsx:78-80 | splitting what was joined gives back the parts when no part holds the separator |
| PageEditorPage.FormatSectionKey | src/pages/admin/PageEditor.tsx:77-80 | the heading equals the character-by-character reading Headline of the key, with the same length |
| PageEditorPage.Headline | src/pages/admin/PageEditor.tsx:77-80 | the independent character-level reading of a heading keeps the key's length |
| PageEditorPage.HeadlineChar | src/pages/admin/PageEditor.tsx:77-80 | in the heading every "_" is a space, a character starting a word is upper-cased, and every other character is kept |
| PageEditorPage.SplitHeadline | src/pages/admin/PageEditor.tsx:77-80 | splitting on "_", capitalising each word and joining with spaces agrees with the character-level reading |
| PageEditorPage.FormatSectionKeyExample | src/pages/admin/PageEditor.tsx:77-80 | the key "hero_title" is headed "Hero Title" |
| PageEditorPage.EditorFor | src/pages/admin/PageEditor.tsx:90-91 | the editor is inline with height 100 iff the key contains "title", else 300 |
| PageEditorPage.SubtitleHasTitle | src/pages/admin/PageEditor.tsx:90 | a key containing "subtitle" contains "title", so the second test adds nothing |
| Text.Contains | src/pages/admin/PageEditor.tsx:90 | a contained pattern is no longer than the string, and a prefix is contained |
| PageEditorPage.ShownContent | src/pages/admin/PageEditor.tsx:88 | a present, non-empty edit is shown; otherwise the stored content is shown |
| PageEditorPage.PageEditor.constructor | src/pages/admin/PageEditor.tsx:9-12 | editing mode, nothing loaded |
| PageEditorPage.PageEditor.LoadContent | src/pages/admin/PageEditor.tsx:16-28 | with a page name the sections are kept and the record maps every id to its content; without one nothing changes |
| PageEditorPage.PageEditor.HandleContentChange | src/pages/admin/PageEditor.tsx:34-39 | only the given id's entry changes |
| PageEditorPage.PageEditor.HandleSave | src/pages/admin/PageEditor.tsx:41-47 | one update per record entry with its content |
| PageEditorPage.PageEditor.TogglePreview | src/pages/admin/PageEditor.tsx:49-51 | the mode flips and nothing else changes |
| PageEditorPage.PageEditor.GroupedSections | src/pages/admin/PageEditor.tsx:68-71 | every section key appears, each mapped to a section with that key |
| SiteSettingsPage.SettingByKey | src/pages/admin/SiteSettings.tsx:44-46 | a setting is found iff one has the key, and it is the first such |
| SiteSettingsPage.RowsFor | src/pages/admin/SiteSettings.tsx:124-126 | rows appear exactly for keys with a setting, each with the setting found, in key order |
| Text.ReplaceFirst | src/pages/admin/SiteSettings.tsx:130 | only the first occurrence is replaced; without one the string is unchanged |
| Text.IndexOf | src/pages/admin/SiteSettings.tsx:130 | an index is found iff the pattern occurs, and it is the first occurrence |
| SiteSettingsPage.LinkName | src/pages/admin/SiteSettings.tsx:129-130 | a key without "_link" is kept; otherwise exactly one "_link" is removed |
| SiteSettingsPage.SocialLabel | src/pages/admin/SiteSettings.tsx:129-131 | the label is the link name with its first character upper-cased |
| SiteSettingsPage.SocialPlaceholder | src/pages/admin/SiteSettings.tsx:147 | the placeholder is "https://", the link name and ".com/username", in that order |
| SiteSettingsPage.LinkNameOfKey | src/pages/admin/SiteSettings.tsx:129-131 | for "name_link" the label is Name and the placeholder is "https://name.com/username" |
| SiteSettingsPage.InstagramLabel | src/pages/admin/SiteSettings.tsx:129-131 | "instagram_link" is labelled "Instagram" |
| SiteSettingsPage.InputValue | src/pages/admin/SiteSettings.tsx:144 | an input shows the edited value, or "" when there is none |
| SiteSettingsPage.LoadedInputsShowValues | src/pages/admin/SiteSettings.tsx:19-23 | right after loading, every input shows its setting's value |
| SiteSettingsPage.SiteSettings.constructor | src/pages/admin/SiteSettings.tsx:8-9 | nothing loaded, nothing edited |
| SiteSettingsPage.SiteSettings.LoadSettings | src/pages/admin/SiteSettings.tsx:13-24 | the settings are kept and every id is in the record with the last-wins value |
| SiteSettingsPage.SiteSettings.HandleChange | src/pages/admin/SiteSettings.tsx:29-34 | only the given id's entry changes |
| SiteSettingsPage.SiteSettings.HandleSave | src/pages/admin/SiteSettings.tsx:36-42 | one update per record entry with its value |
| ProjectApi.RowToProject | src/hooks/useProjectApi.ts:22-33 | every field is copied, `image_url` becomes `imageUrl`, and the height is 400 |
| ProjectApi.ToInsert | src/hooks/useProjectApi.ts:88-97 | the inserted object carries every form field, `imageUrl` as `image_url`, and no id or height |
| ProjectApi.CreateThenRead | src/hooks/useProjectApi.ts:88-97 | a created project read back has the same fields, the database's id and height 400 |
| ProjectApi.ReadThenCreate | src/hooks/useProjectApi.ts:58-69 | the fields of a read row, inserted again, reproduce the row |
| ProjectApi.ColumnNamesDistinct | src/hooks/useProjectApi.ts:119-130 | different columns have different table names |
| ProjectApi.BuildUpdateData | src/hooks/useProjectApi.ts:119-130 | the timestamp is always sent; a column is sent iff its field is defined, with that value |
| ProjectApi.ErrorMessage | src/hooks/useProjectApi.ts:34-38 | an Error's own message, otherwise the call's default |
| ProjectApi.ProjectApiState.constructor | src/hooks/useProjectApi.ts:6-7 | idle, no error |
| ProjectApi.ProjectApiState.Begin | src/hooks/useProjectApi.ts:11-12 | loading, error cleared |
| ProjectApi.ProjectApiState.Settle | src/hooks/useProjectApi.ts:34-41 | loading ends; a failure records its message and a success leaves the error |
| ProjectApi.ProjectApiState.GetProjectsSettled | src/hooks/useProjectApi.ts:10-42 | success maps every row in order; failure gives [] and the message |
| ProjectApi.ProjectApiState.GetProjectSettled | src/hooks/useProjectApi.ts:45-78 | success maps the row; failure gives null and the message |
| ProjectApi.ProjectApiState.CreateProjectSettled | src/hooks/useProjectApi.ts:81-111 | success gives the new id; failure gives null and the message |
| ProjectApi.ProjectApiState.UpdateProjectSettled | src/hooks/useProjectApi.ts:114-148 | true iff the update succeeded; failure records the message |
| ProjectApi.ProjectApiState.DeleteProjectSettled | src/hooks/useProjectApi.ts:151-172 | true iff the delete succeeded; failure records the message |
| ProjectFormPage.SetField | src/pages/admin/ProjectForm.tsx:54-57 | the named field takes the value and every other field keeps its own |
| ProjectFormPage.FieldsDetermineForm | src/pages/admin/ProjectForm.tsx:13-22 | a form is determined by its eight fields |
| ProjectFormPage.OrEmpty | src/pages/admin/ProjectForm.tsx:41-45 | a present value is kept, a missing one becomes "" |
| ProjectFormPage.FormFromProject | src/pages/admin/ProjectForm.tsx:37-46 | title, category and image are copied; an optional field shows "" iff it is missing or empty |
| ProjectFormPage.ToFields | src/pages/admin/ProjectForm.tsx:67-72 | the submitted fields are the form's, with every optional field defined |
| ProjectFormPage.LoadThenSaveKeepsFields | src/pages/admin/ProjectForm.tsx:34-46 | loading a project with all fields and saving unchanged writes back its fields |
| ProjectFormPage.MissingFieldSavedEmpty | src/pages/admin/ProjectForm.tsx:41 | a missing description is saved as "", so the saved fields differ from the loaded ones |
| ProjectFormPage.FormCategoriesAreGeneratorCategories | src/pages/admin/ProjectForm.tsx:79 | the form offers exactly the generator's five categories, none empty |
| ProjectFormPage.ProjectForm.constructor | src/pages/admin/ProjectForm.tsx:13-22 | all eight fields start empty |
| ProjectFormPage.ProjectForm.HeaderTitle | src/pages/admin/ProjectForm.tsx:83 | "Edit Project" iff editing, else "Add New Project" |
| ProjectFormPage.ProjectForm.LoadProject | src/pages/admin/ProjectForm.tsx:34-46 | the form takes the project's fields only when editing and found |
| ProjectFormPage.ProjectForm.HandleChange | src/pages/admin/ProjectForm.tsx:54-57 | only the named field changes |
| ProjectFormPage.ProjectForm.HandleDescriptionChange | src/pages/admin/ProjectForm.tsx:59-61 | only the description changes |
| ProjectFormPage.ProjectForm.Submit | src/pages/admin/ProjectForm.tsx:63-77 | the corrected save: editing updates the route's id and otherwise creates, with the form's fields. The page navigates to "/admin/projects" iff the result is truthy |
| ProjectFormPage.ProjectForm.HandleSubmitAsWritten | src/pages/admin/ProjectForm.tsx:63-84 | without an event (the header's Save) nothing is sent and the page stays; with one it saves as Submit does |
| ProjectManagerPage.RemoveId | src/pages/admin/ProjectManager.tsx:25 | exactly the items without the id are kept, in order (a subsequence) |
| ProjectManagerPage.RemoveIdCounts | src/pages/admin/ProjectManager.tsx:25 | every item without the id is kept as often as the list holds it, and no item with the id is kept (multiset) |
| ProjectManagerPage.RemoveAbsentId | src/pages/admin/ProjectManager.tsx:25 | removing an id nobody has changes nothing |
| ProjectManagerPage.RemoveIdIdempotent | src/pages/admin/ProjectManager.tsx:25 | removing twice is removing once |
| ProjectManagerPage.RemovePresentId | src/pages/admin/ProjectManager.tsx:25 | with distinct ids, removing a present id removes exactly one item and keeps ids distinct |
| ProjectManagerPage.TableRows | src/pages/admin/ProjectManager.tsx:75-83 | an empty list shows only "No projects found"; otherwise one row per project, in order |
| ProjectManagerPage.ProjectManager.constructor | src/pages/admin/ProjectManager.tsx:9 | the list starts empty |
| ProjectManagerPage.ProjectManager.Mount | src/pages/admin/ProjectManager.tsx:12-19 | the list becomes what the fetch returned |
| ProjectManagerPage.ProjectManager.HandleDelete | src/pages/admin/ProjectManager.tsx:21-28 | a delete is requested iff confirmed. The list loses that id only after a successful delete and is otherwise unchanged |

## Left out

- Browser plumbing is not modelled. This covers the IntersectionObserver setup and teardown, the resize listener registration and the one-second `setTimeout`. The viewport width and the sentinel's intersection are inputs. A delayed load is a request step and a finish step.
- `Math.random` and the floating-point `Math.floor` are not modelled. Each generated item takes a `Draw` (a category index in 0..4 and a height offset in 0..399) as input.
- HomePage.Home.FinishLoad: the home page appends without anything changing the list in between, so the captured length and the current length agree. Interleavings on the home page are not modelled.
- The Supabase client, authentication and `useContentApi.ts` are not part of this model. Each project request is modelled by how it settled (`Settled`). The content and settings updates are the update calls the editors produce. `new Date().toISOString()` is a parameter.
- Promise concurrency is not modelled: `Promise.all` over the update calls and overlapping requests of the shared loading flag.
- EditMaps.UpdateCalls: the call order follows an arbitrary key order, not JavaScript's insertion-ordered `Object.entries`.
- ProjectManagerPage.RemoveId: ids are one integer type. The page's `handleDelete` receives `project.id.toString()` and filters with `project.id !== id`. That compares a number with a string, so for numeric ids the filter would keep the deleted project. The runtime type of the database ids is not visible here, so the model follows the evident intent.
- ProjectApi.ProjectApiState.CreateProjectSettled: the created id is an integer as in `types.ts`, although `createProject` declares a string result. The form's truthiness test treats 0 as falsy.
- Text.ToUpper: upper-casing covers ASCII letters only; other characters are left as they are.
- Repeated fetches are not modelled. The hook functions (`getPageContent`, `getSiteSettings`, `getProject`, `getProjects`) are new closures on every render, and the fetch effects list them as dependencies (src/pages/admin/PageEditor.tsx:32, src/pages/admin/SiteSettings.tsx:27, src/pages/admin/ProjectForm.tsx:52, src/pages/admin/ProjectManager.tsx:19). Each effect therefore runs again after each render, and each completed fetch overwrites the edit record or the form. `PageEditorPage.PageEditor.LoadContent`, `SiteSettingsPage.SiteSettings.LoadSettings`, `ProjectFormPage.ProjectForm.LoadProject` and `ProjectManagerPage.ProjectManager.Mount` model one load each. They can be called again at any point, but the model does not say when React calls them, nor that edits made before a repeated load are lost.
- The effect re-runs when `onClose` changes identity are not modelled; `LightboxOverlay.Lightbox.UpdateProject` covers the `project` dependency.
- `window.confirm` is a boolean input and `navigate` is a returned path.
- Static markup and styling are not part of this model: About, Dashboard, Pages, Header, Footer, the login page, icons and CSS classes. Also out are `Editor.tsx` (a react-quill wrapper), `AuthContext.tsx`, the route guard and `create-admin.js` (command-line I/O).
- Sign-out and the preview button of the admin shell call into authentication and the parent page; only the save and menu state are modelled.

## Findings

| source | as written | input that shows it | evidently intended | confidence | as-written member | corrected member |
|---|---|---|---|---|---|---|
| src/pages/Projects.tsx:33-47 | the appended batch is renumbered by the `projects.length` captured at request time, then appended to the list current when the timer fires | load more (30 items), load more again (offset 30), choose "All" before the timer (list reset to 20), timer fires (ids 1..20, 31..40), load more (offset 30 again): ids 31..40 appear twice | appended ids never repeat an id already shown | not executed | ProjectsPage.DuplicateIdsAsWritten | ProjectsPage.Projects.FinishLoad |
| src/pages/Projects.tsx:33-47 | a batch requested under "All" is appended when the timer fires, whatever category has been chosen meanwhile | load more, choose "Branding" before the timer, timer fires with a first draw of another category: the Branding view shows ten extra items, one of them not Branding | a chosen category shows only its own items, as the guard at line 34 intends | not executed | ProjectsPage.CategoryLeakAsWritten | ProjectsPage.Projects.FinishLoad |
| src/pages/admin/ProjectForm.tsx:63-84 | `handleSubmit` calls `e.preventDefault()` and is passed as `onSave`, which the shell calls with no argument (src/components/admin/AdminLayout.tsx:32-38); the form has no submit button | any form state, click the header's Save: `e` is undefined, the call throws before any request, and the shell logs the error | Save updates or creates the project and returns to the list | not executed | ProjectFormPage.ProjectForm.HandleSubmitAsWritten | ProjectFormPage.ProjectForm.Submit |
