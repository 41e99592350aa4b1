# Kingsway dashboard core in Dafny

Kingsway is a React dashboard for a hospital: a lab-test register, a
pharmacy inventory, a patient directory, a profile page, a side navigation
and a breadcrumb, with a few zod form schemas. Almost all of it is markup.
This project models the small core of pure logic behind it, with React state
as immutable records and each handler as a function from old state to new:

- the record filters of the Lab, Pharmacy and Patients pages. Each is a
  case-insensitive substring search over fixed fields, ANDed with drop-down
  filters that use "All" as the no-constraint value;
- the Pharmacy stock and expiry classes, their badge colours, the two
  counting metric cards and the cards' click handlers;
- the Lab test store: save with validation, replace-by-id on edit, prepend on
  create, remove-by-id on delete, and the dialog and edit-mode flags;
- the breadcrumb: pathname to segments to links, and the ellipsis layout;
- the Profile edit / save / cancel state machine;
- the side navigation's active-item rule and item list;
- the login, search and new-property schemas.

Modules, one per file:

- `Maybe`: `Option`.
- `Text`: ASCII case mapping, substring search, `split`/`join`, `indexOf`, first-occurrence `replace`, capitalisation.
- `Seqs`: order-preserving filter, counting, de-duplication by first appearance.
- `Badge`: badge tones and their class strings.
- `Lab`, `PharmacyData`, `Pharmacy`, `Patients`, `Breadcrumb`, `Profile`, `SideNav`, `Schemas`: one per source file.

Inputs the program takes from the outside world are parameters:

- the clock. The Lab create form gets `today`. Pharmacy gets `daysUntil`, a function from an expiry date to the whole-day difference from today.
- the random id of a created lab test (`newId`).
- the answer to `window.confirm` (`confirmed`).
- zod's e-mail check (`isEmail`).
- the stored role and the current pathname of the side navigation.

## Model

| member | source | states |
|---|---|---|
| Lab.StatusTone | src/pages/dashboard/lab/Lab.tsx:41-52 | Completed is green, Pending yellow, Cancelled red, and every other status gray; the tone is gray exactly when the status is not one of the three filterable statuses |
| Lab.StatusColor | src/pages/dashboard/lab/Lab.tsx:41-52 | the returned class string is the green one exactly for Completed, yellow exactly for Pending, red exactly for Cancelled and gray exactly for every other status |
| Lab.FilteredTests | src/pages/dashboard/lab/Lab.tsx:68-80 | a test is listed exactly when the lowercased query occurs in the lowercased patient name, test name or patient id and the status filter is "All" or the test's status; the list is an order-preserving subsequence as long as the number of admitted tests, so duplicates are kept; empty query with "All" lists every test |
| Lab.InitialPage | src/pages/dashboard/lab/Lab.tsx:55-61 | the page starts with the seeded tests all listed, an empty search and the "All" status filter, no dialog open, not editing, nothing selected, and the empty form, which cannot be saved |
| Lab.SetField | src/pages/dashboard/lab/Lab.tsx:136-141 | an input change writes the value into the named field only (the nullable result and completion date become present); every other field, including whether result and completion date are present, is unchanged |
| Lab.ViewTest | src/pages/dashboard/lab/Lab.tsx:87-90 | viewing opens the read-only dialog on the clicked test; every other part of the page (store, filters, form, form dialog, mode) is unchanged |
| Lab.CloseView | src/pages/dashboard/lab/Lab.tsx:92-95 | closing the view dialog clears the selection; every other part of the page is unchanged |
| Lab.OpenCreate | src/pages/dashboard/lab/Lab.tsx:97-110 | create mode: not editing, form open, blank patient and test fields, status Pending, requester Admin, no result or completion date, requested today; store, filters, selection and view dialog unchanged |
| Lab.CloseForm | src/pages/dashboard/lab/Lab.tsx:112-115 | closing the form dialog clears the selection; every other part of the page (store, filters, form, mode, view dialog) is unchanged |
| Lab.EditTest | src/pages/dashboard/lab/Lab.tsx:128-133 | edit mode: editing, form open, the clicked test selected, and the form holds exactly that test's fields; store, filters and view dialog unchanged |
| Lab.ChangeField | src/pages/dashboard/lab/Lab.tsx:136-141 | an input change on the page affects only the form, and there as Lab.SetField states |
| Lab.ChangeStatus | src/pages/dashboard/lab/Lab.tsx:528-535 | the status select changes the form's status and nothing else on the page |
| Lab.NewTest | src/pages/dashboard/lab/Lab.tsx:162-169 | a created test takes its patient, test name and request date from the form, and is Pending, requested by Admin, without result or completion date whatever the form held |
| Lab.ReplaceById | src/pages/dashboard/lab/Lab.tsx:155-159 | same length; each test whose id is the selected test's id becomes the form's data under that same id, every other test is kept in place |
| Lab.Save | src/pages/dashboard/lab/Lab.tsx:143-175 | rejected, with the page unchanged, exactly when patient name, test name or patient id is empty; an edit replaces the selected id's tests in place and keeps the others; a create prepends one new test before the old list; both close the dialog and clear the selection and leave form, mode, filters and view dialog unchanged |
| Lab.RemoveById | src/pages/dashboard/lab/Lab.tsx:123 | the result is an order-preserving subsequence with no test of that id, every other test survives, and its length is the number of tests with another id, so duplicates survive too |
| Lab.Delete | src/pages/dashboard/lab/Lab.tsx:121-126 | only the store can change; a declined confirmation changes nothing; an accepted one leaves an in-order subsequence of the store with no test of that id, as long as the number of tests with another id, so every such test stays, duplicates included |
| Lab.EditThenSaveIsNoOp | src/pages/dashboard/lab/Lab.tsx:128-159 | with unique ids, opening a valid test for edit and saving it untouched leaves the store unchanged |
| Lab.CreateThenDeleteRestores | src/pages/dashboard/lab/Lab.tsx:121-170 | creating a test under a fresh id and then deleting that id gives back the store as it was before the create |
| Lab.ViewThenCloseRestores | src/pages/dashboard/lab/Lab.tsx:87-95 | from a page with the view dialog closed and nothing selected, viewing a test and closing the view gives back exactly that page |
| Lab.OpenThenCloseFormKeepsPage | src/pages/dashboard/lab/Lab.tsx:97-115 | opening the create dialog and closing it, with nothing selected, keeps store, filters and view dialog; only the form holds the blank template, in create mode |
| PharmacyData.SampleShape | src/pages/dashboard/pharmacy/components/constants/data.ts:14-75 | five sample medicines with ids 1 to 5, serial number equal to id, ids distinct, and exactly one (id 5) out of stock |
| PharmacyData.ExpiryTone | src/pages/dashboard/pharmacy/components/constants/data.ts:111-120 | red exactly when the expiry has passed (diffDays < 0), orange exactly for 0 to 89 days, green exactly from 90 days on |
| PharmacyData.StockTone | src/pages/dashboard/pharmacy/components/constants/data.ts:122-126 | red exactly for an empty shelf, orange exactly for a non-empty stock at or below the reorder level, green exactly above it |
| Badge.ClassesIdentifyTone | src/pages/dashboard/pharmacy/components/constants/data.ts:117-125 | the badge colour helpers return distinct class strings for distinct tones, so the classes determine the tone |
| Pharmacy.MatchesStock | src/pages/dashboard/pharmacy/index.tsx:38-45 | "All" passes everything, "In Stock" passes stock above reorder level, "Low Stock" non-empty stock at or below it, "Out of Stock" an empty shelf, any other option nothing |
| Pharmacy.MatchesExpiry | src/pages/dashboard/pharmacy/index.tsx:53-56 | "All" passes everything, "Expiring Soon" passes 0 to 89 days, "Expired" a negative difference, any other option nothing |
| Pharmacy.FilteredMedicines | src/pages/dashboard/pharmacy/index.tsx:28-60 | a medicine is listed exactly when search, stock and expiry filters all admit it; order-preserving subsequence as long as the number of admitted medicines, so duplicates are kept; the initial filters list everything |
| Pharmacy.LowStockCount | src/pages/dashboard/pharmacy/index.tsx:72-74 | the Low Stock card counts the medicines in the Low Stock class |
| Pharmacy.ExpiringSoonCount | src/pages/dashboard/pharmacy/index.tsx:64-71 | the Expiring Soon card counts the medicines expiring within 0 to 89 days |
| Pharmacy.ClickLowStockCard | src/pages/dashboard/pharmacy/index.tsx:112-115 | clicking the Low Stock card selects "Low Stock", resets expiry to "All" and keeps the search |
| Pharmacy.ClickExpiringSoonCard | src/pages/dashboard/pharmacy/index.tsx:101-104 | clicking the Expiring Soon card selects "Expiring Soon", resets stock to "All" and keeps the search |
| Pharmacy.StockClassesPartition | src/pages/dashboard/pharmacy/index.tsx:38-45 | for non-negative stock and reorder level exactly one of In Stock, Low Stock, Out of Stock holds |
| Pharmacy.ExpiryClassesExclusive | src/pages/dashboard/pharmacy/index.tsx:53-56 | no day difference is both expiring soon and expired; one of the two holds exactly below 90 days |
| Pharmacy.StockToneAgreesWithFilter | src/pages/dashboard/pharmacy/components/constants/data.ts:122-126 | for non-negative stock, the badge is red, orange or green exactly when the Out of Stock, Low Stock or In Stock filter admits the medicine |
| Pharmacy.ExpiryToneAgreesWithFilter | src/pages/dashboard/pharmacy/components/constants/data.ts:117-119 | the expiry badge is red exactly when "Expired" admits the date, orange exactly when "Expiring Soon" does, green when neither does |
| Pharmacy.LowStockCardMatchesList | src/pages/dashboard/pharmacy/index.tsx:72-115 | with an empty search, the Low Stock card's number equals the length of the list its click produces, whatever the clock |
| Pharmacy.ExpiringSoonCardMatchesList | src/pages/dashboard/pharmacy/index.tsx:64-104 | with an empty search, the Expiring Soon card's number equals the length of the list its click produces |
| Pharmacy.SampleSearchAmox | src/pages/dashboard/pharmacy/index.tsx:30-36 | searching the sample for "amox" lists Amoxicillin (id 2) alone |
| Pharmacy.SampleLowStock | src/pages/dashboard/pharmacy/index.tsx:42-44 | the Low Stock filter on the sample lists ids 2 and 4, Metformin counting as low at exactly its reorder level |
| Pharmacy.SampleLowStockCount | src/pages/dashboard/pharmacy/index.tsx:72-74 | the Low Stock card on the sample shows 2 |
| Pharmacy.SampleOutOfStock | src/pages/dashboard/pharmacy/index.tsx:45 | the Out of Stock filter on the sample lists id 5 alone |
| Patients.InitialPage | src/pages/dashboard/patients/index.tsx:29-36 | the page starts with no user selected, the modal closed, every filter at its sentinel, and so every seeded user listed |
| Patients.FilteredUsers | src/pages/dashboard/patients/index.tsx:46-59 | a user is listed exactly when the query occurs (ignoring case) in name, email or user id and the role and status drop-downs are "All" or match; order-preserving subsequence as long as the number of admitted users, so duplicates are kept; all sentinels list every user |
| Patients.Roles | src/pages/dashboard/patients/index.tsx:39-42 | "All" first, then every user's role exactly once, only roles some user has, in order of first appearance |
| Patients.RoleFilterNarrows | src/pages/dashboard/patients/index.tsx:53-57 | choosing a specific role instead of "All" yields a subsequence of the "All" list |
| Patients.ViewUser | src/pages/dashboard/patients/index.tsx:61-64 | viewing selects the user and opens the modal, keeping list and filters |
| Patients.CloseModal | src/pages/dashboard/patients/index.tsx:66-69 | closing the modal clears the selection, keeping list and filters |
| Patients.ViewThenCloseRestores | src/pages/dashboard/patients/index.tsx:61-69 | viewing then closing returns the page to exactly its previous closed state |
| Breadcrumb.PathSegments | src/components/dynamic-breadcrumb.tsx:44-46 | the segments are non-empty, hold no "/", are an order-preserving selection of the pieces between slashes, and are as many as the non-empty pieces, so every non-empty piece is kept |
| Breadcrumb.PathSegmentsRoundTrip | src/components/dynamic-breadcrumb.tsx:44-46 | a path built as "/" plus clean segments joined by "/" is cut back into exactly those segments |
| Breadcrumb.HrefLeadsToPrefix | src/components/dynamic-breadcrumb.tsx:52 | for clean segments, a link's href is a path whose segments are exactly those up to and including the link's own, ignored ones included |
| Breadcrumb.LinkAt | src/components/dynamic-breadcrumb.tsx:52-54 | the link of segment i has the href up to that segment and, as label, the segment with its first character upper-cased and the rest kept |
| Breadcrumb.KeptFrom | src/components/dynamic-breadcrumb.tsx:51 | the indices that yield a link are increasing and are exactly the segments other than "admin" and "dashboard" |
| Breadcrumb.LinksFrom | src/components/dynamic-breadcrumb.tsx:48-57 | one link per kept segment, in path order, each built from that segment's index |
| Breadcrumb.AllLinks | src/components/dynamic-breadcrumb.tsx:48-59 | never empty, Home first, then the kept segments' links in path order |
| Breadcrumb.LabPathExample | src/components/dynamic-breadcrumb.tsx:52 | "/dashboard/admin/lab" gives Home and one link "Lab" to "/dashboard/admin/lab": the href keeps the ignored prefix |
| Breadcrumb.DisplayLabel | src/components/dynamic-breadcrumb.tsx:95 | the shown label has the same length, is unchanged without a dash, and otherwise has only its first dash turned into a space |
| Breadcrumb.DisplayLabelExample | src/components/dynamic-breadcrumb.tsx:205 | "X-ray-lab" is shown as "X ray-lab": the second dash stays |
| Breadcrumb.LinkShowsHomeIcon | src/components/dynamic-breadcrumb.tsx:89-93 | the Home link shows the home icon, and a segment's link shows it exactly when the segment is "home" or "Home" |
| Breadcrumb.LayoutAsWritten | src/components/dynamic-breadcrumb.tsx:61-66 | Go Back exactly with more than one link; ellipsis exactly with more than five; the last link is the current page; without ellipsis every link but the last is drawn inline, nothing is folded, and the rendering is every link once in order; with it the first link is drawn, the links after it up to the last two are folded into the menu, the last two follow, and the rendering is every link followed by the last one again |
| Breadcrumb.HiddenLinks | src/components/dynamic-breadcrumb.tsx:66 | `allLinks.slice(1, -2)`: with at least three links, the first link, the hidden ones and the last two make up the whole list; fewer links hide nothing |
| Breadcrumb.LayoutAsWrittenRepeatsLastLink | src/components/dynamic-breadcrumb.tsx:161-208 | with the ellipsis, one more item is rendered than there are links, the current page twice in a row |
| Breadcrumb.PathWithFiveSegmentsRepeats | src/components/dynamic-breadcrumb.tsx:61-66 | every path with at least five shown segments repeats its last link |
| Breadcrumb.SampleTrailShowsLastLinkTwice | src/components/dynamic-breadcrumb.tsx:44-208 | on `/a/b/c/d/e` the rendered trail has seven items and the link to `/a/b/c/d/e`, labelled "E", fills both of the last two |
| Breadcrumb.FiveSegmentPathFolds | src/components/dynamic-breadcrumb.tsx:44-61 | "/a/b/c/d/e" has five shown segments, so it takes the ellipsis layout |
| Breadcrumb.Layout | src/components/dynamic-breadcrumb.tsx:61-66 | the corrected layout: same Go Back, ellipsis and current page, the same inline and folded links without the ellipsis, only the next-to-last link after it, and every link rendered exactly once, in order, in both layouts |
| Breadcrumb.BreadcrumbFor | src/components/dynamic-breadcrumb.tsx:44-208 | as rendered: the ellipsis shows exactly with five or more shown segments; below that every link but the last is inline, nothing is folded, and the trail is exactly Home and the kept segments' links; from five on the first link, the folded middle and the last two are drawn and the trail is those links followed by the last one again; Home first; Go Back exactly when some segment is kept |
| Breadcrumb.CorrectedBreadcrumbFor | src/components/dynamic-breadcrumb.tsx:44-66 | the corrected breadcrumb of "## Findings": the same ellipsis rule and inline and folded links, only the next-to-last link after the ellipsis, so for every pathname the trail is exactly Home and the kept segments' links, each once; Go Back exactly when some segment is kept |
| Profile.Initial | src/pages/dashboard/profile/index.tsx:10-27 | not editing, and the form is a copy of the profile |
| Profile.SetField | src/pages/dashboard/profile/index.tsx:29-32 | a change writes the named one of name, email, phone, address and leaves every other field alone |
| Profile.InputChange | src/pages/dashboard/profile/index.tsx:96-147 | the profile is never touched; in edit mode only the named form field changes; outside it the disabled inputs change nothing |
| Profile.HandleSave | src/pages/dashboard/profile/index.tsx:34-39 | the form becomes the profile unvalidated, and editing ends |
| Profile.HandleCancel | src/pages/dashboard/profile/index.tsx:41-45 | the form is reset to the untouched profile, and editing ends |
| Profile.StartEditing | src/pages/dashboard/profile/index.tsx:196 | the Edit Profile button turns editing on and leaves the profile and the form as they were |
| Profile.Step | src/pages/dashboard/profile/index.tsx:29-196 | every action keeps "not editing implies form equals profile"; Edit Profile only turns editing on, and each other action is its handler |
| Profile.RunPreservesInv | src/pages/dashboard/profile/index.tsx:26-45 | every sequence of actions keeps "not editing implies form equals profile" |
| Profile.FixedFieldsNeverChange | src/pages/dashboard/profile/index.tsx:156-178 | department and join date never change in profile or form, whatever the actions |
| Profile.ChangesKeepUser | src/pages/dashboard/profile/index.tsx:29-32 | typing in edit mode leaves the profile and edit mode untouched |
| Profile.EditThenCancelRestores | src/pages/dashboard/profile/index.tsx:41-45 | Edit Profile, any typing, then Cancel returns the page to exactly its earlier state |
| Profile.EditThenSaveStoresForm | src/pages/dashboard/profile/index.tsx:34-39 | Edit Profile, any typing, then Save stores exactly what the form held and ends editing |
| SideNav.IsActive | src/components/navigation/sidenav.tsx:20 | an item is active exactly when its target occurs somewhere in the pathname |
| SideNav.RenderItem | src/components/navigation/sidenav.tsx:20-22 | active exactly on a substring match; icon colour white when active, gray otherwise; painted icons get that colour, fixed ones are used unchanged |
| SideNav.SideNavFor | src/components/navigation/sidenav.tsx:39-76 | no stored role gives Logout alone; "admin" gives the five admin items then Logout; any other stored role fails to render; a rendering always ends with Logout |
| SideNav.TargetPrefixActivates | src/components/navigation/sidenav.tsx:20-21 | any pathname that starts with an item's target highlights it in white |
| SideNav.PatientsDetailHighlightsPatients | src/utils/navigation/nav-items.tsx:12-16 | on "/dashboard/admin/patients/7" the Patients item is active and its icon painted white |
| Schemas.LoginIssues | src/utils/forms/schemas.ts:5-8 | a login is accepted exactly when the e-mail passes the check and the password has at least 8 characters; each failing field reports its own message once, e-mail first |
| Schemas.SearchIssues | src/utils/forms/schemas.ts:10-12 | the search is accepted exactly when non-empty, otherwise "Search keyword is required" |
| Schemas.NewPropertyIssues | src/utils/forms/schemas.ts:14-17 | accepted exactly when name and location are both non-empty; each empty one reports its message, once |
| Text.MatchesIgnoringCase | src/pages/dashboard/lab/Lab.tsx:70-73 | `a.toLowerCase().includes(b.toLowerCase())`: true exactly when the lowercased query occurs at some position of the lowercased field |
| Text.Contains | src/components/navigation/sidenav.tsx:20 | `includes` and `indexOf(..) !== -1`: true exactly when the needle occurs at some position of the haystack |
| Text.JoinCountsSeparators | src/components/dynamic-breadcrumb.tsx:52 | `join("/")`, the reference definition that Text.Split and Text.SplitJoin are stated against: a join of separator-free pieces starts with the first piece and holds exactly one separator fewer than there are pieces |
| Text.Split | src/components/dynamic-breadcrumb.tsx:45 | `split("/")` yields at least one piece, no piece holds the separator, and joining the pieces gives the string back |
| Text.SplitJoin | src/components/dynamic-breadcrumb.tsx:45-52 | splitting a join of separator-free pieces gives exactly those pieces |
| Text.ReplaceFirst | src/components/dynamic-breadcrumb.tsx:95 | `replace("-", " ")` keeps the length, leaves a dash-free string alone and changes only the first dash |
| Text.Capitalize | src/components/dynamic-breadcrumb.tsx:53 | `charAt(0).toUpperCase() + slice(1)`: same length, the first character upper-cased, every later one kept |
| Text.CapitalizeKeepsLetters | src/components/dynamic-breadcrumb.tsx:53 | capitalising keeps the length and everything after the first character, changes the text only in case, is idempotent, never leaves a lower-case first letter and so changes every lower-case one |
| Seqs.Filter | src/pages/dashboard/pharmacy/index.tsx:29 | `Array.filter`: exactly the passing elements, as an order-preserving subsequence; the whole list when all pass |
| Seqs.FilterMonotone | src/pages/dashboard/patients/index.tsx:53-57 | a stronger predicate selects a subsequence of what a weaker one selects |
| Seqs.Dedup | src/pages/dashboard/patients/index.tsx:40 | `[...new Set(xs)]`: the same elements, each once, in order of first appearance |

## Left out

- Dates and the clock: `new Date()`, `Math.ceil` of a float day difference, and the ISO date of the create form are inputs. Pharmacy's list and its counter each read the clock separately; the model uses one `daysUntil` for both. Unparsable dates, where the difference is NaN, are not modelled.
- Money: prices are whole cents (`priceCents`). `totalInventoryValue`, `averagePrice` and their number formatting are float arithmetic and are left out.
- Random ids: the `"lt" + Math.random()` id of a created lab test is the parameter `newId`. Uniqueness is not guaranteed by the program, so `Lab.CreateThenDeleteRestores` assumes a fresh one.
- `window.confirm`, `toast` notifications, dialog open-change callbacks and the print action are out; confirmation is a boolean argument. JSX markup and styling are out too, apart from the breadcrumb's rendered item order and the side-nav item's highlight and icon colour.
- `Text.MatchesIgnoringCase`: lowercases ASCII letters only. `toLowerCase` applies Unicode case mapping, so it is weaker than the source for non-ASCII text.
- `Text.Capitalize`: upper-cases ASCII letters only; `toUpperCase` also maps other letters, some of them to two characters.
- `Schemas.LoginIssues`: zod's e-mail regular expression is the parameter `isEmail`, not a definition.
- `Schemas.LoginIssues`: the password length counts characters, while zod's `min(8)` counts UTF-16 code units, so a password of four characters outside the Basic Multilingual Plane (four emoji) passes in the program and fails in the model. The `min(1)` checks agree, since only the empty string is empty in both counts.
- The Lab form starts as an empty object cast to a lab test. The model starts it with empty strings, which the save handler rejects just as it rejects missing fields.
- The data table (sorting, pagination, column filters), the mobile side navigation, the user modal, the action buttons, cards, headers and other presentation files are not part of this model.
- `getConfigByRole` (role storage) is not part of this model; the stored role is a parameter of `SideNav.SideNavFor`.
- The Patients status list and the Pharmacy filter option lists are constants; the drop-downs can only offer them, but the filters are modelled for any string.
- The static `pharmacyMetrics` texts in the pharmacy data file disagree with the computed counts: Low Stock shows "1", but the page computes 2 (ids 2 and 4). The model follows the computation.
- The Lab result and completion-date inputs only appear in edit mode once the status is "Completed". The model lets a change reach any form field at any time.

## Findings

| source | as written | input that shows it | evidently intended | confidence | as-written member | corrected member |
|---|---|---|---|---|---|---|
| src/components/dynamic-breadcrumb.tsx:63-64, 161, 175, 201-208 | with the ellipsis, `linksToDisplay` keeps the last three links and the last two of them are drawn after the ellipsis, and then `lastLink` is drawn again as the current page | "/a/b/c/d/e": six links, and the trail ends "… / D / E E", the link to E and then the page E (the separator is drawn only after the first of the two trailing links) | the links after the ellipsis stop before the last one, as `slice(0, -1)` does without the ellipsis, so each link appears once | medium, not executed | Breadcrumb.SampleTrailShowsLastLinkTwice | Breadcrumb.Layout |
