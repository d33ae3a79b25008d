# Maktabati story library — a Dafny model

Maktabati is a single-page web library of PDF stories. A visitor can:
- browse and search the stories;
- open a story, read it in an embedded PDF viewer, and like, dislike, download or comment on it;
- upload a new PDF, whose cover image is extracted from the first page;
- as the owner, see totals and delete stories.

Everything is kept in the browser. An IndexedDB database holds three stores: stories, categories and settings. Local storage holds a mock sign-in session.

This project models the behaviour of that core in Dafny and proves its properties. There is one module per source file:

| module | source | form |
|---|---|---|
| `Types` | types.ts | the records (`Story`, `Comment`, `User`) plus `Option`/`Result` for `undefined` and thrown errors |
| `Storage` | services/storage.ts | class `Database` with the three stores as a map, a set and a map; the upgrade step; every exported operation as a method |
| `StoryDetails` | pages/StoryDetails.tsx | class `DetailsPage` (the page's `story` and comment box); `trim`; the reversed comment list |
| `Upload` | pages/Upload.tsx | class `UploadForm` (the form state); the new-record literal |
| `AdminDashboard` | pages/AdminDashboard.tsx | the stat folds; class `Dashboard` (list and stats) |
| `Home` | pages/Home.tsx | the search filter and the portrait fallback, as functions |
| `PdfViewer` | components/PdfViewer.tsx | page and zoom clamps as functions; class `Viewer` with the load and render effects |
| `App` | App.tsx | query-string parsing, dispatch and update; class `Shell` with the session |
| `UserJson` | App.tsx | the `JSON.stringify` text of the session record and the reading of it back |

Conventions:
- Clock readings (`Date.now()`, `new Date()`) are method parameters.
- Timestamps are integers (milliseconds). The source stores an ISO string of the same instant and sorts by its time value.
- The zoom factor is an integer number of tenths: 12 stands for 1.2.
- Every store method first runs `Open`, as every exported function of the store awaits `openDB()`.
- The pages call the store synchronously, as they are written. storage.ts exports `async` functions, and the pages use their results without `await`. The model gives each call the result that was evidently meant.
- The store does what the code does; in particular:
  - `deleteCategory` removes only the name; it does not re-tag stories to a fallback category.
  - `renameCategory` deletes the old name before adding the new one.
  - `renameCategory` with equal names still adds the name.
  - Uploaded stories carry no category.

## Model

| member | source | states |
|---|---|---|
| Storage.Insert | services/storage.ts:129 | inserting into the sorted list adds exactly that story (multiset) |
| Storage.SortNewestFirst | services/storage.ts:129 | the sort is a permutation of the fetched stories |
| Storage.InsertSorted | services/storage.ts:129 | inserting into a newest-first list keeps it newest first |
| Storage.InsertDistinct | services/storage.ts:129 | inserting a story with a fresh id keeps ids distinct |
| Storage.SortIsNewestFirst | services/storage.ts:129 | the comparator `b.createdAt - a.createdAt` yields non-increasing `createdAt` |
| Storage.SortKeepsDistinctIds | services/storage.ts:129 | sorting neither duplicates nor loses a story |
| Storage.SortKeepsStore | services/storage.ts:126-129 | sorting a listing of the store is still a listing of exactly the stored stories |
| Storage.NewestIsListedFirst | services/storage.ts:129 | a story newer than all others is first in the listing |
| Storage.InsertWithTime | services/storage.ts:129 | an inserted story goes ahead of every story with its own timestamp and leaves their order alone |
| Storage.SortIsStable | services/storage.ts:129 | stories with equal `createdAt` keep their fetched order (`Array.prototype.sort` is stable) |
| Storage.RetagStep | services/storage.ts:111-115 | one loop turn writes back exactly the current story, re-tagged when it carried the old name, and leaves the rest of the listing as it was |
| Storage.RetaggedAll | services/storage.ts:110-116 | after a pass over a listing of the whole store every story is re-tagged, and with distinct names none keeps the old one |
| Storage.Database.constructor | services/storage.ts:20-22 | a never-opened database has no stores and no data |
| Storage.Database.FromDisk | services/storage.ts:7 | a database left by an older schema version, with any subset of the stores |
| Storage.Database.CreateObjectStore | services/storage.ts:27-35 | creating a store adds exactly that name; only a missing name may be created |
| Storage.Database.OnUpgradeNeeded | services/storage.ts:25-36 | the upgrade creates each missing store once and touches nothing else |
| Storage.Database.Open | services/storage.ts:20-38 | after opening, the version is 3 and all three stores exist; no data changes |
| Storage.Database.GetSetting | services/storage.ts:42-51 | returns the stored value, or absent for a key never saved |
| Storage.Database.SaveSetting | services/storage.ts:53-62 | the key maps to the new value; other keys and stores are unchanged |
| Storage.Database.AllCategories | services/storage.ts:71-73 | lists every stored name exactly once |
| Storage.Database.GetCategories | services/storage.ts:66-83 | an empty store is seeded with the 8 defaults, which are returned in declared order; otherwise the stored names are returned and nothing is written |
| Storage.Database.SaveCategory | services/storage.ts:85-94 | the name is added (upsert); stories and settings are unchanged |
| Storage.Database.DeleteCategory | services/storage.ts:96-105 | the name is removed and no story is re-tagged |
| Storage.Database.RenameCategory | services/storage.ts:107-117 | the categories become (set − {old}) ∪ {new}; each story is re-tagged exactly when it carried the old name; the ids and the count are unchanged; with distinct names no trace of the old name remains |
| Storage.Database.AllStories | services/storage.ts:126-128 | lists every stored story exactly once |
| Storage.Database.GetStories | services/storage.ts:121-133 | lists every stored story exactly once, newest first, and changes no data |
| Storage.Database.SaveStory | services/storage.ts:135-144 | upsert by id: the id maps to the story, other ids are unchanged, and the count grows only for a new id |
| Storage.Database.GetStoryById | services/storage.ts:146-155 | returns the story stored under the id, or absent |
| Storage.Database.UpdateStory | services/storage.ts:157-159 | the same effect as saving |
| Storage.Database.DeleteStory | services/storage.ts:161-170 | the id is gone, other stories are unchanged, and a missing id changes nothing |
| Storage.Database.AddComment | services/storage.ts:172-184 | a missing story fails with "Story not found" and nothing is written; otherwise exactly one visitor comment is appended at the end, everything else in the story is unchanged, and that comment is returned |
| Home.IncludesIsSubstring | pages/Home.tsx:20-22 | `includes` holds exactly when the term occurs at some position |
| Home.FilterStories | pages/Home.tsx:19-23 | a story is kept iff it is loaded and matches in title, author or description; the result is no longer than the input |
| Home.KeptIffSubstring | pages/Home.tsx:19-23 | a story is shown iff the term is a substring of its title, author or description |
| Home.EmptyTermKeepsAll | pages/Home.tsx:19-23 | an empty search shows every story in loaded order |
| Home.FilterIsSublist | pages/Home.tsx:19-23 | the filtered list keeps the loaded order |
| Home.OnAvatarError | pages/Home.tsx:36-43 | the fallback is assigned iff the current source differs from it |
| Home.AtMostOneSwap | pages/Home.tsx:36-43 | over any number of load failures the source changes at most once, and never once it is the fallback |
| AdminDashboard.ReduceIsSum | pages/AdminDashboard.tsx:19-21 | each `reduce` fold from 0 equals the sum of the counter |
| AdminDashboard.ComputeStats | pages/AdminDashboard.tsx:18-28 | the count is the list length; the totals are the sums of views, likes and downloads (missing as 0) |
| AdminDashboard.StatsIgnoreOrder | pages/AdminDashboard.tsx:14-28 | the totals do not depend on the order of the list |
| AdminDashboard.DescriptionPreview | pages/AdminDashboard.tsx:170 | the preview is a prefix of the description of length at most 30, the whole description when it is short |
| AdminDashboard.Dashboard.constructor | pages/AdminDashboard.tsx:11-12 | the list starts empty and the totals start at zero |
| AdminDashboard.Dashboard.LoadData | pages/AdminDashboard.tsx:14-29 | the displayed list is every stored story newest first, and the stats are computed from that same list |
| AdminDashboard.Dashboard.HandleDelete | pages/AdminDashboard.tsx:35-40 | nothing changes without confirmation; with it the story is deleted and the list and stats are reloaded |
| PdfViewer.ChangePage | components/PdfViewer.tsx:92-94 | the result is min(max(1, prev+offset), pageCount), so for pageCount ≥ 1 it lies in 1..pageCount |
| PdfViewer.EnabledButtonsMoveOnePage | components/PdfViewer.tsx:128-146 | an enabled previous or next button moves exactly one page, and a disabled one would not move |
| PdfViewer.PageStaysInRange | components/PdfViewer.tsx:92-94 | no sequence of page changes leaves 1..pageCount |
| PdfViewer.ZoomOut | components/PdfViewer.tsx:151 | zooming out steps down by 0.2 but never below 0.5 |
| PdfViewer.ZoomIn | components/PdfViewer.tsx:154 | zooming in steps up by 0.2 but never above 3.0 |
| PdfViewer.ZoomStaysInRange | components/PdfViewer.tsx:148-157 | starting in range (1.2 initially), any sequence of zoom presses stays in 0.5..3.0 |
| PdfViewer.Viewer.constructor | components/PdfViewer.tsx:8-16 | the initial state is page 1 of 0, zoom 1.2, loading, no error and no render task |
| PdfViewer.Viewer.LoadPdf | components/PdfViewer.tsx:18-45 | an empty url does nothing; a missing library or a failed load ends in the matching error with loading false, and the screen shows that message; a success stores the document and its page count and the screen shows the pages |
| PdfViewer.Viewer.RenderPage | components/PdfViewer.tsx:47-90 | a render starts exactly when there is a document, a canvas, a valid page and a context; before it starts, the previous task is cancelled, and the ref then holds the new task |
| PdfViewer.Viewer.ChangePageBy | components/PdfViewer.tsx:92-94 | the page becomes the clamped value |
| PdfViewer.Viewer.ZoomInPressed | components/PdfViewer.tsx:154 | the scale becomes the clamped zoom-in and stays in range |
| PdfViewer.Viewer.ZoomOutPressed | components/PdfViewer.tsx:151 | the scale becomes the clamped zoom-out and stays in range |
| App.GetParams | App.tsx:12-18 | a missing or empty `page` gives "home"; a missing or empty `id` gives absent; otherwise the values are as given |
| App.RenderPage | App.tsx:89-107 | "details" with an id renders the details of that id; upload and admin render their pages; anything else, including "details" without an id, renders Home |
| App.NavigateQuery | App.tsx:55-68 | "home" leaves no parameters; any other page sets `page`, sets `id` if given or removes it, and keeps every other parameter |
| App.NavigationIsBookmarkable | App.tsx:49-68 | reading the pushed query back renders the same view the navigation showed |
| App.RestoreSession | App.tsx:38-47 | a missing key restores no user; a restored user is what the stored text parses to |
| App.StoredSessionRestores | App.tsx:71-87 | after login the stored record restores the same user; after logout nothing is restored |
| App.Shell.constructor | App.tsx:20-47 | the page and id come from the query, and the user from the stored session |
| App.Shell.OnPopState | App.tsx:26-35 | back or forward takes the page and id from the restored query; the session is untouched |
| App.Shell.HandleNavigate | App.tsx:49-69 | sets the page and id and pushes the matching query, keeping the address bar in step with the view |
| App.Shell.SignIn | App.tsx:79-80 | the user is set and its JSON text is stored under `maktabati_user` |
| App.Shell.HandleLogin | App.tsx:71-81 | the user becomes the fixed visitor record, stored under `maktabati_user`, and a reload restores it |
| App.Shell.HandleLogout | App.tsx:83-87 | the user is cleared, the key removed and the page is home with an empty query |
| UserJson.Stringify | App.tsx:80 | the stored text opens with the `name` key, closes with `}`, and is longer than the three values together |
| UserJson.Parse | App.tsx:42 | only text opening with the `name` key is read as a user |
| UserJson.ParseAcceptsOnlyRecords | App.tsx:42 | text read as a user opens with the `name` key and ends with the closing brace |
| UserJson.ParseStringify | App.tsx:80 | the text stored for a user parses back to that user |
| StoryDetails.TrimStart | pages/StoryDetails.tsx:57 | removes exactly the leading ECMAScript whitespace: a suffix, all dropped characters whitespace, and the first kept one not |
| StoryDetails.TrimEnd | pages/StoryDetails.tsx:57 | removes exactly the trailing whitespace, the mirror image of TrimStart |
| StoryDetails.BlankIffAllWhitespace | pages/StoryDetails.tsx:57 | a comment is refused as blank iff every character is whitespace |
| StoryDetails.DisplayedComments | pages/StoryDetails.tsx:257 | position i shows the stored comment counted i from the end |
| StoryDetails.NewestCommentFirst | pages/StoryDetails.tsx:257 | every comment is shown, and a newly appended comment is shown first, above the unchanged earlier list |
| StoryDetails.DetailsPage.constructor | pages/StoryDetails.tsx:16-17 | no story is loaded and the comment box is empty |
| StoryDetails.DetailsPage.Persist | pages/StoryDetails.tsx:33-35 | the page shows the updated story and the store holds it under the same id |
| StoryDetails.DetailsPage.OnOpen | pages/StoryDetails.tsx:21-29 | an existing story is shown and stored with views one higher and nothing else changed; a missing id changes nothing |
| StoryDetails.DetailsPage.HandleLike | pages/StoryDetails.tsx:31-36 | only `likes` grows, by one, and the result is persisted; with no story nothing happens |
| StoryDetails.DetailsPage.HandleDislike | pages/StoryDetails.tsx:38-43 | only `dislikes` grows, by one, and the result is persisted; with no story nothing happens |
| StoryDetails.DetailsPage.HandleDownload | pages/StoryDetails.tsx:45-53 | `downloads` becomes old+1 with a missing value counted as 0, and the result is persisted; with no story nothing happens |
| StoryDetails.DetailsPage.HandleCommentSubmit | pages/StoryDetails.tsx:55-64 | with no story or a blank text nothing happens; otherwise the text as typed is appended as one visitor comment, the page shows the stored story and the box is cleared |
| Upload.NewStory | pages/Upload.tsx:48-61 | the record carries the given id, timestamp, texts, cover and file url, zero likes, dislikes, views and downloads, no comments and no category |
| Upload.NewStoryAddsNoEngagement | pages/Upload.tsx:48-61 | a submitted record has zero counters, so it raises the dashboard count by one and leaves every total unchanged |
| Upload.UploadForm.constructor | pages/Upload.tsx:12-17 | no file, no cover, not processing, and empty texts |
| Upload.UploadForm.HandleFileChange | pages/Upload.tsx:20-42 | a non-PDF is rejected with the alert and no state change; a PDF is kept, and the cover is set or the failure alert shown; processing is false afterwards either way |
| Upload.UploadForm.HandleSubmit | pages/Upload.tsx:44-65 | without a file, cover, title or author nothing is saved (the description is not checked); otherwise exactly one record is saved with the form's texts and cover, zero counters and no comments, and navigation goes home |
| Upload.UploadForm.RemoveFile | pages/Upload.tsx:71-75 | file and cover are cleared, so submission is disabled |

## Left out

- IndexedDB plumbing is not modelled: requests, transactions, `onerror` callbacks and the promises around them. No store operation fails with a storage error in the model.
- Interleaved asynchronous operations are not modelled. Examples are two comment submissions racing, and the delete and reload in the dashboard overlapping. The source does nothing to serialise them.
- The pages as written pass the un-awaited promise of an `async` store function to code that expects its result (pages/Home.tsx:16, pages/AdminDashboard.tsx:15, pages/StoryDetails.tsx:22). The model gives each call its evident synchronous result.
- Opening a database whose stored version is newer than 3 fails with a version error in IndexedDB. The model only builds databases at version 3 or lower.
- Storage.Database.AllStories: lists in an unspecified order, where IndexedDB `getAll` returns ascending key order. Only the relative order of stories with equal timestamps depends on this.
- Storage.Database.AllCategories: lists in an unspecified order, where IndexedDB `getAll` returns ascending key order.
- Storage.Database.GetCategories: on a non-empty store the names come in an unspecified order, for the same reason.
- Settings values may be any value in the source (services/storage.ts:53); here they are strings.
- Timestamps and ids come from the clock in the source. Here they are parameters, and timestamps are integers rather than ISO strings.
- services/pdfService.ts is not part of this model. Cover extraction is an input to `HandleFileChange`, and the object URL is an input to `HandleSubmit`.
- Page rendering is left out: canvas sizing, viewports and `page.render`. The render task is modelled only by its page, scale and cancelled flag, and `RenderingCancelledException` handling is left out.
- The floating-point zoom factor is modelled in exact tenths. The repeated ±0.2 steps in the source drift slightly in IEEE arithmetic.
- Sharing is not part of this model (`handleShare`, `encodeURIComponent`, `window.open`, the clipboard, the copy-success timer), and neither is date formatting with `toLocaleDateString`.
- components/Navbar.tsx and components/StoryCard.tsx are presentation only, and are not part of this model.
- `window.history.pushState`, `window.scrollTo` and the path and hash of the URL are left out. The query string is a map with one value per parameter.
- App.RestoreSession: restores only text in the form `JSON.stringify` writes for a user record. Any other valid JSON text would be set as the user by the source, but is restored as no user here.
- UserJson.Parse: reads only the canonical `{"name":…,"email":…,"avatar":…}` text. Other whitespace, key orders or extra keys are read as unparseable.
- AdminDashboard.DescriptionPreview: counts Unicode characters, where `substring` counts UTF-16 code units. They differ only for characters outside the Basic Multilingual Plane. The same holds for the search in `Home.Includes`.
- StoryDetails.DetailsPage.OnOpen: models the effect only as it runs when the page mounts. The re-run on a change of the `id` prop is not modelled, because the page's `id` is fixed.
- Upload.UploadForm.HandleFileChange: `isProcessing` is true only while the extraction is pending. The model runs the extraction within the call, so that interval is not observable.
- The `ViewMode` and `SharePlatform` enums of types.ts, and the form's plain text inputs, need no model. The texts are public fields.
