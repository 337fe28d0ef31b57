# Todo and notes front ends, modelled in Dafny

This project models the client side of a small todo-and-notes application.
That client has two generations of React front end.

- **The MobX front end** (`todo_front`) has:
  - three stores (`TodoStore`, `NoteStore`, `UIStore`);
  - utility modules for filters, pagination, dates and API errors;
  - the todo list and note list panels, the filter bar and the pagination bar;
  - the dashboard and todos pages;
  - the sidebar, the navigation bar and the theme hooks.
- **The legacy front end** (`frontend`) has:
  - list components for todos and notes, each with its own global cache;
  - the "today" list;
  - the todo and note forms;
  - the `noteStore` singleton mirrored into local storage.

Modelling conventions:

- Each source file is one Dafny module.
- Pure expressions (filters, spreads, if-chains, string building) become functions with lemmas.
- Objects whose methods update fields become classes. This covers the MobX stores, component state held in `useState`, and the caches. Their methods state the whole new state.
- A service call, the clock, a generated id and a local-storage read are given to each operation as parameters. A settled promise is `Outcome<T>`.
- JavaScript plain objects are `map<string, JsValue>`.
- Numbers are integers.

Shared modules:

| module | holds |
|---|---|
| `Wrappers` | `Option` and `Outcome` |
| `JsValues` | JSON-like values, truthiness and `String(v)` |
| `Text` | `trim`, lower-casing, `includes` and padding |
| `Sequences` | filter, replace and remove by id, and the id-to-item map view of a list |
| `ApiTypes` | the records of `types/api.ts` |

## Model

A function that only computes a value appears through the lemmas that state its properties. Helpers whose behaviour is part of a larger member's contract (`NormalizeListBody` in `LoadTodosForToday`, `ChipText` in `Chips`) have no row of their own.

| member | source | states |
|---|---|---|
| FilterUtils.RemoveEmptyValues | todo_front/src/utils/filterUtils.ts:4-11 | keeps exactly the entries whose value is not `undefined`, `null` or `''`, with their values unchanged |
| FilterUtils.RemoveEmptyValuesIdempotent | todo_front/src/utils/filterUtils.ts:4-11 | cleaning twice gives the same object as cleaning once |
| FilterUtils.FalsyButNotEmptySurvives | todo_front/src/utils/filterUtils.ts:6 | `0` and `false` are kept, because only the three empty values are dropped |
| FilterUtils.Pick | todo_front/src/utils/filterUtils.ts:17-23 | the object literal has exactly the listed keys, and a missing option reads as `undefined` |
| FilterUtils.CreateTodoFilterOptions | todo_front/src/utils/filterUtils.ts:14-25 | only todo filter keys survive, with their given values, and every non-empty one of them survives |
| FilterUtils.CreateNoteFilterOptions | todo_front/src/utils/filterUtils.ts:27-35 | only search, ordering and page survive, never priority or status, and every non-empty one survives |
| FilterUtils.ParseQueryParams | todo_front/src/utils/filterUtils.ts:38-45 | undefined parameters are dropped, a string is kept, and a repeated parameter gives its first value |
| FilterUtils.GetPriorityColor | todo_front/src/utils/filterUtils.ts:71-82 | red iff High, orange iff Medium, green iff Low, grey iff anything else |
| FilterUtils.GetStatusColor | todo_front/src/utils/filterUtils.ts:85-94 | green iff Completed, blue iff Pending, grey iff anything else |
| FilterUtils.PriorityColorsTellPrioritiesApart | todo_front/src/utils/filterUtils.ts:71-82 | no real priority is grey, and two priorities share a colour iff they are equal |
| FilterUtils.StatusColorsTellStatusesApart | todo_front/src/utils/filterUtils.ts:85-94 | no real status is grey, and two statuses share a colour iff they are equal |
| FilterUtils.OptionCaption | todo_front/src/components/common/FilterBar.tsx:159 | `options.find(opt => opt.value === value)`: none iff no option value equals the value, otherwise the label of the first matching option |
| PaginationUtils.ExtractPaginationInfo | todo_front/src/utils/paginationUtils.ts:14-49 | fails exactly when the `previous` link cannot be parsed; otherwise gives the page after `previous`, or 1 (or a `next` page of 2), with the count and link flags |
| PaginationUtils.Range | todo_front/src/utils/paginationUtils.ts:58 | `Array.from` of consecutive numbers: the length is `max(last-first+1, 0)` and element i is `first+i` |
| PaginationUtils.GeneratePageNumbers | todo_front/src/utils/paginationUtils.ts:51-75 | all pages when they fit; otherwise a window of `maxPageButtons` consecutive pages inside 1..totalPages that contains the current page |
| PaginationUtils.GetPageFromUrl | todo_front/src/utils/paginationUtils.ts:78-88 | the link's page parameter, and 1 for no link, an unparsable one, or one without a page |
| PaginationUtils.CurrentPageFollowsPrevious | todo_front/src/utils/paginationUtils.ts:22-29 | with a usable `previous` link, the current page is that link's page plus one |
| PaginationUtils.CreatePaginationParams | todo_front/src/utils/paginationUtils.ts:91-99 | other parameters are copied, and `page` is the number above the first page and `undefined` otherwise |
| PaginationUtils.PageParamSentOnlyPastFirst | todo_front/src/utils/paginationUtils.ts:91-99 | once empty values are removed, `page` is present iff page > 1 |
| DateUtils.Midnight | todo_front/src/utils/dateUtils.ts:49-53 | `setHours(0,0,0,0)` gives the start of the instant's day, which lies within one day before it |
| DateUtils.GetDaysBetween | todo_front/src/utils/dateUtils.ts:41-44 | the ceiling of the absolute difference in days: non-negative and tight |
| DateUtils.DaysBetweenSymmetric | todo_front/src/utils/dateUtils.ts:41-44 | the count does not depend on the order of the two dates |
| DateUtils.GetDaysUntilDue | todo_front/src/utils/dateUtils.ts:47-57 | invalid iff the due date is invalid; otherwise the difference of calendar day numbers |
| DateUtils.SameDayIsZeroDaysAway | todo_front/src/utils/dateUtils.ts:47-57 | a due date on today's calendar day is 0 days away |
| DateUtils.DueStatusOf | todo_front/src/utils/dateUtils.ts:60-70 | overdue iff negative, soon iff 0..3, safe iff more than 3 or NaN |
| DateUtils.GetDueStatus | todo_front/src/utils/dateUtils.ts:47-70 | the three statuses as conditions on calendar days between now and the due date |
| ErrorUtils.GetErrorMessageByStatus | todo_front/src/utils/errorUtils.ts:64-93 | a listed status gets its own message, and the generic message appears iff the status is not listed |
| ErrorUtils.StatusMessagesDistinct | todo_front/src/utils/errorUtils.ts:64-93 | different listed statuses get different messages |
| ErrorUtils.ArrayEntries | todo_front/src/utils/errorUtils.ts:32 | `Object.entries` of an array is keyed by index text, up to the last index |
| ErrorUtils.ArrayEntriesKeys | todo_front/src/utils/errorUtils.ts:32 | the keys are exactly the decimal texts of the array's indices |
| ErrorUtils.ArrayEntriesValues | todo_front/src/utils/errorUtils.ts:32 | each index text maps to the element at that index |
| ErrorUtils.FieldDetail | todo_front/src/utils/errorUtils.ts:33-40 | an array becomes the text of its elements, a string a one-item list, an object its JSON, and anything else is skipped |
| ErrorUtils.DetailsOf | todo_front/src/utils/errorUtils.ts:28-41 | `details` has exactly the entries with a usable detail, each converted as above |
| ErrorUtils.ApiErrorOf | todo_front/src/utils/errorUtils.ts:13-61 | the four branches in order (truthy `detail`, non-empty body, other HTTP error, non-HTTP error); details only with the validation message; status iff HTTP error |
| ErrorUtils.CollectDetails | todo_front/src/utils/errorUtils.ts:30-41 | the `forEach` loop builds exactly `DetailsOf` |
| ErrorUtils.ParseApiError | todo_front/src/utils/errorUtils.ts:13-61 | the imperative parse equals `ApiErrorOf` |
| ErrorUtils.GetErrorMessage | todo_front/src/utils/errorUtils.ts:102-105 | the message `parseApiError` settles on |
| ErrorUtils.ReportFieldErrors | todo_front/src/utils/errorUtils.ts:114-122 | one `setError` call per field with a message, carrying its first message, and no call for fields without one |
| ErrorUtils.HandleFormErrors | todo_front/src/utils/errorUtils.ts:108-128 | with details, field errors and no toast; without details, only a toast with the message |
| MobxUIStore.SuccessNotice | todo_front/src/store/TodoStore.ts:105-111 | the success notice is auto-removed, has the default duration, and carries the given id, message and time |
| MobxUIStore.ThemeFrom | todo_front/src/store/UIStore.ts:110-125 | a saved value means dark iff it is "true"; with nothing saved, the system preference decides |
| MobxUIStore.SavedThemeRoundTrip | todo_front/src/store/UIStore.ts:99-125 | what `saveThemePreference` writes, `loadThemePreference` reads back, whatever the system prefers |
| MobxUIStore.WithoutNotification | todo_front/src/store/UIStore.ts:75-79 | the remaining notifications are exactly those with another id, in their order, each as often as in the list |
| MobxUIStore.UIStore.constructor | todo_front/src/store/UIStore.ts:6-33 | the initial state, with the theme loaded from storage |
| MobxUIStore.UIStore.SetLoading | todo_front/src/store/UIStore.ts:36-38 | sets the loading flag |
| MobxUIStore.UIStore.ToggleSidebar | todo_front/src/store/UIStore.ts:41-43 | negates the sidebar flag |
| MobxUIStore.UIStore.SetSidebarOpen | todo_front/src/store/UIStore.ts:46-48 | sets the sidebar flag |
| MobxUIStore.UIStore.OpenModal | todo_front/src/store/UIStore.ts:51-54 | sets the modal name; the data defaults to null |
| MobxUIStore.UIStore.CloseModal | todo_front/src/store/UIStore.ts:57-60 | clears the modal and its data |
| MobxUIStore.UIStore.AddNotification | todo_front/src/store/UIStore.ts:63-72 | appends the notification |
| MobxUIStore.UIStore.RemoveNotification | todo_front/src/store/UIStore.ts:75-79 | drops the notifications with that id |
| MobxUIStore.UIStore.ClearAllNotifications | todo_front/src/store/UIStore.ts:82-84 | empties the list |
| MobxUIStore.UIStore.SaveThemePreference | todo_front/src/store/UIStore.ts:99-107 | writes `String(isDarkMode)` under 'darkMode' |
| MobxUIStore.UIStore.LoadThemePreference | todo_front/src/store/UIStore.ts:110-125 | sets the theme as `ThemeFrom` says |
| MobxUIStore.UIStore.ToggleTheme | todo_front/src/store/UIStore.ts:87-90 | negates the theme and saves it |
| MobxUIStore.UIStore.SetDarkMode | todo_front/src/store/UIStore.ts:93-96 | sets the theme and saves it |
| StoreUpdates.FollowUpdate | todo_front/src/store/TodoStore.ts:141-143 | the selection is replaced iff it has the updated id |
| StoreUpdates.FollowDelete | todo_front/src/store/TodoStore.ts:204-206 | the selection is cleared iff it has the deleted id |
| StoreUpdates.Recount | todo_front/src/store/TodoStore.ts:100-103 | the count moves by delta, the page count is its tight ceiling over the page size, and nothing else changes |
| StoreUpdates.RecountUndo | todo_front/src/store/TodoStore.ts:100-103 | a create followed by a delete restores consistent pagination |
| MobxTodoStore.TodoStore.constructor | todo_front/src/store/TodoStore.ts:11-38 | empty todos, nothing selected, no filters, the initial pagination |
| MobxTodoStore.TodoStore.FetchTodos | todo_front/src/store/TodoStore.ts:41-65 | the options are merged into the filters and the request sends their cleaned form; success replaces the todos and the pagination (kept when the link cannot be parsed) and failure keeps both |
| MobxTodoStore.TodoStore.FetchTodoById | todo_front/src/store/TodoStore.ts:68-84 | success selects the fetched todo, failure keeps the selection |
| MobxTodoStore.TodoStore.CreateTodo | todo_front/src/store/TodoStore.ts:87-125 | success prepends the todo when the page has room, recounts +1 and posts the success notice; failure changes nothing but the flag |
| MobxTodoStore.TodoStore.UpdateTodo | todo_front/src/store/TodoStore.ts:128-165 | success replaces the todo with that id, follows the selection and posts the notice; failure changes nothing |
| MobxTodoStore.ServiceToggleStatus | todo_front/src/services/todoService.ts:42-45 | the PATCH body asks for Completed exactly when `completed` is an explicit `true`; an omitted argument asks for Pending |
| MobxTodoStore.AsWrittenToggleStatus | todo_front/src/store/TodoStore.ts:173 | as written the store passes no `completed`, so every toggle asks for Pending |
| MobxTodoStore.IntendedToggleStatus | todo_front/src/store/TodoStore.ts:167-173 | corrected: the toggle asks for Completed exactly when the todo is Pending |
| MobxTodoStore.AsWrittenToggleKeepsPending | todo_front/src/store/TodoStore.ts:173 | as written, toggling a pending todo asks for the status it already has |
| MobxTodoStore.IntendedToggleFlips | todo_front/src/store/TodoStore.ts:167-173 | corrected: the requested status always differs from the todo's, and toggling twice restores it |
| MobxTodoStore.TodoStore.ToggleTodoStatus | todo_front/src/store/TodoStore.ts:168-192 | as written: a request is sent iff the id is on the page, always for Pending; success replaces the todo and follows the selection, anything else changes nothing |
| MobxTodoStore.TodoStore.ToggleTodoStatusIntended | todo_front/src/store/TodoStore.ts:168-192 | corrected: as above, but the request carries the found todo's status flipped |
| MobxTodoStore.TodoStore.DeleteTodo | todo_front/src/store/TodoStore.ts:195-229 | true iff the call succeeded; success removes the id, clears a matching selection, recounts -1 and posts the notice |
| MobxTodoStore.TodoStore.SetFilterOptions | todo_front/src/store/TodoStore.ts:232-234 | the new options override the old ones |
| MobxTodoStore.TodoStore.ResetFilters | todo_front/src/store/TodoStore.ts:237-239 | no filters |
| MobxTodoStore.TodoStore.SetPage | todo_front/src/store/TodoStore.ts:242-245 | the page is set in the filters and the list is fetched with it; success adopts the page's todos and its pagination (kept when the link cannot be parsed), failure keeps both |
| MobxTodoStore.TodoStore.SelectTodo | todo_front/src/store/TodoStore.ts:248-250 | selects the todo |
| MobxTodoStore.TodoStore.ClearSelectedTodo | todo_front/src/store/TodoStore.ts:253-255 | clears the selection |
| MobxTodoStore.SetPageRequestsPage | todo_front/src/store/TodoStore.ts:242-245 | the request after `setPage(p)` carries page p |
| MobxNoteStore.NoteStore.constructor | todo_front/src/store/NoteStore.ts:11-38 | empty notes, nothing selected, no filters, the initial pagination |
| MobxNoteStore.NoteStore.FetchNotes | todo_front/src/store/NoteStore.ts:41-65 | as for todos, with the note filter keys |
| MobxNoteStore.NoteStore.FetchNoteById | todo_front/src/store/NoteStore.ts:68-84 | success selects the fetched note |
| MobxNoteStore.NoteStore.CreateNote | todo_front/src/store/NoteStore.ts:87-125 | success prepends when the page has room, recounts +1 and posts the notice |
| MobxNoteStore.NoteStore.UpdateNote | todo_front/src/store/NoteStore.ts:128-165 | success replaces by id and follows the selection |
| MobxNoteStore.NoteStore.DeleteNote | todo_front/src/store/NoteStore.ts:168-202 | true iff success; success removes the id, clears a matching selection and recounts -1 |
| MobxNoteStore.NoteStore.SetFilterOptions | todo_front/src/store/NoteStore.ts:205-207 | the new options override the old ones |
| MobxNoteStore.NoteStore.ResetFilters | todo_front/src/store/NoteStore.ts:210-212 | no filters |
| MobxNoteStore.NoteStore.SetPage | todo_front/src/store/NoteStore.ts:215-218 | sets the page and fetches; success adopts the page's notes and its pagination (kept when the link cannot be parsed), failure keeps both |
| MobxNoteStore.NoteStore.SelectNote | todo_front/src/store/NoteStore.ts:221-223 | selects the note |
| MobxNoteStore.NoteStore.ClearSelectedNote | todo_front/src/store/NoteStore.ts:226-228 | clears the selection |
| MobxNoteStore.SetPageRequestsPage | todo_front/src/store/NoteStore.ts:215-218 | the request after `setPage(p)` carries page p |
| NoteStoreService.Saved | frontend/src/services/noteStore.ts:99-101 | what is written is an array holding exactly the notes with a truthy id |
| NoteStoreService.SaveThenLoad | frontend/src/services/noteStore.ts:80-101 | a saved list is adopted on load iff some note has a truthy id; when all do, exactly the notes come back |
| NoteStoreService.SaveIdempotent | frontend/src/services/noteStore.ts:99-101 | saving the loaded list again writes the same thing |
| NoteStoreService.NoteStoreManager.constructor | frontend/src/services/noteStore.ts:13-23 | starts empty and loads from storage |
| NoteStoreService.NoteStoreManager.LoadFromLocalStorage | frontend/src/services/noteStore.ts:80-95 | a stored non-empty array is adopted and marks the store initialized; anything else leaves the store alone |
| NoteStoreService.NoteStoreManager.SaveToLocalStorage | frontend/src/services/noteStore.ts:98-106 | storage then mirrors the notes |
| NoteStoreService.NoteStoreManager.SetNotes | frontend/src/services/noteStore.ts:39-45 | an array replaces the notes, initializes and saves; a non-array is ignored |
| NoteStoreService.NoteStoreManager.AddNote | frontend/src/services/noteStore.ts:48-54 | a note with a truthy id is appended and saved; otherwise nothing changes |
| NoteStoreService.NoteStoreManager.UpdateNote | frontend/src/services/noteStore.ts:57-64 | a note with a truthy id replaces the notes with its id and is saved |
| NoteStoreService.NoteStoreManager.DeleteNote | frontend/src/services/noteStore.ts:67-72 | a truthy id is removed and saved; id 0 changes nothing |
| NoteStoreService.NoteStoreManager.SetInitialized | frontend/src/services/noteStore.ts:75-77 | sets the flag |
| NoteStoreService.NoteStoreRegistry.constructor | frontend/src/services/noteStore.ts:12 | no instance yet |
| NoteStoreService.NoteStoreRegistry.GetInstance | frontend/src/services/noteStore.ts:26-31 | the first call creates and loads the manager, and later calls return the same one |
| LegacyTodoList.FilteredTodosIsOneFilter | frontend/src/components/TodoList.tsx:69-87 | the search filter followed by the tab filter is one filter by their conjunction |
| LegacyTodoList.FilteredTodosSelects | frontend/src/components/TodoList.tsx:69-87 | the shown list is a subsequence of the todos holding exactly those that match the search and the tab |
| LegacyTodoList.PatchesRefineIdMap | frontend/src/components/TodoList.tsx:90-133 | add, update and delete act on the id-to-todo map as insert, overwrite and removal |
| LegacyTodoList.TodoCache.constructor | frontend/src/components/TodoList.tsx:22-25 | the global cache starts empty and uninitialized |
| LegacyTodoList.TodoListView.constructor | frontend/src/components/TodoList.tsx:28-35 | the component's initial state |
| LegacyTodoList.TodoListView.FetchTodos | frontend/src/components/TodoList.tsx:42-62 | the server is asked iff the cache is not initialized with todos; the cache or the response fills both the list and the cache; failure sets the load error |
| LegacyTodoList.TodoListView.AddTodo | frontend/src/components/TodoList.tsx:90-101 | success appends to the list and the cache; failure sets the add error |
| LegacyTodoList.TodoListView.UpdateTodo | frontend/src/components/TodoList.tsx:103-119 | sends only while editing; success replaces by id in the list and the cache |
| LegacyTodoList.TodoListView.DeleteTodo | frontend/src/components/TodoList.tsx:121-133 | success removes the id from the list and the cache; failure sets the delete error |
| LegacyTodoList.TodoListView.ToggleComplete | frontend/src/components/TodoList.tsx:135-157 | sends iff the id is listed, the todo with the requested status; success replaces it in the list and the cache |
| LegacyTodoList.TodoListView.SetSearchTerm | frontend/src/components/TodoList.tsx:184 | sets the search term |
| LegacyTodoList.TodoListView.SetTab | frontend/src/components/TodoList.tsx:211 | sets the tab |
| LegacyNoteList.InsertKeeps | frontend/src/components/NoteList.tsx:77-79 | insertion adds exactly one note |
| LegacyNoteList.InsertNewestFirst | frontend/src/components/NoteList.tsx:77-79 | insertion keeps the list newest first |
| LegacyNoteList.SortNewestFirstCorrect | frontend/src/components/NoteList.tsx:77-79 | the sort orders by `created_at` descending and is a permutation |
| LegacyNoteList.FilteredNotesCorrect | frontend/src/components/NoteList.tsx:66-81 | the shown notes are the matching notes, newest first, each exactly as often as in the list |
| LegacyNoteList.NoteCache.constructor | frontend/src/components/NoteList.tsx:20-23 | the global cache starts empty |
| LegacyNoteList.NoteListView.constructor | frontend/src/components/NoteList.tsx:26-32 | the component's initial state |
| LegacyNoteList.NoteListView.FetchNotes | frontend/src/components/NoteList.tsx:39-59 | the cache rule as for todos |
| LegacyNoteList.NoteListView.AddNote | frontend/src/components/NoteList.tsx:85-96 | success appends to the list and the cache |
| LegacyNoteList.NoteListView.UpdateNote | frontend/src/components/NoteList.tsx:98-114 | sends only while editing; success replaces by id |
| LegacyNoteList.NoteListView.DeleteNote | frontend/src/components/NoteList.tsx:116-128 | success removes the id |
| LegacyNoteList.NoteListView.SetSearchTerm | frontend/src/components/NoteList.tsx:155 | sets the search term |
| TodayList.BodyShapesAgree | frontend/src/components/TodayList.tsx:69-93 | the same todos as a bare array or under `results` give the same list, and a body without an array gives none |
| TodayList.DatePart | frontend/src/components/TodayList.tsx:123 | `substring(0, 10)`: the first ten characters, or the whole text when shorter |
| TodayList.TodayTodos | frontend/src/components/TodayList.tsx:114-132 | a todo is shown iff it is due today |
| TodayList.DueTodayIsPrefix | frontend/src/components/TodayList.tsx:119-126 | for a `yyyy-MM-dd` date, due today iff the due date starts with it |
| TodayList.WindowTodoStore.constructor | frontend/src/components/TodayList.tsx:22-30 | the window store starts empty and uninitialized |
| TodayList.TodayListView.constructor | frontend/src/components/TodayList.tsx:33-37 | the component's initial state |
| TodayList.TodayListView.LoadTodosForToday | frontend/src/components/TodayList.tsx:52-145 | always refetches; the store holds the normalized response (empty on failure) and is initialized; the shown list is its todos due today |
| TodayList.TodayListView.ToggleComplete | frontend/src/components/TodayList.tsx:152-210 | sends iff the id is shown; success updates the shown list and either updates the store or refetches into it; failure sets the toggle error |
| LegacyTodoForm.TwoDigits | frontend/src/components/TodoForm.tsx:71-72 | `padStart(2, '0')` of a month or day gives two digits that read back as the number |
| LegacyTodoForm.ParseJoined | frontend/src/components/TodoForm.tsx:73 | a `year-month-day` text splits back into its three digit groups |
| LegacyTodoForm.FormatLocalDateRoundTrip | frontend/src/components/TodoForm.tsx:68-74 | the submitted date text reads back as the chosen local calendar date |
| LegacyTodoForm.FormatLocalDateIsIso | frontend/src/components/TodoForm.tsx:68-74 | for four-digit years it is ten characters, digits with hyphens at positions 4 and 7 |
| LegacyTodoForm.FormatMarchTenth | frontend/src/components/TodoForm.tsx:70-73 | the zero-based month is shifted: March 10, 2024 is "2024-03-10" |
| LegacyTodoForm.TodoFormState.constructor | frontend/src/components/TodoForm.tsx:35-39 | empty task, Medium, Pending, no date, no error |
| LegacyTodoForm.TodoFormState.Reset | frontend/src/components/TodoForm.tsx:41-54 | loads the edited todo's fields, or the defaults for a new one |
| LegacyTodoForm.TodoFormState.ChangeTask | frontend/src/components/TodoForm.tsx:96-99 | sets the `task` field; a non-blank value clears the error and a blank one leaves it |
| LegacyTodoForm.TodoFormState.SetPriority | frontend/src/components/TodoForm.tsx:112 | sets the priority |
| LegacyTodoForm.TodoFormState.SetStatus | frontend/src/components/TodoForm.tsx:133 | sets the status |
| LegacyTodoForm.TodoFormState.SetDueDate | frontend/src/components/TodoForm.tsx:124 | sets the date |
| LegacyTodoForm.TodoFormState.HandleSubmit | frontend/src/components/TodoForm.tsx:56-85 | nothing is submitted iff the `task` field is blank (then the error is set); otherwise the fields with the local date text |
| LegacyNoteForm.NoteFormState.constructor | frontend/src/components/NoteForm.tsx:25-26 | empty content, no error |
| LegacyNoteForm.NoteFormState.Reset | frontend/src/components/NoteForm.tsx:28-35 | the edited note's content, or empty |
| LegacyNoteForm.NoteFormState.ChangeContent | frontend/src/components/NoteForm.tsx:62-65 | sets the content; a non-blank value clears the error |
| LegacyNoteForm.NoteFormState.HandleSubmit | frontend/src/components/NoteForm.tsx:37-52 | nothing is submitted iff the content is blank (then the error is set); otherwise the content |
| FilterBar.ActiveKeys | todo_front/src/components/common/FilterBar.tsx:59-62 | exactly the keys whose value is not empty |
| FilterBar.ActiveCountIsCleanedSize | todo_front/src/components/common/FilterBar.tsx:59-62 | the badge count equals the size of the cleaned filters |
| FilterBar.BadgeShownIffSomeActive | todo_front/src/components/common/FilterBar.tsx:59-62 | the count is positive iff some filter is active |
| FilterBar.InputFor | todo_front/src/components/common/FilterBar.tsx:151 | none iff no input has that name, otherwise the first input with that name |
| FilterBar.Chips | todo_front/src/components/common/FilterBar.tsx:147-174 | a chip per active key that has an input, with that text |
| FilterBar.ChipsAtMostActive | todo_front/src/components/common/FilterBar.tsx:147-174 | there are never more chips than the badge counts |
| FilterBar.ChipDeleteDeactivates | todo_front/src/components/common/FilterBar.tsx:169 | deleting a chip (setting `''`) deactivates that key and lowers the count by one |
| TodoListPanel.Merge | todo_front/src/components/todos/TodoList.tsx:169 | `{...todo, ...patch}`: each patched field is taken from the patch, and id and creation time are kept |
| TodoListPanel.MergeLaws | todo_front/src/components/todos/TodoList.tsx:169-173 | the empty patch changes nothing, and two merges are one merge of the combined patch |
| TodoListPanel.Flipped | todo_front/src/components/todos/TodoList.tsx:193-196 | only the status changes, and it changes |
| TodoListPanel.FlippedInvolution | todo_front/src/components/todos/TodoList.tsx:193-196 | flipping twice restores the todo |
| TodoListPanel.ChipLabelCases | todo_front/src/components/todos/TodoList.tsx:221-234 | known priorities and statuses are labelled by their Korean captions, unknown values get an empty label, and other keys show `key: value` |
| TodoListPanel.ViewOf | todo_front/src/components/todos/TodoList.tsx:271-278 | loading view iff loading with no todos, then the error view iff there is an error, else the list |
| TodoListPanel.TodoListPanelState.constructor | todo_front/src/components/todos/TodoList.tsx:82-88 | all modals closed, nothing selected, no search, no filters |
| TodoListPanel.TodoListPanelState.HandleSearchChange | todo_front/src/components/todos/TodoList.tsx:91-96 | sets the query and forwards it when a callback is given |
| TodoListPanel.TodoListPanelState.HandleFilterChange | todo_front/src/components/todos/TodoList.tsx:99-104 | sets the filters and forwards them |
| TodoListPanel.TodoListPanelState.HandleRemoveFilter | todo_front/src/components/todos/TodoList.tsx:107-114 | deletes only that key and forwards the rest |
| TodoListPanel.TodoListPanelState.HandleClearFilters | todo_front/src/components/todos/TodoList.tsx:117-122 | empties the filters and forwards `{}` |
| TodoListPanel.TodoListPanelState.OpenDetailModal | todo_front/src/components/todos/TodoList.tsx:129-131 | selects and opens the detail modal |
| TodoListPanel.TodoListPanelState.CloseDetailModal | todo_front/src/components/todos/TodoList.tsx:133-136 | closes it and clears the selection |
| TodoListPanel.TodoListPanelState.OpenEditModal | todo_front/src/components/todos/TodoList.tsx:139-141 | selects and opens the edit modal |
| TodoListPanel.TodoListPanelState.OpenDeleteDialog | todo_front/src/components/todos/TodoList.tsx:149-151 | selects and opens the delete dialog |
| TodoListPanel.TodoListPanelState.HandleCreateSubmit | todo_front/src/components/todos/TodoList.tsx:159-164 | forwards and closes only when a callback is given |
| TodoListPanel.TodoListPanelState.HandleEditSubmit | todo_front/src/components/todos/TodoList.tsx:167-176 | with a selection and a callback, forwards the merged todo, closes the editor and updates an open detail view; otherwise nothing |
| TodoListPanel.TodoListPanelState.HandleConfirmDelete | todo_front/src/components/todos/TodoList.tsx:179-188 | with a selection and a callback, forwards the selected todo and closes the dialog and the detail view |
| TodoListPanel.TodoListPanelState.HandleToggleStatus | todo_front/src/components/todos/TodoList.tsx:191-204 | forwards the flipped todo and updates the open detail view of the same todo |
| PaginationView.EndItem | todo_front/src/components/common/Pagination.tsx:55 | `Math.min(currentPage * pageSize, totalItems)`: at most each of the two, and equal to one of them |
| PaginationView.ItemRangeBounds | todo_front/src/components/common/Pagination.tsx:54-55 | on a page that exists the range is non-empty, within the total, and at most a page long; on the last page it ends at the total |
| PaginationView.RangeText | todo_front/src/components/common/Pagination.tsx:72-74 | the no-data text for zero items, otherwise `start-end / 전체 total개` with the first and last item of the page |
| PaginationView.RangeWordsSplit | todo_front/src/components/common/Pagination.tsx:73 | the three digit runs of the item-count template can be read back from the text |
| PaginationView.RangeTextDeterminesRange | todo_front/src/components/common/Pagination.tsx:54-73 | on pages that hold items, equal texts report the same first item, last item and total |
| PaginationView.RangeTextExample | todo_front/src/components/common/Pagination.tsx:73 | page 2 of 25 items by 10 reads "11-20 / 전체 25개" |
| NoteListPanel.OrDefaultSettles | todo_front/src/components/notes/NoteList.tsx:138-140 | `x \|\| d` settles at once (a second fallback changes nothing) and a non-zero default never gives 0, so the page size can divide the count |
| NoteListPanel.PaginationOf | todo_front/src/components/notes/NoteList.tsx:137-147 | without data, page 1 of 1 by 10 with no items; with data, the filter page (1 when empty), the size or 10, the count, and the ceiling page count |
| NoteListPanel.PaginationDefaults | todo_front/src/components/notes/NoteList.tsx:137-147 | 25 notes with no filters give page 1 of 3, by 10 |
| NoteListPanel.NoteListPanelState.constructor | todo_front/src/components/notes/NoteList.tsx:55-60 | nothing selected, all modals closed |
| NoteListPanel.NoteListPanelState.HandleCreateNote | todo_front/src/components/notes/NoteList.tsx:74-78 | forwards the data and closes the modal |
| NoteListPanel.NoteListPanelState.OpenEditModal | todo_front/src/components/notes/NoteList.tsx:80-83 | selects and opens the editor |
| NoteListPanel.NoteListPanelState.OpenDetailModal | todo_front/src/components/notes/NoteList.tsx:98-101 | selects and opens the detail view |
| NoteListPanel.NoteListPanelState.OpenDeleteDialog | todo_front/src/components/notes/NoteList.tsx:109-112 | marks the note for deletion and opens the dialog |
| NoteListPanel.NoteListPanelState.HandleUpdateNote | todo_front/src/components/notes/NoteList.tsx:90-96 | with a selection, forwards its id with the data and closes the editor |
| NoteListPanel.NoteListPanelState.HandleConfirmDelete | todo_front/src/components/notes/NoteList.tsx:119-128 | with a note marked, forwards its id and closes the dialog and the detail view |
| NoteCard.SummaryShape | todo_front/src/components/notes/NoteCard.tsx:83-86 | content up to 150 characters is shown whole; longer content is its first 150 characters plus "..." |
| NoteCard.CardTitleNamesNote | todo_front/src/components/notes/NoteCard.tsx:110 | two cards have the same title only for the same note id |
| Sequences.FilterAppend | todo_front/src/pages/index.tsx:72-74 | filtering a concatenation filters each part |
| Sequences.CountIsPassingIndices | todo_front/src/pages/index.tsx:72-74 | `filter(p).length` is the number of positions whose element satisfies `p` |
| Dashboard.TodoStatsOf | todo_front/src/pages/index.tsx:70-75 | zeros without data; otherwise the total is the count, and completed, pending and high-priority are the numbers of the page's todos with that status or priority |
| Dashboard.CompletedPlusPendingIsPage | todo_front/src/pages/index.tsx:72-73 | completed plus pending is the page length |
| Dashboard.NoteStatsOf | todo_front/src/pages/index.tsx:78-81 | zeros without data; otherwise the count and the page length |
| Dashboard.NotePreview | todo_front/src/pages/index.tsx:247 | up to 50 characters whole, else the first 50 plus "..." |
| TodosPage.QueryOptions | todo_front/src/pages/todos/index.tsx:24-29 | search, page and `ordering = 'due_date'` override same-named filters, and every other filter key is copied |
| TodosPage.TodosPageState.constructor | todo_front/src/pages/todos/index.tsx:18-21 | page 1 by 10, no search, no filters |
| TodosPage.TodosPageState.HandlePageChange | todo_front/src/pages/todos/index.tsx:43-45 | sets only the page |
| TodosPage.TodosPageState.HandlePageSizeChange | todo_front/src/pages/todos/index.tsx:48-51 | sets the size and returns to page 1 |
| TodosPage.TodosPageState.HandleSearch | todo_front/src/pages/todos/index.tsx:54-57 | sets the search and returns to page 1 |
| TodosPage.TodosPageState.HandleFilterChange | todo_front/src/pages/todos/index.tsx:60-63 | sets the filters and returns to page 1 |
| TodosPage.HandleCreateTodo | todo_front/src/pages/todos/index.tsx:66-73 | sends the form data, and refetches iff the call succeeded |
| TodosPage.HandleUpdateTodo | todo_front/src/pages/todos/index.tsx:76-83 | sends the todo under its own id, and refetches iff success |
| TodosPage.HandleDeleteTodo | todo_front/src/pages/todos/index.tsx:86-93 | sends the id, and refetches iff success |
| TodosPage.ToggleSendsFlippedTodo | todo_front/src/pages/todos/index.tsx:96-103 | a toggle from the list panel reaches the service as an update of the same id with only the status changed |
| TodosPage.ResetQueryAsksFirstPage | todo_front/src/pages/todos/index.tsx:24-29 | after a page reset the query asks for page 1 with the current search |
| Sidebar.DashboardExclusive | todo_front/src/components/layout/Sidebar.tsx:47-52 | the dashboard entry and any longer entry are never active together |
| Sidebar.ActiveBelow | todo_front/src/components/layout/Sidebar.tsx:51 | an entry other than the dashboard stays active on every path below it |
| Sidebar.SubItemsSelectAllTodos | todo_front/src/components/layout/Sidebar.tsx:143-183 | the High or Completed item being selected implies "모든 할 일" is selected too and the todo entry is active; on '/todos' neither the dashboard nor the notes entry is active |
| Sidebar.RepeatedParameterNotSelected | todo_front/src/components/layout/Sidebar.tsx:163 | a repeated `priority` parameter is never strictly equal to 'High' |
| Sidebar.SidebarState.constructor | todo_front/src/components/layout/Sidebar.tsx:43-44 | both sections start open |
| Sidebar.SidebarState.HandleTodosToggle | todo_front/src/components/layout/Sidebar.tsx:55-57 | negates the todo section flag |
| Sidebar.SidebarState.HandleNotesToggle | todo_front/src/components/layout/Sidebar.tsx:59-61 | negates the notes section flag |
| Navbar.GetPageTitle | todo_front/src/components/layout/Navbar.tsx:39-47 | a truthy title wins; otherwise '/' gives the dashboard title, then the prefixes '/todos' and '/notes' in that order, then the app title |
| Navbar.TitleFollowsSidebar | todo_front/src/components/layout/Navbar.tsx:42-46 | without a title the bar names the section whose sidebar entry is active, and the app name when none is |
| Navbar.EmptyTitleIgnored | todo_front/src/components/layout/Navbar.tsx:40 | an empty title is falsy and counts as no title |
| ThemeHooks.FirstApplicable | todo_front/src/hooks/useTheme.ts:49-53 | the first flag-and-defined pair gives the value, otherwise the default |
| ThemeHooks.Value | todo_front/src/hooks/useTheme.ts:48-54 | a defined large-desktop option wins on a large desktop; the result is the default or an option whose flag holds |
| ThemeHooks.ValueIsFirstApplicable | todo_front/src/hooks/useTheme.ts:49-53 | the if-chain is the first-applicable rule in the order largeDesktop, desktop, tablet, mobile |
| ThemeHooks.UndefinedOptionSkipped | todo_front/src/hooks/useTheme.ts:49 | an undefined option is skipped even when its flag holds |
| ThemeHooks.NothingApplies | todo_front/src/hooks/useTheme.ts:53 | when no pair applies, the default is returned |
| ThemeHooks.EffectAsWritten | todo_front/src/hooks/useTheme.ts:10-16 | with nothing saved, the system preference is applied and saved; a saved setting leaves everything as is |
| ThemeHooks.AsWrittenIgnoresLaterChange | todo_front/src/hooks/useTheme.ts:10-16 | as written, after the system turns dark and then light, the theme stays dark |
| ThemeHooks.EffectFollowing | todo_front/src/hooks/useTheme.ts:11-15 | with nothing saved, the system preference is applied without saving it |
| ThemeHooks.FollowingTracksLatest | todo_front/src/hooks/useTheme.ts:11-15 | corrected: with nothing saved, the theme always equals the latest system preference and storage is untouched |
| ThemeHooks.SavedSettingWins | todo_front/src/hooks/useTheme.ts:12-15 | with a saved setting the system preference never changes anything |
| ThemeHooks.ThemeModeEffectAsWritten | todo_front/src/hooks/useTheme.ts:10-16 | running the effect on the store is `EffectAsWritten` |
| ThemeHooks.ThemeModeEffect | todo_front/src/hooks/useTheme.ts:11-15 | running the corrected effect on the store is `EffectFollowing` |

## Left out

- Rendering, styling, icons, routing (`router.push`), toasts (`showErrorToast`, `toast.*`), console output and the `setTimeout` auto-removal of notifications.
- Server-side rendering guards (`typeof window === 'undefined'`): the model is always in the browser. The exceptions that the `try`/`catch` around `localStorage` absorbs are not modelled.
- Insertion order of object keys: objects are maps, so the order of filter chips and of `setError` calls is not modelled.
- Floating point, NaN and Infinity: numbers are integers. `Math.ceil` is taken on exact quotients. JavaScript string length counts UTF-16 code units, but the model counts characters.
- `toLowerCase` maps only ASCII letters.
- `RemoveEmptyValues`, `ParseQueryParams` and `DetailsOf` are map comprehensions rather than the `reduce`/`forEach` folds of the source. Only `CollectDetails` and `ReportFieldErrors` keep the loop.
- Dates are instants in milliseconds, with a local calendar day number. `date-fns` formatting (`formatDate`, `formatRelativeTime`, `parseDate`, `formatToYYYYMMDD`) and `new Date(string)` parsing are parameters or are left out.
- `JSON.parse` and `JSON.stringify` are not modelled. A stored note list is a value, and `stringify` is a function parameter.
- LegacyNoteList.SortNewestFirstCorrect: `created_at` is an integer rather than a date string. The sort is proved ordered and a permutation; that it is stable is not stated.
- TodoListPanel.Merge: the patch covers task, due date, priority and status. Other `Partial<Todo>` fields cannot be patched.
- The FilterBar expand toggle and its input-change handlers only forward values, and are not modelled.
- `createFilterOptions('note')` in the note list panel is not part of this model.
- The confirm dialogs of the legacy lists, and the edit-form wiring (`handleEditTodo`, `handleSubmitForm`), are not modelled.
- TodosPage.TodosPageState.HandlePageSizeChange: the page size is kept in state, but the query of `todos/index.tsx` never includes it. So a page-size change only affects the page number that is sent. The model reproduces this.
- PaginationView.ForwardPageSize: states only that `onPageSizeChange` receives the chosen size iff the prop is given; `Number(event.target.value)` is an integer input, and what the parent does with it is in `TodosPage.TodosPageState.HandlePageSizeChange`.
- `useResponsive`: the four breakpoint flags are inputs. MUI's media queries and the theme's breakpoint widths are not modelled.
- `todo_front/src/pages/notes/index.tsx` only renders and passes props through; it is not part of this model.

## Findings

| source | as written | input that shows it | evidently intended | confidence | as-written member | corrected member |
|---|---|---|---|---|---|---|
| todo_front/src/hooks/useTheme.ts:10-16 | the effect that follows the system theme calls `setDarkMode`, which also saves 'darkMode', so only the first system preference is ever applied | nothing saved; the system reports dark, then light: the theme stays dark | while the user has saved nothing, the theme follows every change of the system preference, as the effect's comment says | medium, not executed | ThemeHooks.AsWrittenIgnoresLaterChange | ThemeHooks.FollowingTracksLatest |
| todo_front/src/store/TodoStore.ts:173 | `toggleTodoStatus(id)` calls the service's `toggleTodoStatus(id, completed)` without `completed`; the service turns the `undefined` into 'Pending', so every toggle asks for Pending | a todo whose status is Pending: the toggle asks for Pending again and the todo never becomes Completed through the store | the request carries the todo's status flipped, Completed for a pending todo and Pending for a completed one | high, not executed | MobxTodoStore.AsWrittenToggleKeepsPending | MobxTodoStore.IntendedToggleFlips |
