# Doolt front end, modelled in Dafny

Doolt is a personal organiser written as a React single-page application.
It has a calendar, tasks, goals, notes, a profile, a settings page, a login
and registration flow, and a dashboard with small widgets. Everything that
can be stated about it happens in the page components. Their state cells
hold the lists, and their handlers replace those lists or write to the
browser's `localStorage`. This project models those components.

Each page with state cells becomes a `class`:
- its fields are the state cells;
- its methods are the handlers, and each method states the whole new state;
- the new lists the handlers compute are functions over sequences;
- lemmas beside those functions state what the page promises: nothing else changes, toggling twice is the identity, the search shows exactly the matching entries, and so on.

Shared modules:
- `Seqs`: filter, stable sort by an integer key, take, and map/remove by id.
- `Text`: JavaScript's `trim`, `split`, `join` and `includes`, and the comma-separated list parser.
- `Dates`: day numbers since 1970-01-01, the Gregorian calendar, and the ISO `YYYY-MM-DD` text.
- `Storage`: `localStorage` as a map from keys to strings.

Modelling conventions:
- Instants are integer milliseconds in UTC. The clock (`now`) and generated ids are parameters.
- `JSON.parse` and `JSON.stringify` are function parameters, and a parse error is `None`. The one exception is the settings export, which keeps each stored list as its text (see "## Left out").

Two storage-key mismatches between pages are proved as lemmas:
- `Settings.RegistrationNotSeen`: the app stores the registered user under `userData`, but the settings page reads `user_data`.
- `Settings.ExportMissesAppNotes`: the notes page keeps its notes under `appNotes`, but export and clear use `notes`.

`Calendar.UpcomingCutoff` states that the calendar's upcoming list drops an event dated today unless `now` is exactly midnight UTC.

## Model

| member | source | states |
|---|---|---|
| Calendar.GetDaysInMonth | frontend/src/components/calendar-page.tsx:117-134 | the loop yields 42 consecutive days starting on the Sunday on or before the first of the month, and every day of that month is among them |
| Calendar.MonthGridUnique | frontend/src/components/calendar-page.tsx:120-123 | only one sequence fits that description: the start Sunday is unique |
| Calendar.GridPlacesMonth | frontend/src/components/calendar-page.tsx:120-131 | the first of the month sits at the index equal to its weekday, and the last day of the month at an index of at most 36 |
| Calendar.CurrentMonthTestIsExact | frontend/src/components/calendar-page.tsx:461 | comparing only the month of a grid cell with the displayed month is exact, because a 42-day grid cannot reach the same month of another year |
| Calendar.TodayTestIsExact | frontend/src/components/calendar-page.tsx:462 | two days format to the same ISO text exactly when they are the same day (four-digit years) |
| Calendar.EventsForDateExact | frontend/src/components/calendar-page.tsx:140-142 | the lookup returns exactly the events whose date text equals the key |
| Calendar.TodayEventsExact | frontend/src/components/calendar-page.tsx:223 | today's events are exactly those dated with today's ISO text |
| Calendar.UpcomingFacts | frontend/src/components/calendar-page.tsx:218-221 | upcoming holds 5 events, or every qualifying event when fewer qualify; each is stored and starts at or after now; they are in date order, with ties in store order |
| Calendar.UpcomingKeepsEarliest | frontend/src/components/calendar-page.tsx:218-221 | no qualifying event is left out while a later-dated one is shown |
| Calendar.UpcomingCutoff | frontend/src/components/calendar-page.tsx:219 | an event dated today counts as upcoming only when now is exactly that day's midnight |
| Calendar.MonthTotalCountsMonthDays | frontend/src/components/calendar-page.tsx:395-400 | the month total counts exactly the events whose parsed date lies in the displayed month and year, and is at most the number of events |
| Calendar.SavedEventsFacts | frontend/src/components/calendar-page.tsx:150-197 | an edit turns each matching event, in place, into the event the form creates (parsed attendees included) under its old id; a create appends exactly that new event; other events are unchanged |
| Calendar.EditThenSave | frontend/src/components/calendar-page.tsx:199-212 | opening and saving an event untouched returns it, except that absent description, location and attendees become "", "" and [] (attendees round-trip when they are list items) |
| Calendar.CalendarPage.constructor | frontend/src/components/calendar-page.tsx:35-100 | the page opens on now's month with the sample events, an empty form and no selection |
| Calendar.CalendarPage.NavigateMonth | frontend/src/components/calendar-page.tsx:144-148 | the displayed instant moves by one month with `setMonth` semantics; nothing else changes |
| Calendar.CalendarPage.GoToToday | frontend/src/components/calendar-page.tsx:432 | the displayed instant becomes now |
| Calendar.CalendarPage.SelectDate | frontend/src/components/calendar-page.tsx:474 | the selected date becomes the cell's key |
| Calendar.CalendarPage.OpenNew | frontend/src/components/calendar-page.tsx:237-251 | "Novo Evento" opens a blank form dated the selected day, or today |
| Calendar.CalendarPage.CloseDialog | frontend/src/components/calendar-page.tsx:349 | "Cancelar" closes the dialog and changes nothing else |
| Calendar.CalendarPage.SetForm | frontend/src/components/calendar-page.tsx:266-343 | typing changes only the form |
| Calendar.CalendarPage.SaveEvent | frontend/src/components/calendar-page.tsx:150-197 | without a non-blank title, a date, a start and an end time nothing changes; otherwise the events become the saved list and the dialog closes and resets |
| Calendar.CalendarPage.EditEvent | frontend/src/components/calendar-page.tsx:199-212 | the dialog opens on the event's form |
| Calendar.CalendarPage.DeleteEvent | frontend/src/components/calendar-page.tsx:214-216 | exactly the events with that id are removed, the rest keep their order |
| Dates.DaysInMonth | frontend/src/components/calendar-page.tsx:121 | months have 28 to 31 days, and 29 exactly for February of a leap year |
| Dates.CivilOfDayNumber | frontend/src/components/calendar-page.tsx:120 | the calendar date of a valid date's day number is that date |
| Dates.WeekdayNext | frontend/src/components/calendar-page.tsx:123 | each day's weekday follows the previous day's, Saturday wrapping to Sunday |
| Dates.FormatParseRoundTrip | frontend/src/components/calendar-page.tsx:136-138 | reading back the ISO text of a day with a four-digit year gives that day |
| Dates.ParseFormatRoundTrip | frontend/src/components/calendar-page.tsx:219 | a `YYYY-MM-DD` text that reads as a valid date prints back as itself |
| Dates.IsoOrderIsChronological | frontend/src/components/mini-calendar.jsx:23 | for valid `YYYY-MM-DD` texts, string order is the order of the days |
| Dates.AddMonthsLands | frontend/src/components/calendar-page.tsx:146 | moving by whole months keeps the time of day and the day of the month, or overflows into the month after when the target month is shorter |
| Seqs.SortByKeyFacts | frontend/src/components/quick-notes.jsx:18-19 | the sort used for `Array.prototype.sort` with a numeric comparator is sorted, a permutation, and stable: equal keys keep their input order |
| Seqs.RemoveByKeyFacts | frontend/src/components/tasks-page.tsx:97-99 | removing by id drops exactly the entries with that id, and an absent id leaves the list as it was |
| Dates.DayNumberOrder | frontend/src/components/mini-calendar.jsx:23 | one valid date is before another exactly when its day number is smaller |
| Text.TrimFacts | frontend/src/components/calendar-page.tsx:153 | `trim` leaves no white space at either end, and gives "" exactly for a string of white space |
| Text.JoinSplit | frontend/src/components/notes-page.tsx:170 | joining the pieces of `split(c)` with `c` gives the string back |
| Text.SplitJoin | frontend/src/components/profile-page.tsx:148 | splitting the `c`-join of pieces free of `c` gives the pieces back |
| Text.ParseCommaList | frontend/src/components/calendar-page.tsx:151-154 | the parsed items are non-empty, trimmed and free of commas |
| Text.ParseCommaListMeaning | frontend/src/components/notes-page.tsx:170-172 | a non-empty text is split at the commas, each piece is trimmed, and the non-empty ones are kept in order; an item is exactly the trimmed form of some non-blank piece; an empty text gives no items |
| Text.ParseJoinRoundTrip | frontend/src/components/notes-page.tsx:170-172 | parsing the ", " join of non-empty, trimmed, comma-free items gives the items back |
| Text.BlankIsTrimmedEmpty | frontend/src/components/tasks-page.tsx:114 | `!s.trim()` holds exactly for strings of white space |
| Goals.CalculateProgress | frontend/src/components/goals-page.tsx:160-162 | progress is NaN for 0/0 and minus infinity for x/0 with x < 0, finite otherwise (x/0 with x > 0 is capped at 100); finite progress is at most 100; with a positive target it is 100 once the target is reached, and below 100 before |
| Goals.ProgressMonotone | frontend/src/components/goals-page.tsx:160-162 | with a positive target, more progress never shows as less |
| Goals.NextStatus | frontend/src/components/goals-page.tsx:248-263 | the toggle never yields completed, and yields paused exactly from active |
| Goals.ToggleStatusFacts | frontend/src/components/goals-page.tsx:248-263 | only matching goals change, and only their status: active to paused, paused and completed to active |
| Goals.UpdateProgressFacts | frontend/src/components/goals-page.tsx:234-242 | matching goals take the new value and become completed exactly when it reaches the target; otherwise their status stays; every other field of theirs is kept; other goals are unchanged |
| Goals.SavedGoalsFacts | frontend/src/components/goals-page.tsx:172-217 | an edit turns each matching goal into the goal the form creates, keeping its id, status and createdAt; a create appends exactly the new goal, active and dated today, whatever its values; other goals are unchanged |
| Goals.EditThenSave | frontend/src/components/goals-page.tsx:219-232 | opening and saving a goal untouched returns it, with an absent description turned into "" |
| Goals.FilteredGoalsFacts | frontend/src/components/goals-page.tsx:265-272 | the view shows exactly the goals passing the status, category and search tests, and everything with every filter off |
| Goals.SearchIsCaseBlind | frontend/src/components/goals-page.tsx:268-270 | a query found in the title matches whatever its letter case |
| Goals.StatusCounts | frontend/src/components/goals-page.tsx:274-277 | active + completed + paused = total, so active + completed <= total |
| Goals.GoalsPage.constructor | frontend/src/components/goals-page.tsx:42-125 | the page starts on the given goals with an empty form and every filter off |
| Goals.GoalsPage.SetFilters | frontend/src/components/goals-page.tsx:362-382 | the search box and the selects change only the filters |
| Goals.GoalsPage.OpenNew | frontend/src/components/goals-page.tsx:397-409 | "Nova Meta" opens the dialog on an empty form with no goal being edited; the goals and filters stay |
| Goals.GoalsPage.OpenDialog | frontend/src/components/goals-page.tsx:661-664 | "Criar Meta" only opens the dialog: the form and the goal being edited stay as they were |
| Goals.GoalsPage.CloseDialog | frontend/src/components/goals-page.tsx:518 | "Cancelar" closes the dialog and changes nothing else |
| Goals.GoalsPage.SetForm | frontend/src/components/goals-page.tsx:429-513 | typing changes only the form |
| Goals.GoalsPage.SaveGoal | frontend/src/components/goals-page.tsx:172-217 | without a non-blank title, a non-blank unit and a deadline nothing changes; otherwise the goals become the saved list and the dialog resets |
| Goals.GoalsPage.EditGoal | frontend/src/components/goals-page.tsx:219-232 | the dialog opens on the goal's form |
| Goals.GoalsPage.UpdateGoalProgress | frontend/src/components/goals-page.tsx:234-242 | the goals become the updated list |
| Goals.GoalsPage.DeleteGoal | frontend/src/components/goals-page.tsx:244-246 | exactly the goals with that id are removed |
| Goals.GoalsPage.ToggleGoalStatus | frontend/src/components/goals-page.tsx:248-263 | the goals become the toggled list |
| Tasks.ToggleTaskFacts | frontend/src/components/tasks-page.tsx:91-95 | only matching tasks change, and only their completion flag; toggling twice restores the list |
| Tasks.SavedTasksFacts | frontend/src/components/tasks-page.tsx:113-152 | an edit turns each matching task into the task the form creates, keeping its id, completion and createdAt; a create appends exactly the new task, open and dated today; other tasks are unchanged |
| Tasks.EditThenSave | frontend/src/components/tasks-page.tsx:101-111 | opening and saving a task untouched returns it, with absent description and due date turned into "" |
| Tasks.FilteredTasksFacts | frontend/src/components/tasks-page.tsx:174-185 | the view shows exactly the tasks passing all three tests; 'pending' shows exactly the open tasks and 'completed' exactly the done ones |
| Tasks.StatsFacts | frontend/src/components/tasks-page.tsx:187-192 | pending + completed = total, and high priority <= pending |
| Tasks.TasksPage.constructor | frontend/src/components/tasks-page.tsx:25-87 | the page starts on the given tasks with an empty form and every filter off |
| Tasks.TasksPage.SetFilters | frontend/src/components/tasks-page.tsx:273-292 | the search box and the selects change only the filters |
| Tasks.TasksPage.OpenNew | frontend/src/components/tasks-page.tsx:307-316 | "Nova Tarefa" opens the dialog on an empty form with no task being edited; the tasks and filters stay |
| Tasks.TasksPage.CloseDialog | frontend/src/components/tasks-page.tsx:393 | "Cancelar" closes the dialog and changes nothing else |
| Tasks.TasksPage.SetForm | frontend/src/components/tasks-page.tsx:336-388 | typing changes only the form |
| Tasks.TasksPage.ToggleTaskById | frontend/src/components/tasks-page.tsx:91-95 | the tasks become the toggled list |
| Tasks.TasksPage.DeleteTask | frontend/src/components/tasks-page.tsx:97-99 | exactly the tasks with that id are removed |
| Tasks.TasksPage.EditTask | frontend/src/components/tasks-page.tsx:101-111 | the dialog opens on the task's form |
| Tasks.TasksPage.SaveTask | frontend/src/components/tasks-page.tsx:113-152 | with a blank title nothing changes; otherwise the tasks become the saved list and the dialog resets |
| Notes.ToInt32 | frontend/src/components/notes-page.tsx:146-148 | the wrapped value is a signed 32-bit integer congruent to the input modulo 2^32, and equal to it when it fits |
| Notes.TagColorIndex | frontend/src/components/notes-page.tsx:134-151 | every tag gets one of the eight palette entries, the empty tag the first |
| Notes.GetTagColor | frontend/src/components/notes-page.tsx:134-151 | the hashing loop computes the tag's palette index |
| Notes.HashBound | frontend/src/components/notes-page.tsx:146-148 | the hash grows by at most 2^31 plus a character code per character, so it stays exact in doubles |
| Notes.FormatNoteDateFacts | frontend/src/components/notes-page.tsx:153-166 | "Hoje" exactly for a text naming today, "Ontem" exactly for one naming yesterday |
| Notes.ToggleFavoriteFacts | frontend/src/components/notes-page.tsx:226-230 | only matching notes change, and only their favourite flag; toggling twice restores the list |
| Notes.SavedNotesFacts | frontend/src/components/notes-page.tsx:168-209 | an edit turns each matching note into the note the form creates today (title, content, parsed tags, colour), keeping its id, favourite flag and createdAt; a create appends exactly the new note, not a favourite, created and updated today |
| Notes.EditThenSave | frontend/src/components/notes-page.tsx:211-220 | opening and saving a note untouched keeps its tags and only moves its update date |
| Notes.FilteredNotesFacts | frontend/src/components/notes-page.tsx:232-240 | the view shows exactly the matching notes, a note is found through any one tag, and 'all' with an empty query shows everything |
| Notes.TagsOfMembership | frontend/src/components/notes-page.tsx:243-246 | a tag is collected exactly when some note carries it |
| Notes.AllTags | frontend/src/components/notes-page.tsx:243-246 | the loop collects the set of tags of all notes |
| Notes.StatsFacts | frontend/src/components/notes-page.tsx:248-258 | favourites and recent notes are at most the total; without tags the tag count is 0 |
| Notes.TagBadges | frontend/src/components/notes-page.tsx:505-513 | the first `limit` tags are shown, or all when there are fewer, and "+n" with n = number of tags minus `limit` exactly when there are more |
| Notes.NotesPage.constructor | frontend/src/components/notes-page.tsx:107-121 | mounting loads the stored notes when "appNotes" holds text that parses, otherwise keeps the sample, then writes the notes back |
| Notes.NotesPage.SetFilters | frontend/src/components/notes-page.tsx:429-436 | the search box and the select change only the filters |
| Notes.NotesPage.OpenNew | frontend/src/components/notes-page.tsx:273-281 | "Nova Nota" opens the dialog on an empty form with no note being edited; the notes, storage and filters stay |
| Notes.NotesPage.OpenDialog | frontend/src/components/notes-page.tsx:481-484 | "Criar Nota" only opens the dialog: the form and the note being edited stay as they were |
| Notes.NotesPage.CloseDialog | frontend/src/components/notes-page.tsx:348 | "Cancelar" closes the dialog and changes nothing else |
| Notes.NotesPage.SetForm | frontend/src/components/notes-page.tsx:301-342 | typing changes only the form |
| Notes.NotesPage.SaveNote | frontend/src/components/notes-page.tsx:168-209 | without a non-blank title and non-blank content nothing changes; otherwise the notes become the saved list, are written to "appNotes", and the dialog resets |
| Notes.NotesPage.EditNote | frontend/src/components/notes-page.tsx:211-220 | the dialog opens on the note's form |
| Notes.NotesPage.DeleteNote | frontend/src/components/notes-page.tsx:222-224 | exactly the notes with that id are removed, and the list is written back |
| Notes.NotesPage.ToggleFavoriteById | frontend/src/components/notes-page.tsx:226-230 | the notes become the toggled list, and the list is written back |
| MiniCalendar.ListsFacts | frontend/src/components/mini-calendar.jsx:19-23 | today's list is exactly the events dated today; upcoming is the first 3 events dated after today, in list order, or all of them when fewer; no event is in both |
| MiniCalendar.UpcomingIsChronological | frontend/src/components/mini-calendar.jsx:23 | an event is upcoming exactly when its day is after today |
| MiniCalendar.EventTypeColor | frontend/src/components/mini-calendar.jsx:25-32 | gray exactly for a type other than meeting, personal and deadline |
| MiniCalendar.TypeLabel | frontend/src/components/mini-calendar.jsx:79-80 | "Reunião" for meeting, "Pessoal" for personal, "Prazo" for anything else |
| TaskList.PartitionFacts | frontend/src/components/task-list.jsx:31-32 | the pending and completed sections are disjoint, cover the list, and their sizes add up to its length |
| TaskList.ToggleMoves | frontend/src/components/task-list.jsx:16-20 | toggling flips only the matching tasks, which move to the other section |
| TaskList.PriorityColor | frontend/src/components/task-list.jsx:22-29 | gray exactly for a priority other than high, medium and low |
| TaskList.PriorityLabel | frontend/src/components/task-list.jsx:61 | "Baixa" exactly for a priority other than high and medium |
| TaskList.TaskListWidget.constructor | frontend/src/components/task-list.jsx:8-14 | the widget starts on the sample tasks |
| TaskList.TaskListWidget.ToggleTaskById | frontend/src/components/task-list.jsx:16-20 | the tasks become the toggled list |
| QuickNotes.RecentFacts | frontend/src/components/quick-notes.jsx:18-20 | 5 stored notes are shown, or all when fewer, newest update day first, ties in stored order |
| QuickNotes.RecentKeepsNewest | frontend/src/components/quick-notes.jsx:18-20 | no stored note updated later than a shown note is left out |
| QuickNotes.LoadedFacts | frontend/src/components/quick-notes.jsx:12-29 | the widget shows 5 of the parsed notes, or all of them when fewer; none when the value under "appNotes" is absent, empty or does not parse |
| QuickNotes.QuickNotesWidget.constructor | frontend/src/components/quick-notes.jsx:8 | the widget starts with no notes |
| QuickNotes.QuickNotesWidget.LoadNotes | frontend/src/components/quick-notes.jsx:12-29 | the notes become the recent selection of the stored notes, or nothing when the value is absent, empty or does not parse |
| QuickNotes.DateLabelFacts | frontend/src/components/quick-notes.jsx:68-81 | a card reads "Hoje" exactly for a note updated today and "Ontem" exactly for one updated yesterday |
| QuickNotes.ColorClasses | frontend/src/components/quick-notes.jsx:83-95 | a palette colour keeps its own style, and any other colour gets blue's |
| QuickNotes.TagBadges | frontend/src/components/quick-notes.jsx:123-136 | no badges without tags; otherwise the first two tags with their palette index, and "+n" for the rest exactly when there are more than two |
| Profile.AgeCountsBirthdays | frontend/src/components/profile-page.tsx:90-99 | the age is at least k exactly when the k-th birthday is not after today |
| Profile.AgeBounds | frontend/src/components/profile-page.tsx:93-97 | the age is the year difference or one less, the year difference on the birthday itself, and one less before the birthday |
| Profile.CalculateAge | frontend/src/components/profile-page.tsx:90-99 | the decrementing computation yields the age of the parsed birth date on now's day, and nothing for a date that does not parse |
| Profile.FirstChars | frontend/src/components/profile-page.tsx:148 | one character per non-empty piece: its first |
| Profile.InitialsOfWords | frontend/src/components/profile-page.tsx:148 | a name of words joined by single spaces gives each word's first character, in order |
| Profile.ProfilePage.constructor | frontend/src/components/profile-page.tsx:44-60 | the editor copy starts as the profile, closed |
| Profile.ProfilePage.OpenEditor | frontend/src/components/profile-page.tsx:130-135 | "Editar" copies the profile into the editor and opens it |
| Profile.ProfilePage.SetEditProfile | frontend/src/components/profile-page.tsx:265-323 | editing changes only the editor copy |
| Profile.ProfilePage.CloseEditor | frontend/src/components/profile-page.tsx:329 | "Cancelar" closes the editor and keeps the profile |
| Profile.ProfilePage.SaveProfile | frontend/src/components/profile-page.tsx:83-86 | the profile becomes the editor copy and the editor closes |
| Register.Step1ErrorFacts | frontend/src/components/register-page.tsx:68-90 | no error exactly when all four checks pass; each message appears only when the checks before it pass and its own fails |
| Register.GetInitials | frontend/src/components/register-page.tsx:113-119 | the initials are at most two characters |
| Register.InitialsOfFullName | frontend/src/components/register-page.tsx:113-119 | a name of two or more words gives the first letters of the first and last words, upper-cased |
| Register.InitialsOfOneWord | frontend/src/components/register-page.tsx:113-119 | a name whose trimmed text is one word gives the first two characters of the name as typed, untrimmed, upper-cased |
| Register.InitialsOfPaddedWord | frontend/src/components/register-page.tsx:113-119 | a single word typed after a space gives the space and the word's upper-cased first letter |
| Register.RegisterPage.constructor | frontend/src/components/register-page.tsx:42-62 | the form starts at step 1 with the initial data and no error |
| Register.RegisterPage.UpdateForm | frontend/src/components/register-page.tsx:64-66 | a field update changes only the form data |
| Register.RegisterPage.SetConfirmPassword | frontend/src/components/register-page.tsx:236 | typing the confirmation changes only it |
| Register.RegisterPage.ValidateStep1 | frontend/src/components/register-page.tsx:68-90 | the checks pass exactly when there is no step-1 error; a failure stores the first failing check's message |
| Register.RegisterPage.Step1Submit | frontend/src/components/register-page.tsx:92-99 | step 2 with a cleared error when validation passes; step 1 with the message otherwise |
| Register.RegisterPage.Back | frontend/src/components/register-page.tsx:147-152 | back to step 1 without resetting the form |
| Register.RegisterPage.FinalSubmit | frontend/src/components/register-page.tsx:101-106 | loading starts and the form data is the pending registration |
| Register.RegisterPage.FinishRegistration | frontend/src/components/register-page.tsx:107-110 | the timer hands the pending form data, unchanged, to the registration callback |
| Login.LoginErrorFacts | frontend/src/components/login-page.tsx:27-43 | each message exactly when the checks before it pass and its own fails; no error exactly when all three pass |
| Login.DemoCredentialsPass | frontend/src/components/login-page.tsx:53-63 | the demo credentials would pass every check |
| Login.LoginPage.constructor | frontend/src/components/login-page.tsx:15-19 | empty fields, no error, not loading |
| Login.LoginPage.SetEmail | frontend/src/components/login-page.tsx:99 | typing changes only the email |
| Login.LoginPage.SetPassword | frontend/src/components/login-page.tsx:116 | typing changes only the password |
| Login.LoginPage.Submit | frontend/src/components/login-page.tsx:21-50 | a failing check stores its message and stops loading; passing checks clear the error and arm the timer |
| Login.LoginPage.DemoLogin | frontend/src/components/login-page.tsx:53-63 | the demo credentials are filled in and the timer armed, with no validation |
| Login.LoginPage.FireTimer | frontend/src/components/login-page.tsx:46-49 | the timer stops loading and logs in |
| Login.SubmitThenWait | frontend/src/components/login-page.tsx:21-50 | a submission followed by the timer logs in exactly when the credentials pass the checks |
| App.StoreRoundTrips | frontend/src/App.tsx:34-90 | after login or registration the stored flag reads authenticated, after logout it does not; a stored theme reads back; each handler touches only its own keys |
| App.Render | frontend/src/App.tsx:93-108 | unauthenticated, only the register screen (register view) or the login screen shows; authenticated, the current page |
| App.AppShell.constructor | frontend/src/App.tsx:33-67 | authentication and dark mode are read from storage, the user from "userData", and the theme effect runs |
| App.AppShell.ApplyTheme | frontend/src/App.tsx:58-67 | the stored theme matches dark mode |
| App.AppShell.ToggleTheme | frontend/src/App.tsx:69-71 | dark mode flips and the stored theme follows |
| App.AppShell.HandleLogin | frontend/src/App.tsx:73-76 | authenticated, with the flag stored |
| App.AppShell.HandleRegister | frontend/src/App.tsx:78-83 | authenticated with the new user, and both keys stored |
| App.AppShell.HandleLogout | frontend/src/App.tsx:85-90 | the flag is removed, the page resets to the dashboard and the view to login; the user is kept |
| App.AppShell.SetAuthView | frontend/src/App.tsx:98-105 | switching between login and registration changes only the view |
| App.AppShell.Navigate | frontend/src/App.tsx:186-264 | the navigation changes only the page |
| Settings.Get | frontend/src/components/settings-page.tsx:38-66 | every key reads a value of its own type |
| Settings.SetChangesOneKey | frontend/src/components/settings-page.tsx:111-114 | setting a key changes that key to the value and no other key; setting a key to its own value changes nothing |
| Settings.LoadedFacts | frontend/src/components/settings-page.tsx:92-109 | with nothing stored the defaults stand; saved settings supply every other setting; username and email follow the stored user |
| Settings.RegistrationNotSeen | frontend/src/components/settings-page.tsx:98-104 | a registration's "userData" write never reaches the account fields, which read "user_data" |
| Settings.ListOrEmpty | frontend/src/components/settings-page.tsx:125-128 | the stored list text, or "[]" when the key is absent or empty |
| Settings.ExportBundle | frontend/src/components/settings-page.tsx:123-129 | the bundle holds the settings in use and the four stored lists |
| Settings.ExportMissesAppNotes | frontend/src/components/settings-page.tsx:123-129 | writing "appNotes" does not change the bundle |
| Settings.KeysDistinct | frontend/src/components/settings-page.tsx:148-160 | the five keys a backup touches are different keys |
| Settings.PutGet | frontend/src/components/settings-page.tsx:148-160 | a conditional write changes its key only when the section is present |
| Settings.SettingsPage.constructor | frontend/src/components/settings-page.tsx:70-109 | mounting shows the loaded settings with no changes |
| Settings.SettingsPage.UpdateSetting | frontend/src/components/settings-page.tsx:111-114 | the settings become the one-key update, with the changes flag set |
| Settings.SettingsPage.SaveSettings | frontend/src/components/settings-page.tsx:116-120 | the settings are stored under "app_settings" and the changes flag clears |
| Settings.SettingsPage.ExportData | frontend/src/components/settings-page.tsx:122-140 | the exported file is the bundle, and nothing changes |
| Settings.SettingsPage.ImportData | frontend/src/components/settings-page.tsx:142-163 | a parse failure changes nothing; otherwise each present section is stored under its key and every other key keeps its value |
| Settings.SettingsPage.ClearAllData | frontend/src/components/settings-page.tsx:165-171 | the storage loses exactly the four list keys |
| Settings.ClearKeepsOthers | frontend/src/components/settings-page.tsx:165-171 | clearing removes "tasks", "notes", "goals" and "events" and keeps every other key, including "app_settings" and "appNotes" |

## Left out

- The Spring back end: its controllers and services delegate to Spring Data repositories whose behaviour is not visible here.
- The dashboard charts and statistics cards: they hold only hard-coded display data.
- Rendering, CSS classes, dialogs and toasts. Colours are modelled as tone names or palette indices, not class strings.
- Timers and listeners: the `setTimeout` of login and registration, and the quick-notes `setInterval` and `storage` listener. Only the callbacks' effects are modelled (`Login.LoginPage.FireTimer`, `Register.RegisterPage.FinishRegistration`, `QuickNotes.QuickNotesWidget.LoadNotes`).
- Floating-point output: the goals' `averageProgress`, `getDaysUntilDeadline`, `toFixed` and the profile's completion rate. Goal values are `real`, which is exact; a NaN progress (0/0) is a separate case of `Goals.CalculateProgress`.
- The clock and the time zone: instants are UTC milliseconds, the local offset is taken as 0, and `now` is a parameter. The local getters of `getDaysInMonth` and `calculateAge` are read as UTC getters.
- Dates outside years 0 to 9999 when written, and any date text other than a strict `YYYY-MM-DD` when read, or an impossible day written in that form (such as "2024-02-30"), which engines either roll over or reject. `new Date(s)` accepts more formats; any other text is modelled as an invalid date.
- `toLocaleDateString('pt-BR')` and the mini calendar's and profile's `formatDate`: the label is the parsed day, not its rendering.
- Case mapping covers ASCII letters only. JavaScript's full Unicode `toLowerCase`/`toUpperCase` is not modelled.
- `charCodeAt` reads UTF-16 code units; the model's characters are code points, so tags with characters outside the Basic Multilingual Plane hash differently.
- JSON: `JSON.parse` and `JSON.stringify` are parameters of the members that use them. A parse error is `None`.
- Settings.ExportBundle: the bundle keeps each stored list as its text. The source runs `JSON.parse` on each list without a `try`, so a stored list under "tasks", "notes", "goals" or "events" that is not valid JSON makes `exportData` throw, and no file is produced. The model always produces the bundle.
- App.AppShell.constructor: a `userData` value that does not parse makes `JSON.parse` throw during the first render. The model represents that case as no user.
- Settings.LoadedFacts: a saved settings object missing some fields is taken whole, as a complete record; the spread of a partial object is not modelled.
- Settings.SettingsPage.constructor: a value under "app_settings" or "user_data" that does not parse makes the mount effect's `JSON.parse` throw and the page fail. The model instead keeps the defaults, or the loaded settings for the account fields.
- Settings.SettingsPage.UpdateSetting: requires the value to have the key's type, although the source accepts `any`.
- QuickNotes.RecentFacts: a note whose `updatedAt` does not parse sorts as day 0 (1970-01-01). In the source its key is NaN, and the comparator's order then depends on the engine's sort.
- `getColorClasses` would also map the names of `Object.prototype` members (such as "toString") to a function value; the model treats every name outside the palette as unknown.
- Generated ids (`Date.now().toString()`) are parameters, so they need not be unique, as in the source.
- The sample data each page starts with is a constructor parameter.
- The profile's mock statistics and achievements, and the register page's step-2 preference fields beyond the form data.
