# AI job tracker — a Dafny model of its core

This project models the record and list logic of the AI job tracker. The
application is a React client with a single reducer-based store, plus a
Fastify backend. The backend fetches postings from a job board, scores them
against the user's resume with a language model, ranks them, and keeps each
user's resume and application history. The model covers three parts:

- **The client store** (`AppState`). It holds the state record, the eleven
  actions and the reducer. Each action's frame is a declarative table
  (`Touches`). The store class `AppStore` drives the reducer through the
  dispatch sequences of `login`, `fetchJobs`, `fetchApplications` and
  `updateApplicationStatus`.
- **The components that read or drive the store**:
  - `JobFeed`: the best-match selection, the multi-select toggle, the trimmed
    filter payloads and the resume gate.
  - `ChatBubble`: the dispatch protocol of `sendMessage`.
  - `ApplyPopup`: the "did you apply?" prompt.
  - `ApplicationsDashboard`: the job lookup with its "Unknown" fallback, and
    the per-entry listing.
  - `JobCard`: the score badge.
  - `App`: the screen gate.
  - `ViteConfig`: the `/api` rewrite of the development proxy.
- **The backend data logic** (`Server`):
  - normalising postings;
  - scoring every posting with a scorer passed in as a function;
  - the stable ranking by score;
  - the per-user store behind `/upload-resume`, `/apply` and
    `/applications/:userId`, as a class over an in-memory map.

Shared pieces:

- `Ranking` holds a generic stable descending sort. Both the client's
  best-match list and the server's ranking use it. Stability is stated this
  way: for every score, the entries with that score keep their relative
  order. `StableSortUnique` proves that this, together with the descending
  order, fixes the result.
- `JsString` holds `String.prototype.trim` and `String.prototype.includes`,
  using ECMAScript's white space and line terminators.

JavaScript objects with open-ended keys are `map<string, _>`. These are the
filters, a filter payload and the query string, so `{ ...a, ...b }` is
`a + b`. Network answers, the language model's replies and `Date.now()` are
parameters of the methods that use them.

Facts about the code that the model keeps:

- A chat payload with `clear` is merged into the filters and then reset to
  the defaults.
- The job refetches that `sendMessage` triggers send the filters from before
  the send. The `fetchJobs` it calls reads the state of the render that
  created it, not the filters the chat reply just dispatched.
- One score reply that does not parse fails the whole `/jobs` request. There
  is no per-posting fallback score.
- One posting without a company, a location or a location area also fails the
  whole `/jobs` request, because the mapping throws on it.
- `/assistant` returns the raw output of the intent graph, not
  `{ reply, filters }`, so the client's `reply` may be absent.
- The jobs the client shows are never filtered. `SET_JOBS` copies the
  payload to both lists, and the server reads only `what` and `where` from
  the query.

## Model

| member | source | states |
|---|---|---|
| AppState.Reduce | frontend/src/context/AppContext.jsx:25-50 | every action leaves all fields outside its frame-table entry unchanged |
| AppState.UpdateFiltersMerges | frontend/src/context/AppContext.jsx:33-34 | UPDATE_FILTERS is a shallow merge: the keys are the union, payload keys overwrite, every other key keeps its value |
| AppState.ClearFiltersResets | frontend/src/context/AppContext.jsx:45-46 | CLEAR_FILTERS sets the filters to the seven defaults and is idempotent |
| AppState.SetJobsCopiesPayload | frontend/src/context/AppContext.jsx:29-30 | SET_JOBS stores the payload unchanged as both jobs and filteredJobs |
| AppState.AddChatMessageAppends | frontend/src/context/AppContext.jsx:39-40 | ADD_CHAT_MESSAGE grows the transcript by one, keeps the earlier messages as a prefix and puts the message last |
| AppState.ToggleChatTwice | frontend/src/context/AppContext.jsx:37-38 | TOGGLE_CHAT flips chatOpen, and toggling twice gives back the same state |
| AppState.PopupShowHide | frontend/src/context/AppContext.jsx:41-44 | SHOW_POPUP sets the popup job; HIDE_POPUP clears it whatever it held |
| AppState.UnrecognisedIsIdentity | frontend/src/context/AppContext.jsx:47-48 | an unknown action type returns the same state |
| AppState.TranscriptOnlyGrows | frontend/src/context/AppContext.jsx:39-40 | for any sequence of actions, the old transcript is a prefix of the new one, which is longer by exactly the number of ADD_CHAT_MESSAGE actions |
| AppState.RunKeepsUntouched | frontend/src/context/AppContext.jsx:25-50 | a field outside the frame of every action in a sequence is unchanged after the whole sequence |
| AppState.JobsQuery | frontend/src/context/AppContext.jsx:80-82 | the request parameters: every filter key with its value, plus userId when there is a user, unless a filter key of that name overrides it |
| AppState.AppStore.constructor | frontend/src/context/AppContext.jsx:5-23 | the store starts at the initial state: no user, empty lists, default filters, chat closed, no popup |
| AppState.AppStore.Dispatch | frontend/src/context/AppContext.jsx:55 | dispatch replaces the state by the reducer's result and records it |
| AppState.AppStore.FetchApplications | frontend/src/context/AppContext.jsx:106-113 | a successful fetch stores the server's list; a failed one changes nothing |
| AppState.AppStore.Login | frontend/src/context/AppContext.jsx:66-75 | succeeds exactly for the test credentials, setting user { id 'user1', email } and the fetched applications; any other pair returns false and changes nothing |
| AppState.AppStore.FetchJobs | frontend/src/context/AppContext.jsx:77-88 | sends JobsQuery of the old state; loading is on in the first new state and off at the end; a failed request leaves jobs and filteredJobs as they were |
| AppState.AppStore.UpdateApplicationStatus | frontend/src/context/AppContext.jsx:124-131 | posts { userId, jobId, status } only when there is a user; the list is refreshed only after a successful post |
| Ranking.SortDesc | frontend/src/components/JobFeed.jsx:70 | a permutation, ordered by non-increasing key, in which the entries with equal keys keep their input order |
| Ranking.StableSortUnique | frontend/src/components/JobFeed.jsx:70 | two sequences that are descending and have the same entries in the same order for every key are equal, so the stable sort's result is unique |
| JsString.Trim | frontend/src/components/JobFeed.jsx:55 | the result is a contiguous slice of the input with only white space cut at both ends; it is empty exactly when the input is all white space, and its ends are not white space |
| JsString.Contains | backend/server.js:39 | true exactly when the needle occurs at some position of the text |
| JobFeed.Positive | frontend/src/components/JobFeed.jsx:69 | every kept job has a score above 0 (a missing score counts as 0) |
| JobFeed.PositiveCount | frontend/src/components/JobFeed.jsx:69 | the filter keeps every copy of each positive-score job and nothing else |
| JobFeed.PositiveOnly | frontend/src/components/JobFeed.jsx:69 | for a positive score, the jobs with that score are the same and in the same order after the filter |
| JobFeed.BestMatches | frontend/src/components/JobFeed.jsx:68-71 | at most 8 jobs, exactly min(8, number of positive-score jobs), all with positive scores, in non-increasing score order |
| JobFeed.BestMatchesFromFeed | frontend/src/components/JobFeed.jsx:68-71 | the best matches are a sub-multiset of filteredJobs |
| JobFeed.BestMatchesKeepTieOrder | frontend/src/components/JobFeed.jsx:70 | jobs with equal scores appear in their filteredJobs order (a prefix of that order) |
| JobFeed.BestMatchesTopK | frontend/src/components/JobFeed.jsx:68-71 | a positive-score job left out scores no higher than any best match |
| JobFeed.Without | frontend/src/components/JobFeed.jsx:81 | every occurrence of the value is removed and every other value keeps its count |
| JobFeed.Toggled | frontend/src/components/JobFeed.jsx:80-82 | a present value loses every occurrence; an absent one is appended at the end; other values keep their counts |
| JobFeed.ToggleTwice | frontend/src/components/JobFeed.jsx:78-83 | toggling an absent value twice gives back the list; toggling a present value twice moves it, once, to the end |
| JobFeed.CurrentList | frontend/src/components/JobFeed.jsx:79 | an absent or falsy key reads as [], a list reads as itself, and any other truthy value gives no list |
| JobFeed.Spread | frontend/src/components/JobFeed.jsx:82 | spreading a string gives one single-character string per character, in order |
| JobFeed.ToggleFilterArray | frontend/src/components/JobFeed.jsx:78-84 | dispatches only the toggled key; a string value is spread and appended to when it lacks the value and throws (nothing dispatched) when it has it; true throws |
| JobFeed.ToggleChangesOnlyKey | frontend/src/components/JobFeed.jsx:78-83 | dispatching a toggle changes only that filter key, which gains the value exactly when it lacked it, and no other store field |
| JobFeed.TrimmedPayload | frontend/src/components/JobFeed.jsx:55 | the title payload (and, with key location, the location payload of line 226) holds only its key, with the input trimmed: only white space cut from both ends, empty exactly for a blank input |
| JobFeed.SkillsPayload | frontend/src/components/JobFeed.jsx:126-130 | the skills payload is the chosen values, or [] for a cleared selection |
| JobFeed.FeedView | frontend/src/components/JobFeed.jsx:86-95 | without a resume only the upload prompt is shown, with no filters and no lists; otherwise a spinner exactly while loading, else the best matches and all of filteredJobs |
| JobCard.DisplayedScore | frontend/src/components/JobCard.jsx:7 | a missing score is shown as 0; a present one as itself |
| JobCard.BadgeFor | frontend/src/components/JobCard.jsx:8-10 | green exactly above 70, yellow exactly from 40 to 70, gray exactly below 40 |
| JobCard.CardBadge | frontend/src/components/JobCard.jsx:7-10 | the badge is chosen from the displayed score, so a missing score is gray |
| JobCard.BadgeMonotone | frontend/src/components/JobCard.jsx:8-10 | a higher score never gets a lower tier |
| JobCard.TypeLabel | frontend/src/components/JobCard.jsx:23 | the job type when present and non-empty, else 'Full-time' |
| ChatBubble.BlankIsEmptyTrim | frontend/src/components/ChatBubble.jsx:10 | the blank guard holds exactly when the trimmed message is empty |
| ChatBubble.ReplyMessage | frontend/src/components/ChatBubble.jsx:17-31 | an assistant message holding the reply on success, or the apology on any failure |
| ChatBubble.FiltersAfter | frontend/src/components/ChatBubble.jsx:19-26 | no payload keeps the filters; a payload is merged; a payload with a truthy clear ends at the defaults |
| ChatBubble.Refetches | frontend/src/components/ChatBubble.jsx:19-26 | one refetch for a payload, two when it also clears, none otherwise |
| ChatBubble.ChatBubble.constructor | frontend/src/components/ChatBubble.jsx:7 | the input starts empty |
| ChatBubble.ChatBubble.SendMessage | frontend/src/components/ChatBubble.jsx:9-34 | blank input: nothing changes; otherwise the request carries the old transcript, the user message then the reply or apology are appended, the filters follow FiltersAfter, loading is on exactly when a refetch was triggered, one query per refetch and each is the query of the state before the send, the merged state comes before the clear, no other field changes, and the input is cleared |
| ChatBubble.ChatBubble.ApplyFilters | frontend/src/components/ChatBubble.jsx:19-26 | a payload is merged and refetched, and with a truthy clear reset and refetched again; each refetch turns loading on and sends the query of the rendered state |
| ChatBubble.RefetchMissesMergedFilter | frontend/src/components/ChatBubble.jsx:20-21 | a merged payload key whose value changed is sent by the refetch with its old value or not at all |
| ApplyPopup.StatusFor | frontend/src/components/ApplyPopup.jsx:31-48 | 'Yes, Applied' records 'Applied', 'Applied Earlier' records 'Applied Earlier', 'No, just browsing' records nothing |
| ApplyPopup.PopupView | frontend/src/components/ApplyPopup.jsx:6-8 | nothing is rendered exactly when there is no popup job; otherwise its title and company |
| ApplyPopup.HandleResponse | frontend/src/components/ApplyPopup.jsx:10-22 | posts the status for the popup job and the current user; the popup is hidden whatever happened; applications change only after a successful post; nothing else changes |
| ApplyPopup.Choose | frontend/src/components/ApplyPopup.jsx:31-48 | "just browsing" only hides the popup; the other two choices post their status when there is a user and nothing without one, refresh the applications only after a successful post, and change no other field; the popup is hidden in every case |
| ApplicationsDashboard.FindJob | frontend/src/components/ApplicationsDashboard.jsx:13 | the position of the first job with the id, or none exactly when no job has it |
| ApplicationsDashboard.JobFromId | frontend/src/components/ApplicationsDashboard.jsx:11-14 | the first matching job's title and company, or 'Unknown'/'Unknown' |
| ApplicationsDashboard.View | frontend/src/components/ApplicationsDashboard.jsx:19-44 | "No applications yet." exactly for an empty list; otherwise one card per entry, in order, with that entry's job, status and timestamp |
| ApplicationsDashboard.ChangeStatus | frontend/src/components/ApplicationsDashboard.jsx:29-31 | a status change posts a new entry for that card's jobId and edits none |
| App.Render | frontend/src/App.jsx:14-30 | login exactly without a user; the upload screen exactly for a user without a resume; otherwise the main layout, on the feed exactly when the view is 'feed' |
| App.FirstScreenIsFeed | frontend/src/App.jsx:12-30 | a user with a resume starts on the job feed |
| ViteConfig.Rewrite | frontend/vite.config.js:13 | a leading '/api' is removed once; any other path is unchanged; the result is always a suffix |
| ViteConfig.RewriteUndoesPrefix | frontend/vite.config.js:13 | the proxy removes exactly the prefix the client adds |
| ViteConfig.RewriteExamples | frontend/vite.config.js:13 | '/api/jobs' to '/jobs', '/api/api/x' to '/api/x', '/apix' to 'x', '/jobs' unchanged |
| Server.ContractType | backend/server.js:38 | the contract type when truthy, else 'full_time' |
| Server.WorkMode | backend/server.js:39 | 'remote' exactly when the area includes 'remote', else 'on-site' |
| Server.Normalize | backend/server.js:32-42 | a posting exactly when the company, the location and its area are present; then every field comes from its source field, with type and mode derived as above |
| Server.RemoteExactlyWhenMarked | backend/server.js:39 | 'hybrid' is never produced; a list area is remote exactly when it has the entry 'remote', and a text area exactly when 'remote' occurs anywhere in it (both case-sensitive) |
| Server.NormalizeAll | backend/server.js:32-42 | a result exactly when every raw posting is complete; then one normalised posting per raw one, in order |
| Server.QueryOr | backend/server.js:28-29 | a query value when present and non-empty, else the fallback |
| Server.SearchTerms | backend/server.js:24-30 | the job-board search is what (default 'developer') and where (default 'india') |
| Server.OnlyWhatAndWhereMatter | backend/server.js:28-29 | query keys other than what and where do not change the search |
| Server.UserKey | backend/server.js:44 | a missing userId looks up the key 'undefined' |
| Server.MatchAll | backend/server.js:45 | a result exactly when every posting's reply parses; then one scored entry per posting, in order |
| Server.Rank | backend/server.js:46 | a permutation ordered by non-increasing score, with ties in posting order |
| Server.RankIsTheStableOrder | backend/server.js:46 | any stable descending ordering of the scored postings is the ranking |
| Server.ResumeIn | backend/server.js:44 | the stored resume, or '' for an unknown user or one without a resume |
| Server.ApplicationsIn | backend/server.js:70 | the stored list, or [] for an unknown user or one without a list |
| Server.WithResume | backend/server.js:50-54 | the user record is created if absent; only its resume is set; applications and other users are kept |
| Server.WithApplication | backend/server.js:58-66 | the entry is appended to that user's list (created if missing); the resume and other users are kept |
| Server.ApplyAppends | backend/server.js:61-63 | after an apply the user's list is the old list plus the entry; other users' lists are unchanged |
| Server.UploadKeepsHistory | backend/server.js:52-53 | an upload keeps the application history, and the new resume is the one used for scoring |
| Server.StatusHistoryKeepsBoth | backend/server.js:58-66 | two applies leave both entries in order; nothing is merged |
| Server.UserStore.Empty | backend/server.js:82-89 | a store whose data could not be loaded has no users |
| Server.UserStore.Jobs | backend/server.js:21-47 | no result if the job board fails, a posting is incomplete or any score fails; otherwise one ranked entry per posting, scored against the user's resume, in non-increasing score order |
| Server.UserStore.Applications | backend/server.js:68-71 | the user's list, or [] for an unknown user |
| Server.UserStore.UploadResume | backend/server.js:49-56 | the users become WithResume of the old users |
| Server.UserStore.Apply | backend/server.js:58-66 | an unknown user gets no entry and no change (the handler throws); otherwise { jobId, status, timestamp } is returned and appended |

## Left out

- HTTP and storage plumbing are not modelled. This covers the Fastify setup, CORS, the server start, axios, `localStorage`, and reading and writing `data.json`. The backend's users are an in-memory map, and a failed load is the empty store.
- Network answers are parameters. The job board's page, the server's application list and whether a post succeeded are passed to the methods that use them.
- The language-model scorer (backend/matching.js) is a function parameter. It returns a parsed score and explanation, or `Malformed` when `JSON.parse` would throw.
- The intent graph behind `/assistant` (backend/assistant.js) is not part of this model. The `/assistant` route only forwards its output, and the client sees that as an `AssistantOutcome`.
- The saved-user restore effect in `AppProvider` (frontend/src/context/AppContext.jsx:57-64) is not modelled. It is `localStorage` I/O followed by the same SET_USER and fetch as `login`.
- `uploadResume` (frontend/src/context/AppContext.jsx:90-104) is not modelled. It reads an undefined `text`, always lands in its catch, and changes nothing.
- The resume upload screen and the login form are not modelled, because they are I/O and form markup.
- `applyToJob` (frontend/src/context/AppContext.jsx:115-122) is not modelled: it opens a window and waits for focus. Its only store effect is SHOW_POPUP, which `AppState.PopupShowHide` covers.
- Timers and effects are not modelled: the 400 ms title debounce and the effects that refetch jobs and applications.
- Concurrency is not modelled: overlapping `fetchJobs` responses, and `fetchApplications` or `fetchJobs` calls that are not awaited. The model takes them in dispatch order.
- Server.UserStore.Apply and Server.UserStore.UploadResume take requests one at a time over one in-memory store. In the source, each handler loads data.json, changes its copy and saves it (backend/server.js:51-54 and 60-64). Two overlapping requests can therefore lose one another's writes: an `/apply` entry already returned to its client can vanish. A load that fails mid-life yields `{ users: {} }` (backend/server.js:86-88), and the `/upload-resume` that follows saves a store holding only its own user, dropping every other one. `Server.ApplyAppends` and `Server.StatusHistoryKeepsBoth` hold only for requests that do not overlap and loads that succeed.
- The datePosted and matchScore selects are not modelled. They dispatch the option value unchanged as a one-key UPDATE_FILTERS, and `AppState.UpdateFiltersMerges` covers that merge.
- ChatBubble.ChatBubble.SendMessage runs only the synchronous start of each `fetchJobs` call: SET_LOADING(true) and the query it sends. The rest of each call lands after `sendMessage` has returned. It behaves as `AppState.AppStore.FetchJobs`, except that the query sent is the stale one returned here.
- Server.MatchAll: a scorer reply that parses but has no numeric `score` is not modelled. backend/matching.js:20 passes it through with `score` undefined, and the comparator at backend/server.js:46 then returns NaN. That makes the comparator inconsistent, so the sort order is implementation-defined. `ScoreReply` holds either an integer score or `Malformed`.
- Server.Normalize: a `company` or `location` object without its `display_name` is not modelled; the field would be undefined rather than a throw.
- JobCard.DisplayedScore: scores are integers, so `Math.round` is the identity. Fractional scores are floating point and not modelled.
- Server.UserStore.Jobs: the stable ranking of the result is stated by `Server.Rank` and `Server.RankIsTheStableOrder`. This member itself promises only the count, the multiset and the descending order.
- Dates are not modelled: the `posted` date is passed through as text, and the dashboard's timestamp formatting is left out.
- All JSX markup, CSS classes and react-select widgets are left out.
