# Interview-question client, modelled in Dafny

This project models the core of a React single-page client for an
interview-question bank. Signed-in users browse categories, the topics of a
category, and questions. Admins in "admin mode" create, rename, delete and
(super admins only) verify categories and topics. The client keeps one Redux
store with five slices (categories, topics, questions, user, theme) and talks
to a REST backend through small API functions.

The model is written in the source's own forms:

- **Store slices.** Each slice reducer is a pure `Reduce` function with laws
  about it. `AppStore.Store` is a class with one field per slice. Its
  `Dispatch*` methods change exactly one slice.
- **API functions.** Each becomes a request builder (verb, path, query, body)
  with exact key-by-key contracts. `Api.Settle` states the `{data, error}`
  envelope rule. Every page and form handler returns the API call it makes,
  as a per-resource `Call` value.
- **Pages and components with React state.** Each is a class whose fields are
  the `useState` variables. Each handler is a method whose contract states
  the whole new state. Classes with many fields express this through a ghost
  `Snapshot()`, as in `Snapshot() == old(Snapshot()).(field := …)`. An awaited
  server answer is a `Reply` parameter: `Ok(body)` or `Failed(message)`. The
  contract covers both outcomes.
- **Cached-list patches.** Delete (`filter`), update (`map`) and lookup
  (`find`) are `SlugLists` functions. Their counting and ordering laws are
  proved once and used by both list pages and both forms.
- **JavaScript semantics relied on, written out.**
  - `trim` and `\s` use the ECMAScript whitespace set.
  - Truthiness of optional strings is modelled explicitly.
  - `||`, `??` and optional chaining are modelled explicitly.
  - `<<` and `>>` use 32-bit ToInt32 with flooring shifts.
  - `toString(16)` and `slice(-2)` are modelled as written.
  - `split` and `join` on one character.
  - `encodeURIComponent` percent-encodes the UTF-8 bytes.

Behaviours of the code a reader may not expect, modelled as written:

- The category page's search refetches page 1 but does not reset
  `currentPage`.
- `loadMoreCategories` advances the page number before the request. A failed
  request still advances it.
- The two list pages' `handleChange` and `handleSelectFilter` have no error
  handling. A failed refetch leaves the category page's loading flag on and
  the filter menu open.
- The topics page's search and filter refetch **categories**, not topics.
  Topics are also filtered on screen by the route's category.
- The topic form preselects a topic's category only when `defaultValues` are
  given. The topics page never passes any.
- The sign-up form's three length rules all report the password message.
- The question form is judged two ways:
  - On submit, only the empty string counts as missing.
  - On each keystroke, the trimmed length counts (`TitleRulesDisagree`).
- Every length rule measures JavaScript's `length`, in UTF-16 code units:
  a character outside the Basic Multilingual Plane counts twice
  (`Login.PasswordCountsCodeUnits`).
- The route guards and logout send visitors to `/signin`. The route table
  declares `/login` (`SignInPathUndeclared`). The sign-in redirect keeps only
  the path in its state, so a query string is lost on the way back
  (`RedirectThenSignIn`).

## Model

| member | source | states |
|---|---|---|
| Api.Settle | src/api/category.api.ts:5-8 | a response is rejected exactly when its `error` is non-empty, with that error; otherwise the whole body is the result |
| Api.AsJson | src/api/category.api.ts:4 | spreading form data into a body keeps exactly its keys, each as a string |
| CategoryApi.CreateCategory | src/api/category.api.ts:3-4 | POST to `/category/create` with the data as body and no query |
| CategoryApi.UpdateCategory | src/api/category.api.ts:11-12 | PATCH whose path is `/category/update/` followed by the slug, the data as body |
| CategoryApi.DeleteCategory | src/api/category.api.ts:19-20 | DELETE whose path is `/category/delete/` followed by the id, no body |
| CategoryApi.GetCategories | src/api/category.api.ts:27-43 | the query always has `page` and `limit` 10; `searchValue` iff not blank (sent untrimmed); `isVerified` iff not null, `false` included; no other key |
| TopicApi.CreateTopic | src/api/topic.api.ts:3-4 | POST to `/topic/create` with the data as body |
| TopicApi.UpdateTopic | src/api/topic.api.ts:11-12 | PATCH whose path is `/topic/update/` followed by the slug |
| TopicApi.DeleteTopic | src/api/topic.api.ts:19-20 | DELETE whose path is `/topic/delete/` followed by the id |
| TopicApi.GetTopics | src/api/topic.api.ts:27-50 | query has `page` and never `limit`; `searchValue` and `categorySlug` iff not blank; `isVerified` iff not null; no other key |
| QuestionApi.GetAllQuestions | src/api/question.api.ts:3-22 | each slug is sent iff truthy; the search iff its trim is non-empty, sent trimmed; `verified` only when true; no other key |
| QuestionApi.GetQuestionDetails | src/api/question.api.ts:29-30 | GET whose path is `/question/details/` followed by the slug |
| CategoryReducer.Reduce | src/store/category/categoryReducer.ts:22-33 | `setCategories` replaces the list; `addNewCategory` keeps the old list as a prefix and puts the new entry last |
| CategoryReducer.SetCategoriesLaws | src/store/category/categoryReducer.ts:22-27 | replacing ignores the previous list and is idempotent |
| CategoryReducer.AddNewCategoryCounts | src/store/category/categoryReducer.ts:28-33 | appending gives the new slug one more entry (duplicates are not checked) and leaves every other slug's count unchanged |
| CategoryReducer.ReplayAdds | src/store/category/categoryReducer.ts:28-33 | adding entities one by one yields the old list followed by them in order |
| TopicReducer.Reduce | src/store/topic/topicReducer.ts:23-34 | `setTopic` replaces the list; `addNewTopic` appends, keeping the old list as a prefix |
| TopicReducer.SetTopicLaws | src/store/topic/topicReducer.ts:23-28 | replacing ignores the previous list and is idempotent |
| TopicReducer.AddNewTopicCounts | src/store/topic/topicReducer.ts:29-34 | appending adds one entry to the new slug and changes no other slug's count |
| TopicReducer.ReplayAdds | src/store/topic/topicReducer.ts:29-34 | successive adds append in order |
| QuestionReducer.Reduce | src/store/question/questionReducer.ts:59-73 | each action replaces its own field and keeps the other |
| QuestionReducer.ReduceLaws | src/store/question/questionReducer.ts:59-73 | each action is idempotent and the two actions commute |
| UserReducer.Reduce | src/store/user/userReducer.ts:26-31 | the stored user is the payload; authenticated iff a user is given |
| UserReducer.SetUserDataLaws | src/store/user/userReducer.ts:18-31 | storing nobody is the unauthenticated initial state; storing a user is idempotent |
| GlobalReducer.Reduce | src/store/global/globalReducer.ts:16-22 | the theme becomes the payload |
| GlobalReducer.SetUserThemeEffect | src/store/global/globalReducer.ts:16-22 | writes the theme under `userTheme` and no other key, then yields the new state |
| AppStore.Store.constructor | src/store/store.ts:8-16 | every slice starts at its reducer's initial state |
| AppStore.Store.DispatchCategory | src/store/store.ts:8-16 | only the category slice changes, by its reducer |
| AppStore.Store.DispatchTopic | src/store/store.ts:8-16 | only the topic slice changes, by its reducer |
| AppStore.Store.DispatchQuestion | src/store/store.ts:8-16 | only the question slice changes, by its reducer |
| AppStore.Store.DispatchUser | src/store/store.ts:8-16 | only the user slice changes, by its reducer |
| AppStore.Store.DispatchGlobal | src/store/global/globalReducer.ts:16-22 | the theme slice changes and durable storage gains the theme key |
| Storage.LocalStorage.SetData | src/store/global/globalReducer.ts:17 | storing sets one key and keeps every other |
| Storage.LocalStorage.DeleteData | src/components/Navbar/index.tsx:126 | deleting removes one key and keeps every other |
| SlugLists.RemoveBySlug | src/pages/HomePage/index.tsx:89-91 | the result is a shorter list of entries of the input, none of them with the slug, holding every input entry with another slug |
| SlugLists.RemoveBySlugSpec | src/pages/HomePage/index.tsx:89-91 | after a delete no entry has the slug, every other slug keeps all its entries, the survivors keep their order, and the length drops by the slug's count |
| SlugLists.RemoveAbsentSlug | src/pages/Topics/index.tsx:69 | deleting an absent slug leaves the list unchanged |
| SlugLists.ReplaceBySlug | src/pages/HomePage/index.tsx:174-179 | same length; each entry with the returned slug is the returned entity, every other entry is unchanged |
| SlugLists.ReplaceBySlugSpec | src/components/CategoryForm/index.tsx:62-67 | replacing keeps every slug's count, is idempotent, and changes nothing when the slug is absent |
| SlugLists.UniqueSlugReplaced | src/pages/Topics/index.tsx:116-121 | with a unique slug, exactly that one entry becomes the returned entity and no other entry carries the slug |
| SlugLists.FindBySlug | src/pages/HomePage/index.tsx:80 | none iff no entry has the slug; otherwise the first entry that has it |
| Text.Trim | src/api/question.api.ts:16-17 | `trim`: no longer than the input, neither starting nor ending with whitespace |
| Text.BlankIffAllSpace | src/api/category.api.ts:33 | a string trims to empty exactly when every character is whitespace |
| Text.TrimShape | src/api/question.api.ts:16-17 | the trim is a contiguous piece of the input with no whitespace at either end, and trimming is idempotent |
| Text.Split | src/components/Navbar/index.tsx:120 | `split` on one character: at least one part, and at least two when the separator occurs |
| Text.Join | src/components/Navbar/index.tsx:122 | `join` on one character: the result starts with the first part, followed by the separator when more parts follow |
| Text.SplitPartsFree | src/components/Navbar/index.tsx:120 | no piece of a split contains the separator |
| Text.JoinSplit | src/components/Navbar/index.tsx:120-122 | joining a split with the same separator gives the input back |
| Text.SplitJoin | src/components/Navbar/index.tsx:120-122 | splitting a join of separator-free parts gives the parts back |
| Text.SplitCons | src/components/Navbar/index.tsx:120 | a separator-free piece, the separator and a rest split into that piece followed by the rest's split |
| Text.Utf16Length | src/pages/Login/index.tsx:37 | the UTF-16 length lies between the character count and twice it |
| Text.Utf16LengthOfBmp | src/pages/Signup/index.tsx:35 | the UTF-16 length equals the character count iff every character is in the Basic Multilingual Plane |
| Text.Utf16LengthOfAstral | src/pages/Signup/index.tsx:53 | characters above the Basic Multilingual Plane count two code units each |
| Text.NatToStringValue | src/components/CategoryForm/index.tsx:84 | the decimal rendering of a number reads back as that number |
| FormFields.Required | src/components/CategoryForm/index.tsx:20-21 | no error iff the value has a non-whitespace character; otherwise the given message |
| FormFields.PrefillKeys | src/components/CategoryForm/index.tsx:82-86 | prefilling adds exactly the defaults' field names |
| FormFields.PrefillUntouched | src/components/CategoryForm/index.tsx:82-86 | a field no default names keeps its value |
| FormFields.PrefillLastWins | src/components/CategoryForm/index.tsx:82-86 | a field ends with the text of the last default that names it |
| Gating.ShowAddCard | src/pages/HomePage/index.tsx:286-287 | the add card shows iff admin mode is on and the role is ADMIN or SUPER_ADMIN |
| Gating.ShowCardControls | src/pages/HomePage/index.tsx:323 | edit and delete show iff admin mode is on and the card is modifiable |
| Gating.ShowVerifySwitch | src/pages/HomePage/index.tsx:352 | the verify switch shows iff the card controls do and the role is SUPER_ADMIN |
| Gating.ShowFilterButton | src/pages/HomePage/index.tsx:219 | the filter button shows iff the role is SUPER_ADMIN, whatever the admin mode |
| Gating.GatingLaws | src/pages/HomePage/index.tsx:219-363 | visitors get no controls; the add card needs an admin role; the verify switch needs a super admin and sits among the card controls; admins see no filter button; a plain user with admin mode set still gets edit and delete on modifiable cards |
| HomePage.CardVisible | src/pages/HomePage/index.tsx:305-315 | an unverified card the user cannot modify is never drawn; no filter or "All" shows the rest; VERIFIED shows only verified cards; NOT VERIFIED only modifiable unverified ones |
| HomePage.GetCategoryValue | src/pages/HomePage/index.tsx:76-82 | the `name` default is empty for an empty or unknown slug, else the name of the first category with that slug |
| HomePage.HomePage.constructor | src/pages/HomePage/index.tsx:44-58 | the initial page state, with the location's `query` |
| HomePage.HomePage.HasMore | src/pages/HomePage/index.tsx:274 | the `hasMore` told to the scroller: the current page is before the last; `LoadMoreCategories` fetches only then |
| HomePage.HomePage.FormSlug | src/pages/HomePage/index.tsx:260 | the edited category's slug, or empty |
| HomePage.HomePage.HandleOpenPopup | src/pages/HomePage/index.tsx:69 | only the popup opens |
| HomePage.HomePage.HandleClosePopup | src/pages/HomePage/index.tsx:70-74 | the popup closes and returns to create mode with no edited category |
| HomePage.HomePage.EditCategory | src/pages/HomePage/index.tsx:337-342 | update mode, popup open, the card's category being edited |
| HomePage.HomePage.AskDelete | src/pages/HomePage/index.tsx:346-350 | the confirmation opens and remembers the card's slug |
| HomePage.HomePage.CloseDeletePopup | src/pages/HomePage/index.tsx:267 | only the confirmation closes; the slug is kept |
| HomePage.HomePage.HandleDropdownClick | src/pages/HomePage/index.tsx:189-191 | only the filter menu opens |
| HomePage.HomePage.HandleCloseDropdown | src/pages/HomePage/index.tsx:155-157 | only the filter menu closes |
| HomePage.HomePage.HandleDelete | src/pages/HomePage/index.tsx:84-100 | a delete is sent iff a slug is remembered; on success the confirmation closes and that slug's entries leave the cache; otherwise nothing changes |
| HomePage.HomePage.OnLoad | src/pages/HomePage/index.tsx:119-136 | fetches page 1 with the location's query, which becomes the search text when non-empty; on success the page count and cache are replaced; loading ends either way |
| HomePage.HomePage.HandleChange | src/pages/HomePage/index.tsx:138-151 | the raw text becomes the search and the location query (removed when blank); a refetch with the trimmed text and filter happens iff the trim differs from the old text; a failure leaves loading on |
| HomePage.HomePage.HandleSelectFilter | src/pages/HomePage/index.tsx:159-169 | the entry becomes the filter; a refetch happens iff its label differs from the old filter's; the menu closes unless the refetch failed |
| HomePage.HomePage.HandleVerified | src/pages/HomePage/index.tsx:171-187 | sends the flag; on success the entries with the returned slug become the returned category; a failure changes nothing |
| HomePage.HomePage.LoadMoreCategories | src/pages/HomePage/index.tsx:193-209 | fetches iff a further page exists, asking for the next page; the page number advances even on failure; success appends the page and refreshes the count |
| TopicsPage.TopicCardVisible | src/pages/Topics/index.tsx:217-230 | the category page's visibility rule, and additionally the topic belongs to the route's category |
| TopicsPage.TopicLink | src/pages/Topics/index.tsx:135-137 | the topic's path under the route's category; a missing category renders as `undefined` |
| TopicsPage.TopicsPage.constructor | src/pages/Topics/index.tsx:37-47 | the initial page state for a route category |
| TopicsPage.TopicsPage.FormSlug | src/pages/Topics/index.tsx:185 | the edited topic's slug, or empty |
| TopicsPage.TopicsPage.HandleOpenPopup | src/pages/Topics/index.tsx:57 | only the popup opens |
| TopicsPage.TopicsPage.HandleClosePopup | src/pages/Topics/index.tsx:58-62 | the popup closes and returns to create mode |
| TopicsPage.TopicsPage.EditTopic | src/pages/Topics/index.tsx:251-256 | update mode with the card's topic |
| TopicsPage.TopicsPage.AskDelete | src/pages/Topics/index.tsx:260-264 | the confirmation opens and remembers the slug |
| TopicsPage.TopicsPage.CloseDeletePopup | src/pages/Topics/index.tsx:193 | only the confirmation closes |
| TopicsPage.TopicsPage.HandleDropdownClick | src/pages/Topics/index.tsx:131-133 | only the filter menu opens |
| TopicsPage.TopicsPage.HandleCloseDropdown | src/pages/Topics/index.tsx:97-99 | only the filter menu closes |
| TopicsPage.TopicsPage.HandleDelete | src/pages/Topics/index.tsx:64-78 | a delete is sent iff a slug is remembered; success drops that slug's topics and closes the confirmation; otherwise nothing changes |
| TopicsPage.TopicsPage.OnLoad | src/pages/Topics/index.tsx:80-85 | fetches the route category's topics iff the category is non-empty, replacing the topic cache on success |
| TopicsPage.TopicsPage.HandleChange | src/pages/Topics/index.tsx:87-93 | the text becomes the search and, when its trim differs, the category list is refetched and cached |
| TopicsPage.TopicsPage.HandleSelectFilter | src/pages/Topics/index.tsx:101-111 | the entry becomes the filter; a changed label refetches categories; the menu closes unless that failed |
| TopicsPage.TopicsPage.HandleVerified | src/pages/Topics/index.tsx:113-129 | sends the flag; on success the entries with the returned slug become the returned topic |
| CategoryForm.ValidateName | src/components/CategoryForm/index.tsx:20-21 | no error iff the name has a non-whitespace character |
| CategoryForm.CategoryForm.constructor | src/components/CategoryForm/index.tsx:37-42 | the props as given and empty form data |
| CategoryForm.CategoryForm.HandleChange | src/components/CategoryForm/index.tsx:99-101 | one field is set, the others kept |
| CategoryForm.CategoryForm.MountEffect | src/components/CategoryForm/index.tsx:81-88 | an update form with defaults ends with the data prefilled from them in order; any other form is unchanged |
| CategoryForm.CategoryForm.HandleFormSubmit | src/components/CategoryForm/index.tsx:53-79 | create sends the data and appends the result; update sends iff a slug is set and replaces by slug; failures change nothing; `onClose` runs exactly once |
| TopicForm.ValidateName | src/components/TopicForm/index.tsx:39-40 | no error iff the name has a non-whitespace character |
| TopicForm.WithCategorySlug | src/components/TopicForm/index.tsx:87-99 | the body has `categorySlug` iff a slug is given, overriding the data's; every other key is the data's |
| TopicForm.TopicForm.constructor | src/components/TopicForm/index.tsx:57-67 | the props as given, empty data, nothing selected |
| TopicForm.TopicForm.SelectedSlug | src/components/TopicForm/index.tsx:89 | the picked category's slug, else the route's category |
| TopicForm.TopicForm.HandleChange | src/components/TopicForm/index.tsx:79-80 | one field is set, the others kept |
| TopicForm.TopicForm.HandleTopicClick | src/components/TopicForm/index.tsx:121-123 | the picked category becomes the selection |
| TopicForm.TopicForm.OnLoad | src/components/TopicForm/index.tsx:125-140 | fetches categories with the defaults and caches them; only an update form with defaults prefills, and only then preselects the edited topic's category |
| TopicForm.TopicForm.HandleFormSubmit | src/components/TopicForm/index.tsx:82-119 | create files under the selected or route category and appends; update sends iff a slug is set, with the picked category only, and replaces by slug; `onClose` runs once |
| InfiniteScrollDropdown.ShouldLoadMore | src/components/InfiniteScrollDropdown/index.tsx:40-48 | more is requested exactly at the very bottom, while nothing loads and more exists |
| InfiniteScrollDropdown.OnInputChange | src/components/InfiniteScrollDropdown/index.tsx:64-68 | only the "clear" reason selects, and it selects nothing |
| InfiniteScrollDropdown.HighlightLaws | src/components/InfiniteScrollDropdown/index.tsx:98-103 | only options with the selected value are highlighted; a text value never matches a number |
| QuestionDetailsPage.TopicOptions | src/pages/QuestionDetails/index.tsx:63-65 | one option per topic, in order, labelled by name with the slug as value |
| QuestionDetailsPage.DraftOf | src/pages/QuestionDetails/index.tsx:86-87 | a loaded question's title, description and solution |
| QuestionDetailsPage.EditField | src/pages/QuestionDetails/index.tsx:117-119 | the field takes the value and every other field is kept; a missing draft spreads as empty |
| QuestionDetailsPage.SelectTopic | src/pages/QuestionDetails/index.tsx:113-115 | a given option is selected; none keeps the selection |
| QuestionDetailsPage.SaveDisabled | src/pages/QuestionDetails/index.tsx:121-128 | Save is disabled while either copy is missing and while the draft is the original's own |
| QuestionDetailsPage.SaveDisabledLaws | src/pages/QuestionDetails/index.tsx:121-128 | a fresh draft disables Save; one edit enables it iff it changes the title, description or solution |
| QuestionDetailsPage.ClearKeepsSelection | src/pages/QuestionDetails/index.tsx:113-115 | clearing the picker's text keeps the page's selected topic |
| QuestionDetailsPage.QuestionDetailsPage.constructor | src/pages/QuestionDetails/index.tsx:34-47 | the initial page state |
| QuestionDetailsPage.QuestionDetailsPage.LoadTopics | src/pages/QuestionDetails/index.tsx:59-80 | fetches the page of all topics; success takes page and count from the response and appends (page 1 replaces); loading ends off |
| QuestionDetailsPage.QuestionDetailsPage.OnLoad | src/pages/QuestionDetails/index.tsx:82-100 | loads topics, then the question; on success it is original, draft and opened question, its topic selected, and Save disabled |
| QuestionDetailsPage.QuestionDetailsPage.HandleTopicChange | src/pages/QuestionDetails/index.tsx:102-106 | the text becomes the search and page 1 replaces the options |
| QuestionDetailsPage.QuestionDetailsPage.FetchMoreTopics | src/pages/QuestionDetails/index.tsx:108-111 | the page number advances and that page is fetched with the current search and appended |
| QuestionDetailsPage.QuestionDetailsPage.HasMore | src/pages/QuestionDetails/index.tsx:258 | the `hasMore` told to the topic picker: the current page is before the last |
| QuestionDetailsPage.QuestionDetailsPage.IsDisable | src/pages/QuestionDetails/index.tsx:121-128 | disabled without an original and while the draft is the original's own |
| QuestionDetailsPage.QuestionDetailsPage.HandleTopicListScroll | src/pages/QuestionDetails/index.tsx:254-261 | a scroll requests more iff the picker's guard holds on the page's loading flag and `HasMore`, so never while topics load or on the last page; a request moves the state as `FetchMoreTopics`, otherwise nothing changes |
| QuestionDetailsPage.QuestionDetailsPage.HandleSelectTopic | src/pages/QuestionDetails/index.tsx:113-115 | the selection follows `SelectTopic` |
| QuestionDetailsPage.QuestionDetailsPage.HandleChangeField | src/pages/QuestionDetails/index.tsx:117-119 | only the draft changes, by `EditField` |
| QuestionDetailsPage.QuestionDetailsPage.StartEdit | src/pages/QuestionDetails/index.tsx:188-191 | only edit mode turns on |
| QuestionDetailsPage.QuestionDetailsPage.CancelEdit | src/pages/QuestionDetails/index.tsx:204-207 | edit mode ends and the draft is restored from the original, disabling Save |
| QuestionDetailsPage.QuestionDetailsPage.OpenSolution | src/pages/QuestionDetails/index.tsx:218 | only the solution popup opens |
| QuestionDetailsPage.QuestionDetailsPage.CloseSolution | src/pages/QuestionDetails/index.tsx:290 | only the solution popup closes |
| AddQuestionForm.SubmitErrors | src/components/AddQuestionForm/index.tsx:116-128 | an error for a field iff it is the empty string, with the "required" message, no other keys |
| AddQuestionForm.ChangeError | src/components/AddQuestionForm/index.tsx:228-248 | no error iff the UTF-16 length of the trimmed text is at least 3; blank gives "required"; a length of 1-2 gives "too short" |
| AddQuestionForm.WithError | src/components/AddQuestionForm/index.tsx:229-246 | one entry is set or removed and the others kept |
| AddQuestionForm.TitleRulesDisagree | src/components/AddQuestionForm/index.tsx:120-123 | titles of spaces or of two characters are flagged while typing but pass submit |
| AddQuestionForm.AddQuestionForm.constructor | src/components/AddQuestionForm/index.tsx:21-35 | empty fields, JavaScript, coding, both error entries empty |
| AddQuestionForm.AddQuestionForm.HandleSubmit | src/components/AddQuestionForm/index.tsx:116-149 | with an empty title or description only the errors change; otherwise the question is assembled, the texts reset and the errors cleared |
| AddQuestionForm.AddQuestionForm.HandleTitleChange | src/components/AddQuestionForm/index.tsx:228-248 | the title takes the text and its error entry follows `ChangeError` |
| AddQuestionForm.AddQuestionForm.HandleDescriptionChange | src/components/AddQuestionForm/index.tsx:265-285 | the description takes the text and its error entry follows `ChangeError` |
| AddQuestionForm.AddQuestionForm.HandleEditorChange | src/components/AddQuestionForm/index.tsx:65-67 | an undefined editor value empties the solution |
| AddQuestionForm.AddQuestionForm.HandleLanguageChange | src/components/AddQuestionForm/index.tsx:151-158 | deselecting keeps the language |
| AddQuestionForm.AddQuestionForm.HandleTypeChange | src/components/AddQuestionForm/index.tsx:160-167 | deselecting keeps the type |
| AddQuestionForm.AddQuestionForm.HandleYoutubeLinkChange | src/components/AddQuestionForm/index.tsx:299 | only the link changes |
| AddQuestionForm.AddQuestionForm.HandleWebsiteLinkChange | src/components/AddQuestionForm/index.tsx:309 | only the link changes |
| SearchInput.SearchInput.constructor | src/components/SearchInput/index.tsx:30-31 | closed and empty |
| SearchInput.SearchInput.HandleIconClick | src/components/SearchInput/index.tsx:35-39 | opens, term kept |
| SearchInput.SearchInput.HandleSearchChange | src/components/SearchInput/index.tsx:41-44 | the raw text becomes the term and is emitted unchanged |
| SearchInput.SearchInput.HandleClearClick | src/components/SearchInput/index.tsx:46-49 | the term empties and the empty string is emitted |
| SearchInput.SearchInput.HandleClickAway | src/components/SearchInput/index.tsx:51-55 | closes only when the term is empty |
| SearchInput.SearchInput.SyncFromLocation | src/components/SearchInput/index.tsx:63-81 | a non-empty location query becomes the term and opens the box |
| Login.EmailTestMatchesPattern | src/pages/Login/index.tsx:28-29 | the positional email test accepts exactly the strings of the form run@run.run with whitespace-free runs |
| Login.ValidateEmail | src/pages/Login/index.tsx:28-29 | no error iff the email matches `\S+@\S+\.\S+` |
| Login.ValidatePassword | src/pages/Login/index.tsx:36-39 | no error iff the UTF-16 length is at least six |
| Login.PasswordCountsCodeUnits | src/pages/Login/index.tsx:36-39 | three characters above the Basic Multilingual Plane pass the rule, three ordinary ones do not |
| Login.AfterSignIn | src/pages/Login/index.tsx:54 | the state's `prevUrl` when non-empty, else `/`; never empty |
| Login.HandleLogin | src/pages/Login/index.tsx:49-60 | success stores the token, the user, and navigates on; failure changes nothing |
| Signup.MinLength | src/pages/Signup/index.tsx:34-35 | no error iff the UTF-16 length is at least `min`, with the shared message |
| Signup.ValidateFirstName | src/pages/Signup/index.tsx:34-35 | no error iff the UTF-16 length is at least three; the password message otherwise |
| Signup.ValidateLastName | src/pages/Signup/index.tsx:43-44 | no error iff the UTF-16 length is at least three; the password message otherwise |
| Signup.ValidatePhone | src/pages/Signup/index.tsx:52-53 | no error iff the UTF-16 length is at least ten; the password message otherwise |
| Signup.ValidateEmail | src/pages/Signup/index.tsx:61-62 | the sign-in email rule |
| Signup.ValidatePassword | src/pages/Signup/index.tsx:70-71 | the sign-in password rule |
| Signup.HandleSignup | src/pages/Signup/index.tsx:87-98 | completes exactly like a sign-in |
| Navbar.HashStepGrowth | src/components/Navbar/index.tsx:97 | one hash step grows the magnitude by at most 2^31 plus the character code |
| Navbar.ToInt32 | src/components/Navbar/index.tsx:97 | the signed 32-bit value congruent to the input, identity in range |
| Navbar.Byte | src/components/Navbar/index.tsx:101 | a value below 256 |
| Navbar.NatToHex | src/components/Navbar/index.tsx:102 | non-empty lower-case hexadecimal |
| Navbar.HexBytePadded | src/components/Navbar/index.tsx:102 | a byte renders as exactly two zero-padded hex digits |
| Navbar.ColorPrefixShape | src/components/Navbar/index.tsx:99-104 | the colour is `#` and two hex digits for each of the hash's three low bytes, lowest first |
| Navbar.EmptyNameIsBlack | src/components/Navbar/index.tsx:93-104 | the empty name is `#000000` |
| Navbar.StringToColor | src/components/Navbar/index.tsx:93-105 | the loops compute the hash of the name and its three-byte colour |
| Navbar.Initials | src/components/Navbar/index.tsx:114 | two initials, each one character or `undefined`: between 2 and 18 characters |
| Navbar.InitialsOfPlainNames | src/components/Navbar/index.tsx:114 | plain first and last names give their first letters |
| Navbar.InitialsWithoutFirstName | src/components/Navbar/index.tsx:114 | an empty first name renders `undefined` as its initial |
| Navbar.StringAvatar | src/components/Navbar/index.tsx:107-116 | a seven-character colour of the joined name, and the initials |
| Navbar.FormatText | src/components/Navbar/index.tsx:118-123 | `formatText` equals the character-by-character rule and keeps the length |
| Navbar.FormatTextMeaning | src/components/Navbar/index.tsx:118-123 | underscores become spaces, word starts are upper-cased, the rest lower-cased |
| Navbar.AdminLabel | src/components/Navbar/index.tsx:171 | the admin role formats as "Admin" |
| Navbar.SuperAdminLabel | src/components/Navbar/index.tsx:171 | the super-admin role formats as "Super Admin" |
| Navbar.ShowAdminSwitch | src/components/Navbar/index.tsx:169 | the admin-mode switch shows iff there is a user whose role is ADMIN or SUPER_ADMIN |
| Navbar.AdminSwitchLabel | src/components/Navbar/index.tsx:171 | the label is the formatted role followed by ` Mode` |
| Navbar.AdminSwitchLaws | src/components/Navbar/index.tsx:169-171 | admins see "Admin Mode" and super admins "Super Admin Mode" |
| Navbar.Navbar.constructor | src/components/Navbar/index.tsx:61 | menu closed |
| Navbar.Navbar.HandleClick | src/components/Navbar/index.tsx:71-73 | menu open |
| Navbar.Navbar.HandleClose | src/components/Navbar/index.tsx:89-91 | menu closed |
| Navbar.Navbar.ChangeAdminMode | src/components/Navbar/index.tsx:75-87 | nothing is sent for a visitor or plain user; otherwise the mode is sent and the returned user stored on success |
| Navbar.Navbar.HandleLogout | src/components/Navbar/index.tsx:125-130 | the token is removed, nobody is signed in, the menu closes, and the sign-in path is next |
| Routes.EncodeURIComponent | src/routers/PrivateRoute.tsx:13 | only unreserved characters and `%` escapes; never shorter; unreserved-only text is unchanged |
| Routes.EncodedOmits | src/routers/PrivateRoute.tsx:13 | a character that is neither unreserved nor `%` (such as `?`, `&`, `#`) never appears in the encoding |
| Routes.Utf8 | src/routers/PrivateRoute.tsx:13 | one to four bytes, one exactly for ASCII, continuation bytes in 0x80-0xBF |
| Routes.PrivateRoute | src/routers/PrivateRoute.tsx:10-19 | renders iff a user is present; otherwise redirects to the sign-in path keeping the bare path in state |
| Routes.PublicRoute | src/routers/PublicRoute.tsx:10-19 | renders iff nobody is signed in; otherwise redirects to the state's non-empty `prevUrl`, else `/`, keeping the path in state |
| Routes.GuardsDependOnUserOnly | src/routers/PrivateRoute.tsx:8-10 | the decision ignores the location, and exactly one guard renders |
| Routes.PrivateRedirectQuery | src/routers/PrivateRoute.tsx:13-16 | the redirect is the sign-in path and a single `prevUrl` parameter holding the encoded path and query |
| Routes.PrivateRedirectNoExtraParts | src/routers/PrivateRoute.tsx:13-16 | the redirect holds no `&` and no `#` |
| Routes.RedirectThenSignIn | src/routers/PrivateRoute.tsx:17 | signing in after the redirect returns to the path, without its query |
| Routes.PublicRedirectMatchesSignIn | src/routers/PublicRoute.tsx:13 | a signed-in user on a public page goes where a sign-in there would go |
| Routes.SignInPathUndeclared | src/routers/router.tsx:15-18 | the redirect target is not a declared public path |

## Left out

- Rendering, styling, skeletons, icons and toasts are left out. The model keeps the state the handlers change and which controls are drawn. The topic page's toast that reports "Category deleted" is text only.
- The transport (axios) is left out, along with the order in which concurrent requests finish. Each handler is modelled as one uninterrupted run, with the awaited answer as a parameter.
- The form-state hook (`useForm`) is not part of this model beyond `handleChange(name, value)` on a field dictionary. Its error bookkeeping and the call of each field's validator are out; the validators themselves are modelled. The prefill lemmas (`FormFields.Prefill*`) take the successive `handleChange` calls of one effect to compose as dictionary writes, which holds only if the hook applies each change as a functional state update.
- The debounce hook is left out. The debounced handler is the handler.
- `setQuery`/`removeQuery` keep the other URL parameters; only the `query` parameter is modelled.
- The code editor (Monaco) and its theme, completions and formatter are out. So is the theme toggle in the top bar.
- The auth and user API functions are out, except as the replies the sign-in, sign-up and admin-mode handlers receive. The route table and the store's `configureStore` wiring are out too. One mismatch is kept: the table declares `/login` while the guards redirect to `/signin`.
- The question details page's `fakeUpdate` toggle only forces a re-render, so it is left out. Its draft tracks only the three compared text fields.
- Navbar.StringToColor: the hash uses unbounded integers where JavaScript uses doubles. Each step grows the magnitude of the value by at most 2^31 plus the character code (`Navbar.HashStepGrowth`), so it stays within the 2^53 that doubles hold exactly, and the two agree, for names shorter than about two million characters.
- Navbar.StringAvatar: the initials are the first whole character of each name, where `[0]` takes the first UTF-16 code unit; for a name starting above the Basic Multilingual Plane the source shows half a surrogate pair, which a Dafny string cannot hold.
- Navbar.InitialsOfPlainNames: stated for whole first characters; it agrees with the source only when both names start inside the Basic Multilingual Plane.
- Navbar.StringToColor: the hash reads Unicode scalar values, where `charCodeAt` reads UTF-16 code units. The two differ only for characters outside the Basic Multilingual Plane.
- Navbar.FormatTextMeaning: case mapping is ASCII only.
- Navbar.FormatText: case mapping is ASCII only, and each word is split at its first whole character where `charAt(0)` and `slice(1)` split at the first UTF-16 code unit; the two differ only above the Basic Multilingual Plane.
- Navbar.AdminSwitchLabel: inherits the ASCII case mapping of `Navbar.FormatText`; the two role names it is shown for are ASCII.
- Routes.EncodeURIComponent: strings here cannot hold lone surrogates, so the `URIError` JavaScript throws for them cannot arise.
