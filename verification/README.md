# Portfolio Builder — a verified model of its core

Portfolio Builder is a Next.js application. A user fills a form with personal and professional details. The
application sends them to a language-model route that returns structured portfolio content (summary, skills,
experience, projects). The user can edit that content in place and publish it under a short code. This
project models in Dafny the parts of the application that have logic of their own, and proves what they
promise:

- **The generate route** (`PromptBuilder`, `GenerateRoute`, with the JavaScript string and regular-expression
  operations it uses in `JsText` and `JsRegex`). It covers the domain-to-guidance lookup and its fallback to
  `other`, the sanitised echo of the request body, and the assembled prompt. It also covers the cleaning of the
  model's reply: case-insensitive removal of the ```` ```json ```` fence, removal of every ```` ``` ````, trim,
  then the greedy first-`{`-to-last-`}` extraction. Finally it covers the three-way error classification and
  the route's response.
- **The resume store** (`Store`). This is a class whose fields are the store's slices. Its setters merge a
  `Partial<T>`, modelled as a record of `Option` fields where `None` is an absent key. `setAIPortfolio`
  replaces the portfolio wholesale, `updateAiPortfolio` merges into it, and `reset` restores the initial state.
- **The publish route** (`PublishRoute`). It runs the two guards in order, then the call to `publishPortfolio`
  (a function parameter), then shapes the response.
- **The builder page** (`BuilderPage`). It covers the ordered error list built by `validateForm`, which gives
  the same verdict as `isFormValid`, and the `completedFields` count. It also covers the size and type guards
  on an uploaded image, the `dataToSend` projection, and the toast list. The page's own state (toasts, preview
  image, loading flag) is a class; the store is shared with it.
- **The in-place editors** (`EditableList`, `EditableExperienceItem`, `EditableProjectItem`,
  `ExperienceSection`, `ProjectsSection`, with the shared sequence edits in `SeqEdit`). Each widget's
  `useState` cells are the fields of a class. The value a handler passes to `onSave` (or
  `onUpdateExperience`/`onUpdateProjects`) is the handler's result: `None` when the callback is not called.
  The handlers that copy an array and write one slot are methods that do exactly that. Deletion (a `filter`
  on the index) and appending (a spread) are functions.

Clock readings (`Date.now()`), the file reader's data URL, the model's reply text, `JSON.parse`, the network
calls and `publishPortfolio` are parameters of the operations that use them.

The route extracts the greedy span from the first `{` to the last `}`, not the first balanced object, and so
does `JsRegex.BraceMatch`. A failed publish validation answers "Missing required fields" or "Name is
required", without naming the field, and so does `PublishRoute.Post`.

## Model

| member | source | states |
|---|---|---|
| JsText.TrimStart | app/api/generate/route.ts:202 | the result is a suffix of the input that does not start with whitespace |
| JsText.TrimEnd | app/api/generate/route.ts:202 | the result is a prefix of the input that does not end with whitespace |
| JsText.TrimStartDropsWhitespace | app/api/generate/route.ts:202 | everything `trimStart` drops is whitespace |
| JsText.TrimEndDropsWhitespace | app/api/generate/route.ts:202 | everything `trimEnd` drops is whitespace |
| JsText.Trim | app/api/generate/route.ts:202 | `trim()` is a contiguous slice of the input whose first and last characters are not whitespace |
| JsText.TrimRemovesWhitespace | app/api/generate/route.ts:202 | every character `trim()` removes, on either side, is whitespace |
| JsText.TrimIdempotent | app/api/generate/route.ts:202 | trimming twice is trimming once |
| JsText.TrimKeeps | app/api/generate/route.ts:202 | `trim()` keeps any span that starts and ends with a non-whitespace character |
| JsText.TrimInFrame | app/api/generate/route.ts:202 | trimming text around a non-blank core keeps the core whole, with part of its frame |
| JsText.TrimSurrounded | app/api/generate/route.ts:202 | a non-blank core with only whitespace around it trims to itself |
| JsText.BlankIffTrimEmpty | app/builder/page.tsx:113-118 | the blank test `!s.trim()` holds exactly when the text is all whitespace |
| JsText.TrimmedFacts | app/components/EditableList.tsx:36-38 | an already-trimmed text trims to itself and is not blank; trimming a non-blank text gives a trimmed one |
| JsText.IncludesIffOccurs | app/api/generate/route.ts:221 | `includes(sub)` holds exactly when `sub` occurs at some offset |
| JsText.AsciiUpper | app/api/generate/route.ts:200 | the `i` flag's case folding: lower-case ASCII letters map to upper case, everything else to itself |
| JsText.DecimalString | app/components/EditableProjectItem.tsx:84 | `String(n)` is one or more digits with no leading zero, one digit exactly when `n < 10` |
| JsText.DecimalRoundTrip | app/components/EditableProjectItem.tsx:84 | `String(n)` reads back as `n` |
| JsText.PadStart | app/components/EditableProjectItem.tsx:84 | `padStart(width, fill)` ends with the input, has length `max(width, length)`, and is `fill` before it |
| JsRegex.RemoveAll | app/api/generate/route.ts:199-201 | a global `replace(pattern, "")` never lengthens the text and introduces no character |
| JsRegex.RemoveAllKeepsPrefix | app/api/generate/route.ts:199-201 | text that cannot begin a match passes through the replacement unchanged |
| JsRegex.RemoveAllDropsLeadingMatch | app/api/generate/route.ts:199-201 | a match at the front is removed and the replacement continues after it |
| JsRegex.FenceHere | app/api/generate/route.ts:201 | the plain pattern matches exactly where three backticks start |
| JsRegex.NoFenceAfterRemoval | app/api/generate/route.ts:201 | after removing every ```` ``` ```` no three backticks remain, including ones the removal joins up |
| JsRegex.TrimExcludes | app/api/generate/route.ts:202 | trimming introduces no substring the text did not have |
| JsRegex.FirstIndex | app/api/generate/route.ts:205 | the first occurrence of a character, or its absence |
| JsRegex.LastIndex | app/api/generate/route.ts:205 | the last occurrence of a character, or its absence |
| JsRegex.BraceSpan | app/api/generate/route.ts:205 | `/\{[\s\S]*\}/` matches from the first `{` to the last `}` after it, and fails exactly when no `}` follows a `{` |
| JsRegex.BraceMatch | app/api/generate/route.ts:205-208 | the match is the slice of the input from the first `{` through the last `}` after it, so it starts with `{` and ends with `}` |
| JsRegex.BraceMatchInFrame | app/api/generate/route.ts:205-208 | a brace-delimited block with brace-free text around it is extracted exactly |
| JsRegex.BraceDelimitedMatchesItself | app/api/generate/route.ts:205-208 | a text that starts with `{` and ends with `}` is its own match |
| PromptBuilder.ParseTag | app/api/generate/route.ts:9-100 | a key names a table entry exactly when it is that entry's key |
| PromptBuilder.ParseTagName | app/api/generate/route.ts:9-100 | each of the 15 entries is found under its own key |
| PromptBuilder.DomainKey | app/api/generate/route.ts:107 | `body.professional?.domain \|\| "other"`: a non-empty domain is used as given, otherwise `other` |
| PromptBuilder.SelectTag | app/api/generate/route.ts:107-108 | a listed domain selects its own guidance; an absent, empty or unlisted one selects `other` (corrected lookup, see Findings) |
| PromptBuilder.LookupAsWritten | app/api/generate/route.ts:108 | the bracket read finds an inherited member exactly for the `Object.prototype` member names |
| PromptBuilder.AsWrittenAgreesOffPrototype | app/api/generate/route.ts:108 | off the prototype member names, the lookup as written and the corrected one agree |
| PromptBuilder.InheritedTagSkipsGuidance | app/api/generate/route.ts:108 | the domain `constructor` yields a native-function text instead of the `other` guidance |
| PromptBuilder.Sanitize | app/api/generate/route.ts:112-136 | each of the 14 echoed fields is the received value when present and non-empty, `""` otherwise |
| PromptBuilder.HexRoundTrip | app/api/generate/route.ts:183 | a hexadecimal digit of a `\u` escape reads back as its value |
| PromptBuilder.UnescapeEscapedChar | app/api/generate/route.ts:183 | one escaped character decodes back to itself before the rest |
| PromptBuilder.EscapeRoundTrip | app/api/generate/route.ts:183 | the string escaping of `JSON.stringify` decodes back to the original text |
| PromptBuilder.ObjectText | app/api/generate/route.ts:183 | an object serialised by `JSON.stringify(_, null, 2)` starts with `{` and ends with `}` |
| PromptBuilder.BuildPrompt | app/api/generate/route.ts:138-184 | the prompt holds the guidance text and the serialised echo at their places in the template |
| PromptBuilder.ProfileImageNeverForwarded | app/api/generate/route.ts:110-136 | changing the received `profileImage` leaves the prompt unchanged |
| GenerateRoute.CleanedText | app/api/generate/route.ts:199-202 | the cleaned text is no longer than the reply and has no surrounding whitespace |
| GenerateRoute.CleanedTextHasNoFence | app/api/generate/route.ts:199-202 | the cleaned text contains no ```` ``` ```` |
| GenerateRoute.Normalize | app/api/generate/route.ts:196-208 | when the cleaned text has a `}` after a `{`, the result is its first-`{`-to-last-`}` match (brace-delimited); otherwise it is the cleaned text |
| GenerateRoute.NormalizedIsFenceFreePiece | app/api/generate/route.ts:196-208 | the extracted text has no fence and is a substring of the cleaned text |
| GenerateRoute.CleanOutput | app/api/generate/route.ts:196-208 | reassigning `output` step by step computes the normalised text |
| GenerateRoute.NormalizeSteps | app/api/generate/route.ts:199-208 | the extraction keeps the match when there is one and the cleaned text otherwise |
| GenerateRoute.BraceBlockSurvivesTrim | app/api/generate/route.ts:202-208 | trimming does not disturb the extraction of a framed brace block |
| GenerateRoute.JsonFencePass | app/api/generate/route.ts:200 | the case-insensitive pass removes the opening ```` ```json ```` and keeps the body |
| GenerateRoute.PlainFencePass | app/api/generate/route.ts:201 | the plain pass keeps backtick-free text in front of what it removes |
| GenerateRoute.FencedReplyYieldsBlock | app/api/generate/route.ts:199-208 | a reply ```` ```json ```` + newline + J + newline + ```` ``` ```` with commentary around it yields exactly J |
| GenerateRoute.BareObjectUnchanged | app/api/generate/route.ts:199-208 | a reply that is already a backtick-free `{…}` passes through unchanged |
| GenerateRoute.ExtractionIdempotent | app/api/generate/route.ts:205-208 | extracting again from an extracted block gives the same block |
| GenerateRoute.MatchIsItsOwnMatch | app/api/generate/route.ts:205-208 | the greedy `{`…`}` match of any text is its own match, so a second extraction changes nothing |
| GenerateRoute.ErrorMessage | app/api/generate/route.ts:220-225 | "input too long" exactly when the message mentions `context_length_exceeded`, else the rate-limit text exactly for status 429, else the generic failure |
| GenerateRoute.ClassifyError | app/api/generate/route.ts:220-225 | the if/else-if chain computes that classification |
| GenerateRoute.RequestFor | app/api/generate/route.ts:186-194 | the completion request names the model `llama-3.3-70b-versatile`, allows 2000 tokens, and carries the system instruction and then the prompt as the user message |
| GenerateRoute.Post | app/api/generate/route.ts:102-231 | an unreadable body, a failed completion and a failed parse each give status 500 with the classified message; a parsed reply gives `aiPortfolio` |
| Store.MergePersonal | lib/stores/useResumeStore.ts:106-109 | the keys present in the partial overwrite, the absent ones keep their value |
| Store.MergeProfessional | lib/stores/useResumeStore.ts:111-114 | the keys present in the partial overwrite, the absent ones keep their value |
| Store.MergeProjects | lib/stores/useResumeStore.ts:116-119 | the keys present in the partial overwrite, the absent ones keep their value |
| Store.MergeExperience | lib/stores/useResumeStore.ts:121-124 | the keys present in the partial overwrite, the absent ones keep their value |
| Store.MergePortfolio | lib/stores/useResumeStore.ts:137-142 | the merged portfolio has a key when either side has it; the data's keys win |
| Store.MergePersonalIdempotent | lib/stores/useResumeStore.ts:106-109 | merging the same partial twice is merging once; an empty partial changes nothing |
| Store.MergeProfessionalIdempotent | lib/stores/useResumeStore.ts:111-114 | merging the same partial twice is merging once; an empty partial changes nothing |
| Store.MergeProjectsIdempotent | lib/stores/useResumeStore.ts:116-119 | merging the same partial twice is merging once; an empty partial changes nothing |
| Store.MergeExperienceIdempotent | lib/stores/useResumeStore.ts:121-124 | merging the same partial twice is merging once; an empty partial changes nothing |
| Store.MergePortfolioIdempotent | lib/stores/useResumeStore.ts:137-142 | merging the same data twice is merging once; empty data changes nothing |
| Store.LayerPersonal | lib/stores/useResumeStore.ts:106-109 | the layered partial has a key when either partial has it |
| Store.MergePersonalCompose | lib/stores/useResumeStore.ts:106-109 | two successive merges are one merge of the layered partial |
| Store.InitialState | lib/stores/useResumeStore.ts:74-104 | every text field is `""`, the job description is `""` and there is no portfolio |
| Store.ResumeStore.constructor | lib/stores/useResumeStore.ts:74-104 | a new store holds the initial state |
| Store.ResumeStore.SetPersonalInfo | lib/stores/useResumeStore.ts:106-109 | only `personalInfo` changes, to its merge with the partial |
| Store.ResumeStore.SetProfessional | lib/stores/useResumeStore.ts:111-114 | only `professional` changes, to its merge with the partial |
| Store.ResumeStore.SetProjects | lib/stores/useResumeStore.ts:116-119 | only `projects` changes, to its merge with the partial |
| Store.ResumeStore.SetExperience | lib/stores/useResumeStore.ts:121-124 | only `experience` changes, to its merge with the partial |
| Store.ResumeStore.SetJobDescription | lib/stores/useResumeStore.ts:126 | only `jobDescription` changes, to the given text |
| Store.ResumeStore.SetAIPortfolio | lib/stores/useResumeStore.ts:128 | only `aiPortfolio` changes, replaced wholesale by the data |
| Store.ResumeStore.UpdatePersonalInfo | lib/stores/useResumeStore.ts:131-134 | the same new state as `setPersonalInfo` |
| Store.ResumeStore.UpdateAiPortfolio | lib/stores/useResumeStore.ts:137-142 | an existing portfolio is merged with the data; an absent one becomes the data; nothing else changes |
| Store.ResumeStore.Reset | lib/stores/useResumeStore.ts:144-165 | the store holds exactly the initial state again |
| PublishRoute.Post | app/api/portfolio/publish/route.ts:4-42 | missing parts give 400 "Missing required fields" before a blank name gives 400 "Name is required"; nothing is published unless both pass; then exactly the three parts are published and the reply carries the code, or 500 on any exception |
| PublishRoute.PublicPathNamesCode | app/api/portfolio/publish/route.ts:29-33 | a published reply's url is `/p/` followed by exactly its code |
| BuilderPage.WithoutId | app/builder/page.tsx:79-81 | the filter keeps exactly the toasts whose id differs |
| BuilderPage.WithoutIdSplits | app/builder/page.tsx:79-81 | the filter works piece by piece, so kept toasts stay in order |
| BuilderPage.WithoutAbsentId | app/builder/page.tsx:79-81 | removing an id no toast has changes nothing |
| BuilderPage.ShowThenRemove | app/builder/page.tsx:71-81 | removing a freshly shown toast by its id gives back the list before it |
| BuilderPage.ErrorToasts | app/builder/page.tsx:121 | one toast per error message |
| BuilderPage.ErrorToastsAt | app/builder/page.tsx:121 | the i-th toast is an error toast carrying the i-th message, stamped with the i-th clock reading |
| BuilderPage.Verdicts | app/builder/page.tsx:113-118 | the six blank tests, one per required field |
| BuilderPage.FilledReadsField | app/builder/page.tsx:113-118 | a required field passes its check exactly when its own store text is not blank |
| BuilderPage.MissingBefore | app/builder/page.tsx:112-118 | the blank fields among the first k checked |
| BuilderPage.MissingBeforeLists | app/builder/page.tsx:112-118 | those are exactly the blank fields among the first k, in checking order |
| BuilderPage.CheckedOnce | app/builder/page.tsx:179-186 | among the first k fields each is counted as filled or as missing, never both |
| BuilderPage.Missing | app/builder/page.tsx:112-118 | the missing list holds exactly the blank required fields |
| BuilderPage.Messages | app/builder/page.tsx:112-118 | one message per missing field |
| BuilderPage.MessagesAt | app/builder/page.tsx:112-118 | the i-th message is the i-th missing field's message |
| BuilderPage.PushedAreMessages | app/builder/page.tsx:112-118 | the pushes of the first k checks are the messages of the fields missing among them |
| BuilderPage.PushIfBlank | app/builder/page.tsx:113 | one check pushes its message exactly when its field is blank |
| BuilderPage.ChecksListMissing | app/builder/page.tsx:112-118 | the six checks in order push the messages of the missing fields in order |
| BuilderPage.CollectErrors | app/builder/page.tsx:112-118 | the error list is one message per blank required field, in the order name, email, phone, domain, skills, project1 |
| BuilderPage.CompletedFields | app/builder/page.tsx:179-186 | the count of filled required fields is at most 6 |
| BuilderPage.ValidityAgrees | app/builder/page.tsx:168-186 | `isFormValid` holds iff nothing is missing iff all 6 fields count as completed; completed plus missing is 6 |
| BuilderPage.ErrorsIffInvalid | app/builder/page.tsx:120-124 | `validateForm` finds errors exactly when `isFormValid` fails |
| BuilderPage.CheckImage | app/builder/page.tsx:86-93 | over 5 MiB is too large (exactly 5 MiB passes); otherwise a type not starting with `image/` is refused; the size check comes first |
| BuilderPage.DataToSendCarriesStore | app/builder/page.tsx:131-144 | the request carries every echoed field with the store's value, and no `profileImage` |
| BuilderPage.EchoIsStore | app/builder/page.tsx:131-144 | the route's sanitised echo of the request is exactly the store's fields |
| BuilderPage.RequestIgnoresImage | app/builder/page.tsx:132-140 | the stored image plays no part in the request |
| BuilderPage.Page.constructor | app/builder/page.tsx:65-67 | no toasts, not loading, and the preview is the stored image when there is one |
| BuilderPage.Page.ShowToast | app/builder/page.tsx:71-73 | exactly one toast is appended |
| BuilderPage.Page.RemoveToast | app/builder/page.tsx:79-81 | exactly the toasts with that id are removed |
| BuilderPage.Page.ShowErrors | app/builder/page.tsx:121 | one error toast per message is appended, in order |
| BuilderPage.Page.ValidateForm | app/builder/page.tsx:111-125 | returns `isFormValid`; appends one error toast per missing field in checking order, and none when valid |
| BuilderPage.Page.HandleImageUpload | app/builder/page.tsx:83-101 | no file changes nothing; a refused file shows its message and changes neither preview nor store; an accepted file sets the preview and the stored image |
| BuilderPage.Page.RemoveImage | app/builder/page.tsx:103-109 | the preview is cleared and the stored image becomes `""` |
| BuilderPage.Page.HandleReply | app/builder/page.tsx:152-164 | success stores the portfolio and shows the success toast; a failure reply shows its error or the default; a thrown error shows the generic message and leaves the store alone |
| BuilderPage.Page.GenerateResume | app/builder/page.tsx:127-166 | an invalid form sends nothing and shows the errors; a valid one sends `dataToSend`, handles the reply and ends not loading |
| SeqEdit.CopyAndSet | app/components/EditableList.tsx:37-38 | the copy has the same length, the new value at the index and every other slot unchanged |
| SeqEdit.RemoveIndex | app/components/EditableList.tsx:46 | filtering out an index shortens the list by one when the index is in range, and not otherwise |
| SeqEdit.RemoveIndexSplices | app/components/EditableList.tsx:46 | the filtered list is the list without that one slot, others in order |
| SeqEdit.RemoveIndexAt | app/components/EditableList.tsx:46 | the elements before the index keep their place; those after move down by one |
| SeqEdit.AddTrimmed | app/components/EditableList.tsx:50-52 | a blank input saves nothing; a non-blank one appends its trim and keeps the list before it |
| SeqEdit.SetTrimmed | app/components/EditableList.tsx:35-39 | a blank draft saves nothing; a non-blank one puts its trim at the index, same length, other slots unchanged |
| SeqEdit.AddKeepsTidy | app/components/EditableList.tsx:50-52 | adding keeps every entry trimmed and non-blank |
| SeqEdit.SetKeepsTidy | app/components/EditableList.tsx:35-39 | saving an edit keeps every entry trimmed and non-blank |
| SeqEdit.RemoveKeepsTidy | app/components/EditableList.tsx:45-48 | deleting keeps every entry trimmed and non-blank |
| SeqEdit.EditUntouchedIsIdentity | app/components/EditableList.tsx:30-39 | opening an entry of a tidy list and saving the draft unchanged saves the same list |
| SeqEdit.AddThenRemove | app/components/EditableList.tsx:45-52 | deleting the entry just appended gives back the list |
| EditableList.ListEditor.constructor | app/components/EditableList.tsx:25-28 | nothing is being edited or added |
| EditableList.ListEditor.HandleEdit | app/components/EditableList.tsx:30-33 | the entry at the index is opened with its text as the draft |
| EditableList.ListEditor.HandleSaveEdit | app/components/EditableList.tsx:35-43 | saves the trimmed draft at the index when it is non-blank, nothing otherwise; editing ends either way |
| EditableList.ListEditor.HandleAdd | app/components/EditableList.tsx:50-56 | appends the trimmed input and closes it when non-blank; a blank input saves nothing and changes nothing |
| EditableList.HandleDelete | app/components/EditableList.tsx:45-48 | the list without the entry at the index, the others in order |
| EditableExperienceItem.UpdateRole | app/components/EditableExperienceItem.tsx:31-39 | only the role changes |
| EditableExperienceItem.UpdateCompany | app/components/EditableExperienceItem.tsx:41-49 | only the company changes |
| EditableExperienceItem.UpdateDuration | app/components/EditableExperienceItem.tsx:51-59 | only the duration changes |
| EditableExperienceItem.FieldUpdatesIndependent | app/components/EditableExperienceItem.tsx:31-59 | edits of different fields commute; saving a field's own value changes nothing |
| EditableExperienceItem.PointOrEmpty | app/components/EditableExperienceItem.tsx:77 | `points[index] \|\| ""`: the point when the slot exists, `""` otherwise |
| EditableExperienceItem.DeletePoint | app/components/EditableExperienceItem.tsx:96-104 | company, role and duration are kept; the points lose exactly the one at the index |
| EditableExperienceItem.WithPoints | app/components/EditableExperienceItem.tsx:84-90 | the rebuilt entry has the new points and the entry's other fields |
| EditableExperienceItem.PointEditor.constructor | app/components/EditableExperienceItem.tsx:25-28 | no point is being added or edited |
| EditableExperienceItem.PointEditor.HandleAddPoint | app/components/EditableExperienceItem.tsx:61-73 | a non-blank point is appended trimmed and the input cleared and closed; a blank one saves nothing |
| EditableExperienceItem.PointEditor.HandleEditPoint | app/components/EditableExperienceItem.tsx:75-78 | the point at the index (or `""`) becomes the draft |
| EditableExperienceItem.PointEditor.HandleSavePoint | app/components/EditableExperienceItem.tsx:80-94 | a non-blank draft replaces only the point at the index, trimmed; a blank one saves nothing; editing ends either way |
| EditableProjectItem.UpdateName | app/components/EditableProjectItem.tsx:29-36 | only the name changes |
| EditableProjectItem.UpdateDescription | app/components/EditableProjectItem.tsx:38-45 | only the description changes |
| EditableProjectItem.FieldUpdatesIndependent | app/components/EditableProjectItem.tsx:29-45 | name and description edits commute; saving a field's own value changes nothing |
| EditableProjectItem.DeleteTech | app/components/EditableProjectItem.tsx:60-67 | name and description are kept; the tags lose exactly the one at the index, the others in order |
| EditableProjectItem.PositionLabelReadsBack | app/components/EditableProjectItem.tsx:84 | the label is at least two digits and reads back as `index + 1`: `0` and one digit below 10, the plain number from 10 on |
| EditableProjectItem.TechEditor.constructor | app/components/EditableProjectItem.tsx:25-26 | no tag is being added |
| EditableProjectItem.TechEditor.HandleAddTech | app/components/EditableProjectItem.tsx:47-58 | a non-blank tag is appended trimmed and the input cleared and closed; a blank one saves nothing |
| ExperienceSection.HandleUpdateItem | app/components/ExperienceSection.tsx:17-21 | same length, the new entry at the index, every other entry unchanged |
| ExperienceSection.HandleDeleteItem | app/components/ExperienceSection.tsx:23-26 | the list without the entry at the index, the others in order |
| ExperienceSection.HandleAddItem | app/components/ExperienceSection.tsx:28-36 | one longer: the old entries, then one with empty role, company and duration and no points |
| ExperienceSection.AddThenDelete | app/components/ExperienceSection.tsx:23-36 | deleting the entry just added gives back the list |
| ExperienceSection.Visibility | app/components/ExperienceSection.tsx:38-40 | in edit mode the section always renders, after an add it renders, and outside edit mode it hides once its only entry is deleted |
| ProjectsSection.HandleUpdateItem | app/components/ProjectsSection.tsx:17-21 | same length, the new project at the index, every other project unchanged |
| ProjectsSection.HandleDeleteItem | app/components/ProjectsSection.tsx:23-26 | the list without the project at the index, the others in order |
| ProjectsSection.HandleAddItem | app/components/ProjectsSection.tsx:28-35 | one longer: the old projects, then one with empty name and description and no tech |
| ProjectsSection.AddThenDelete | app/components/ProjectsSection.tsx:23-35 | deleting the project just added gives back the list |
| ProjectsSection.Visibility | app/components/ProjectsSection.tsx:37-39 | in edit mode the section always renders, after an add it renders, and outside edit mode it hides once its only project is deleted |

## Left out

- The Groq client and the chat-completion call are not modelled. The completion is a function parameter of `GenerateRoute.Post`; `temperature: 0.1` plays no part in any property.
- `JSON.parse` is a function parameter that may fail, as is `req.json()`. The JSON grammar itself is not modelled.
- `lib/services/portfolio-service.ts` (MongoDB and `nanoid`) is not part of this model. `publishPortfolio` is a function parameter of `PublishRoute.Post`. The uniqueness of codes and retrieval by code are therefore not modelled.
- JSON values in the publish route are not fully modelled: truthiness covers strings, objects, arrays, `null`, booleans and numbers, but only a string name can be trimmed. A non-string truthy name throws, and the model gives the 500 reply for it.
- An explicit `undefined` value inside a partial is not modelled: `Option` has only "absent" and "present with a value".
- Strings are sequences of characters, not of UTF-16 code units. Whitespace for `trim()` is the ECMAScript set as single characters.
- Browser plumbing in the builder page is not modelled: `FileReader` (its data URL is a parameter), `fetch` (the reply is a parameter of `GenerateResume`), `router.push` and resetting the file input's value. Toast expiry by `setTimeout` after 4 seconds is left out, since it is a timer; `removeToast` itself is modelled.
- `progressPercentage` is floating point and is left out; `completedFields` is modelled.
- `Date.now()` is a clock parameter. Toast ids come from it, so two toasts may share an id, as in the source.
- The rendering of every component is not modelled, nor are the input `onChange` setters and the cancel and Escape handlers. Only the event handlers that compute a saved value or change widget state are modelled.
- `EditableText.tsx`, `EditableTextarea.tsx`, `app/portfolio/page.tsx` and the display-only components are not part of this model.
- The callbacks `onSave`, `onUpdateExperience` and `onUpdateProjects` are modelled as the value the handler returns, since what the parent does with it is not part of these components.
- EditableList.ListEditor.HandleEdit: requires `index < |items|`. Outside the list JavaScript would load `undefined` as the draft, which is not modelled.
- EditableList.ListEditor.HandleSaveEdit: requires `index < |items|`. Writing past the end of a JavaScript array grows it with holes, which is not modelled.
- EditableExperienceItem.PointEditor.HandleSavePoint: requires `index < |points|`, for the same reason.
- ExperienceSection.HandleUpdateItem: requires `index < |experience|`, for the same reason.
- ProjectsSection.HandleUpdateItem: requires `index < |projects|`, for the same reason.
- GenerateRoute.Post: the prompt it sends is built with the corrected domain lookup (`PromptBuilder.SelectTag`, see Findings). For a domain naming an `Object.prototype` member, the route as written sends that member's text instead (`PromptBuilder.DomainGuidanceAsWritten`).
- GenerateRoute.Post: only string field values of the request body are modelled (`PromptBuilder.Field` is an optional string). In the source, a truthy number, array or object in a field is forwarded unchanged into the echoed JSON, and a non-string domain is looked up under its string conversion. A `null` body throws on `body.professional` and gives the 500 reply; here it is passed as a failed body read (`body` is a `Failure`), which gives a 500 reply with the classified message.
- Store.AIPortfolio: the parsed reply is modelled as a record with four optional keys (`summary`, `skills`, `experience`, `projects`). Replies with other keys, values of other types, or a non-object JSON value are not representable.
- JsText.IsBlank is defined as "all whitespace". `JsText.BlankIffTrimEmpty` proves this equals the source's `!s.trim()`.

## Findings

| source | as written | input that shows it | evidently intended | confidence | as-written member | corrected member |
|---|---|---|---|---|---|---|
| app/api/generate/route.ts:108 | `DOMAIN_PROMPTS[domain] \|\| DOMAIN_PROMPTS.other` reads a plain object, so a domain naming an `Object.prototype` member finds that member. It is truthy, so the fallback never fires | `professional.domain = "constructor"`: the prompt carries `function Object() { [native code] }` instead of the `other` guidance | every domain outside the 15 table keys selects the `other` guidance | high (not executed) | PromptBuilder.InheritedTagSkipsGuidance | PromptBuilder.SelectTag |
