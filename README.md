# Study-notes app core, modelled in Dafny

This project models the logic of a study-notes web application for data-structures and
algorithms practice:

- the two note stores: an in-memory one that keeps links bidirectional, and a persisted one
  whose local list follows the outcome of each remote call;
- the note search box, the note editor form and the note graph;
- the study-plan generator and its built-in day-by-day fallback plan;
- the saved-plans list, which reads a plan's duration and level back out of its title;
- the greedy question packer `generateDynamicPlan`;
- the plan configurator and the profile page's upload and password checks;
- the two server functions, one for text generation and one for web search.

State that the components change in place (a store's note list, a form's fields) is held by
Dafny classes whose methods state the new state. Pure computations (filters, title parsing,
report building, request handling) are functions with lemmas about them. Loops in the source
are methods with loop invariants, proved against a function that specifies them.

Remote calls are never modelled. Database queries, the authentication service, the
assistant service and the fetches made by the server functions become parameters: a call's
outcome, its rows, or its reply. The clock, the notes' markdown bodies and the floating-point
hour figures are parameters too.

Support modules:

- `Wrappers` holds `Option`.
- `Seqs` holds filter, remove-all, duplicate-freedom, flatten, slice and ceiling division.
- `Text` holds the JavaScript string operations the code relies on: `trim`, `toLowerCase`,
  `includes`/`indexOf`, `parseInt` (where NaN is `None`) and number formatting.

## Model

| member | source | states |
|---|---|---|
| DynamicPlan.SelectWithinBudget | src/utils/generateDynamicPlan.ts:3-14 | the loop leaves the greedy selection: a prefix of the questions, every one admitted by the stop test `sum + mins > total`, cut at the first rejected one; `sum` is the running NaN-absorbing total |
| DynamicPlan.TakeStep | src/utils/generateDynamicPlan.ts:10-13 | a question that passes the stop test is admitted and its minutes are added to the running total |
| DynamicPlan.TotalMinutesNaN | src/utils/generateDynamicPlan.ts:10-13 | one duration without a leading integer makes the whole sum NaN |
| DynamicPlan.PrefixWithinBudget | src/utils/generateDynamicPlan.ts:8-14 | when every selected duration parses, every non-empty prefix of the selection is within the budget |
| DynamicPlan.SelectionWithinBudget | src/utils/generateDynamicPlan.ts:8-14 | when every selected duration parses, the selected minutes add up to at most the budget |
| DynamicPlan.UnparseableSelectsRest | src/utils/generateDynamicPlan.ts:10-13 | once a duration without a leading integer is reached, the NaN sum disables the stop test and every remaining question is selected |
| DynamicPlan.GreedySelectionUnique | src/utils/generateDynamicPlan.ts:8-14 | the stop test determines the selection: two greedy selections of the same input are equal |
| DynamicPlan.TwoQuestionsOneHour | src/utils/generateDynamicPlan.ts:3-14 | with a one-hour budget, "30 mins" then "40 mins" selects only the first question |
| DynamicPlan.DistributeWeeks | src/utils/generateDynamicPlan.ts:17-21 | `weeks` buckets (none for `weeks <= 0`), bucket `i` the slice from `i*ceil(n/weeks)` to `(i+1)*ceil(n/weeks)`, none larger than that, and together they are the selection in order |
| DynamicPlan.Summarize | src/utils/generateDynamicPlan.ts:30-36 | the counters built in place equal the tallies of the normalised difficulties and the trimmed topics |
| DynamicPlan.Tally | src/utils/generateDynamicPlan.ts:34-35 | the counter's keys are exactly the keys met, each mapped to its positive number of occurrences |
| DynamicPlan.TallyTotal | src/utils/generateDynamicPlan.ts:34-35 | the counts of a tally add up to the number of keys tallied |
| DynamicPlan.SummaryCountsAddUp | src/utils/generateDynamicPlan.ts:24-36 | both counters of the summary add up to `totalQuestions` |
| DynamicPlan.DifficultyKeyIgnoresCase | src/utils/generateDynamicPlan.ts:32 | the difficulty key does not depend on the case of its input, so "EASY", " easy" and "Easy" count together |
| DynamicPlan.PaddedEasyKey | src/utils/generateDynamicPlan.ts:32 | " easy " is counted under "Easy" |
| DynamicPlan.TrimStartLower | src/utils/generateDynamicPlan.ts:32 | lower-casing commutes with dropping leading whitespace |
| DynamicPlan.TrimEndLower | src/utils/generateDynamicPlan.ts:32 | lower-casing commutes with dropping trailing whitespace |
| DynamicPlan.GenerateDynamicPlan | src/utils/generateDynamicPlan.ts:1-39 | the plan's selection is the greedy one under `weeks*hoursPerWeek*60`; week `i` is the slice from `i*ceil(n/weeks)` to `(i+1)*ceil(n/weeks)` of it; its summary counts and totals it |
| Text.TrimSpec | src/utils/generateDynamicPlan.ts:32-33 | `trim` keeps a middle slice, drops only whitespace, and leaves none at either end |
| Text.TrimEmptyIff | src/components/SearchBar.tsx:24 | a string trims to empty exactly when it is all whitespace |
| Text.ParseIntOfNumber | src/utils/generateDynamicPlan.ts:10 | `parseInt` reads back a number written in decimal, whatever follows it except a digit or an `x` |
| Text.DigitPrefixSpec | src/utils/generateDynamicPlan.ts:10 | the digits `parseInt` reads are the longest run of digits at the start of the string |
| Text.NatToStringInjective | src/components/StudyPlanGenerator.tsx:191 | different numbers are rendered differently |
| Text.ToLower | src/components/SearchBar.tsx:25-27 | `toLowerCase` keeps the length and lower-cases each character on its own |
| Text.IndexOfFrom | supabase/functions/huggingface-generate/index.ts:92 | `indexOf` finds the leftmost occurrence at or after the start index, or reports that there is none |
| Text.NatToStringValue | src/components/StudyPlanGenerator.tsx:191 | a number rendered in decimal has that number as its value |
| Text.ContainsIff | src/components/SearchBar.tsx:25-27 | `includes` holds exactly when the needle occurs at some index |
| Notes.NoteStore.constructor | src/hooks/useNotes.ts:172-173 | the store starts with the seeded notes and the first one selected |
| Notes.NoteStore.CreateNote | src/hooks/useNotes.ts:175-191 | the new note is exactly `NewNote`: "Untitled Note", the "# New Note" placeholder body, the given folder, in progress, no tags or links, created and updated now; it is appended and selected |
| Notes.NoteStore.UpdateNote | src/hooks/useNotes.ts:193-213 | the note is replaced by id and selected, then links are mirrored; afterwards a note links the updated note exactly when the updated note links it |
| Notes.NoteStore.DeleteNote | src/hooks/useNotes.ts:215-225 | the note and every link to it are gone, and nothing is selected |
| Notes.MirrorNoteLinks | src/hooks/useNotes.ts:203-211 | the sync rule makes one note link the updated note exactly when the updated note links it, and leaves all its other links and fields alone |
| Notes.ReplaceByIdSpec | src/hooks/useNotes.ts:194-198 | replacement keeps the ids in order, changes only notes with the updated id, and is the identity for an unknown id |
| Notes.UpdateTouchesOnlyLinks | src/hooks/useNotes.ts:193-213 | after an update every other note keeps all its fields, and its links change at most in the updated note's id |
| Notes.UpdatePreservesSymmetry | src/hooks/useNotes.ts:193-213 | an update turns a store with bidirectional links into one with bidirectional links |
| Notes.PurgeRemoves | src/hooks/useNotes.ts:217-223 | after a delete no note has the deleted id and none links it |
| Notes.PurgeIds | src/hooks/useNotes.ts:217-223 | a delete keeps exactly the notes with other ids, in their original order |
| Notes.PurgeKeepsFields | src/hooks/useNotes.ts:219-222 | a delete changes no surviving note's fields other than its links |
| Notes.PurgePreservesSymmetry | src/hooks/useNotes.ts:215-225 | a delete keeps links bidirectional |
| Notes.CreatePreservesSymmetry | src/hooks/useNotes.ts:175-191 | a create keeps links bidirectional when no note already links the fresh id |
| Notes.InitialNotesNotSymmetric | src/hooks/useNotes.ts:43 | the seeded notes are not bidirectional (Arrays links Linked Lists, not the reverse), and saving Arrays unchanged repairs that |
| SupabaseNotes.PersistedNoteStore.constructor | src/hooks/useSupabaseNotes.ts:22-24 | the store starts empty, with nothing selected, loading |
| SupabaseNotes.PersistedNoteStore.FetchNotes | src/hooks/useSupabaseNotes.ts:27-48 | with a user and a successful query the rows (none for a null reply) replace the list and loading stops; otherwise nothing changes |
| SupabaseNotes.PersistedNoteStore.CreateNote | src/hooks/useSupabaseNotes.ts:54-88 | without a user or on an insert error, null and no change; otherwise the stored blank row is prepended and selected |
| SupabaseNotes.PersistedNoteStore.CreateAINote | src/hooks/useSupabaseNotes.ts:130-163 | as create, with the "ai-generated" tag, the AI flag and the source recorded, and the selection left alone |
| SupabaseNotes.PersistedNoteStore.UpdateNote | src/hooks/useSupabaseNotes.ts:90-113 | on success the row with the id is replaced and selected; on error nothing changes |
| SupabaseNotes.PersistedNoteStore.DeleteNote | src/hooks/useSupabaseNotes.ts:115-128 | on success the row is dropped and the selection cleared; on error nothing changes |
| SupabaseNotes.ReplaceRowOnlyMatching | src/hooks/useSupabaseNotes.ts:109-111 | a persisted update changes only the row with the updated id |
| SupabaseNotes.DropRowSpec | src/hooks/useSupabaseNotes.ts:126 | a persisted delete keeps exactly the other rows, unchanged and in their order, and is the identity for an unknown id |
| SupabaseNotes.UpdateDoesNotMirror | src/hooks/useSupabaseNotes.ts:90-113 | unlike the in-memory store, a persisted update can leave links one-sided |
| SearchBar.SearchResults | src/components/SearchBar.tsx:24-28 | never more than eight results |
| SearchBar.BlankQueryNoResults | src/components/SearchBar.tsx:24 | a blank or whitespace-only query lists nothing |
| SearchBar.ResultsMatch | src/components/SearchBar.tsx:24-28 | every result is a note that matches the query, and the results keep the notes' order |
| SearchBar.ResultsComplete | src/components/SearchBar.tsx:24-28 | for a non-blank query the results are the first eight matching notes; with fewer than eight, every match is listed |
| SearchBar.AnyTagContainsIff | src/components/SearchBar.tsx:27 | `some` over the tags holds exactly when some lower-cased tag contains the query |
| SearchBar.MatchIgnoresQueryCase | src/components/SearchBar.tsx:25-27 | matching ignores the case of the query |
| SearchBar.CursorInRange | src/components/SearchBar.tsx:45-52 | the arrow keys keep the cursor inside the list and wrap at both ends |
| SearchBar.UpUndoesDown | src/components/SearchBar.tsx:45-52 | ArrowUp undoes ArrowDown |
| SearchBar.DownUndoesUp | src/components/SearchBar.tsx:45-52 | ArrowDown undoes ArrowUp |
| SearchBar.SearchBox.constructor | src/components/SearchBar.tsx:20-21 | the list starts closed with the cursor on the first result |
| SearchBar.SearchBox.Type | src/components/SearchBar.tsx:75 | typing replaces the query and leaves the list and the cursor alone |
| SearchBar.SearchBox.KeyDown | src/components/SearchBar.tsx:41-65 | nothing happens while the list is closed or empty; the arrows move the cursor cyclically; Enter picks the note under the cursor, closes the list and clears the query; Escape closes the list |
| SearchBar.SearchBox.ClickResult | src/components/SearchBar.tsx:90-94 | a click picks that matching note, closes the list and clears the query |
| SearchBar.SearchBox.Focus | src/components/SearchBar.tsx:76 | focusing opens the list |
| SearchBar.SearchBox.ClickOutside | src/components/SearchBar.tsx:30-39 | a mouse-down outside closes the list |
| NoteEditor.WithTagSpec | src/components/NoteEditor.tsx:70-75 | "add tag" appends exactly the trimmed input when it is non-blank and new, and nothing otherwise |
| NoteEditor.WithTagNoDup | src/components/NoteEditor.tsx:70-75 | adding tags never creates a duplicate |
| NoteEditor.RemoveUndoesAddTag | src/components/NoteEditor.tsx:70-79 | removing a tag just added restores the list |
| NoteEditor.AvailableNotesSpec | src/components/NoteEditor.tsx:96 | the linkable notes are exactly those that are neither the edited note nor already linked, in order |
| NoteEditor.LinkingHidesNote | src/components/NoteEditor.tsx:81-96 | linking a note hides it from the offered notes; unlinking it offers it again |
| NoteEditor.SavedRecordKeepsRest | src/components/NoteEditor.tsx:56-64 | the saved record is the note with exactly the six form fields overwritten; saving unchanged fields returns the note |
| NoteEditor.Editor.constructor | src/components/NoteEditor.tsx:25-39 | the form starts empty, in the Arrays folder, in progress, with every panel closed |
| NoteEditor.Editor.LoadNote | src/components/NoteEditor.tsx:41-51 | a note is copied into the six form fields and editing stops; no note keeps the form; no other field changes |
| NoteEditor.Editor.Save | src/components/NoteEditor.tsx:53-68 | with no note nothing is emitted; otherwise the rebuilt record is emitted and editing stops; nothing else changes |
| NoteEditor.Editor.AddTag | src/components/NoteEditor.tsx:70-75 | the tags become the accepted input appended, and the input is cleared only when accepted; no other field changes |
| NoteEditor.Editor.RemoveTag | src/components/NoteEditor.tsx:77-79 | every occurrence of the tag is removed; no other field changes |
| NoteEditor.Editor.AddLink | src/components/NoteEditor.tsx:81-86 | the id is appended if absent and the selector closes; no other field changes |
| NoteEditor.Editor.RemoveLink | src/components/NoteEditor.tsx:88-90 | every occurrence of the id is removed; no other field changes |
| NoteEditor.Editor.AIAssist | src/components/NoteEditor.tsx:99-115 | the answer fills the result and its editable copy; a failure shows the fixed message; loading ends off; the form fields, the query and the panels do not change |
| NoteEditor.Editor.InsertAIResult | src/components/NoteEditor.tsx:117-124 | the edited answer is appended to the content on a new line and the assistant panel is reset; nothing else changes |
| GraphView.FilterByFolderSpec | src/components/GraphView.tsx:22-24 | "all" shows every note; any other folder shows exactly its notes, in order |
| GraphView.StatusColorSpec | src/components/GraphView.tsx:59-67 | AI-generated notes are purple; each stored status has its own non-grey colour; only an unknown status is grey |
| GraphView.LabelSpec | src/components/GraphView.tsx:110 | a title of at most 15 characters is its own label; a longer one is cut to 15 characters plus "...", 18 in all |
| GraphView.FindNode | src/components/GraphView.tsx:76-77 | `find` gives the first node with the id, or none when no node has it |
| GraphView.EdgesFromSpec | src/components/GraphView.tsx:75-84 | the edges drawn from a note start at it and end at linked ids that have nodes |
| GraphView.EdgesSpec | src/components/GraphView.tsx:74-85 | an edge is drawn exactly for a shown note and one of its links whose ends both have nodes |
| GraphView.NodesFound | src/components/GraphView.tsx:47-57 | the nodes stand for exactly the shown notes |
| GraphView.FirstHit | src/components/GraphView.tsx:122-126 | the click lands on the first node within distance 14, or on none when no node is that close |
| GraphView.FindNote | src/components/GraphView.tsx:129 | the note found is the first note with the id; none is found only when no note has it |
| GraphView.ClickTargetSpec | src/components/GraphView.tsx:117-131 | a click selects the first note with the id of the first node within reach; it selects a note whenever that id is among the notes; with no node in reach it selects nothing |
| GraphView.Render | src/components/GraphView.tsx:26-115 | something is drawn exactly when the canvas, its container and the 2D context exist, with one node per shown note |
| StudyPlanGenerator.Topics | src/components/StudyPlanGenerator.tsx:155-159 | a level has six or seven topics |
| StudyPlanGenerator.Difficulties | src/components/StudyPlanGenerator.tsx:173-175 | a level's difficulty cycle has three or four entries |
| StudyPlanGenerator.FallbackPlanSpec | src/components/StudyPlanGenerator.tsx:166-213 | the built-in plan has one entry per day, entry `i` being day `i + 1` |
| StudyPlanGenerator.CreateDetailedStructuredPlan | src/components/StudyPlanGenerator.tsx:153-216 | the loop builds exactly the built-in plan of `max(days, 0)` days |
| StudyPlanGenerator.BreakDaySpec | src/components/StudyPlanGenerator.tsx:167-212 | every seventh day is a break day with no topics, problems, resources or revision; a working day has one topic, three subtopics and two resources |
| StudyPlanGenerator.RevisionSpec | src/components/StudyPlanGenerator.tsx:168-193 | a day has a revision note exactly when it is a multiple of 4 or 5 and not a break day, and never more than one |
| StudyPlanGenerator.ProblemCountSpec | src/components/StudyPlanGenerator.tsx:172-192 | a working day has `min(5 + day/5, 15)` problems, between 5 and 15, which are the day's practice problems on its topic |
| StudyPlanGenerator.ProblemSpec | src/components/StudyPlanGenerator.tsx:185-192 | problem `i` cycles through the level's difficulties, is on the chosen platform, lists the topic, and is allotted `15+5i` to `25+5i` minutes |
| StudyPlanGenerator.TopicIndexInRange | src/components/StudyPlanGenerator.tsx:169-170 | the topic index is always below the number of topics, so the clamp never fires |
| StudyPlanGenerator.TopicIndexMonotone | src/components/StudyPlanGenerator.tsx:169 | topics never go back: a later day's topic index is at least an earlier day's |
| StudyPlanGenerator.FirstBeginnerDay | src/components/StudyPlanGenerator.tsx:155-193 | day 1 of a beginner plan covers "Arrays & Strings" with five problems, Easy, Easy, Medium, Easy, ..., and no revision |
| StudyPlanGenerator.WeekCheckboxes | src/components/StudyPlanGenerator.tsx:256 | one progress line per week |
| StudyPlanGenerator.TotalProblemsSnoc | src/components/StudyPlanGenerator.tsx:272 | the problem total grows by each added day's problem count |
| StudyPlanGenerator.SaveRequestSpec | src/components/StudyPlanGenerator.tsx:218-283 | a non-empty plan of `n` days is saved under "Study Plans" with the title "`n`-Day `level` DSA Study Plan" and `ceil(n/7)` week checkboxes |
| StudyPlanGenerator.EmptyPlanNotSaved | src/components/StudyPlanGenerator.tsx:219 | an empty plan is not saved |
| StudyPlanGenerator.ThirtyDaysFiveWeeks | src/components/StudyPlanGenerator.tsx:256 | the default 30-day duration is tracked over five weeks |
| StudyPlanGenerator.PlanGenerator.constructor | src/components/StudyPlanGenerator.tsx:41-48 | a 30-day duration, no level, hours or platform, and no plan |
| StudyPlanGenerator.DurationOptionsSpec | src/components/StudyPlanGenerator.tsx:315-317 | the duration options read as 30, 60 and 90 days and are tracked over `ceil(d/7)` weeks |
| StudyPlanGenerator.PlanGenerator.SetDuration | src/components/StudyPlanGenerator.tsx:310-317 | a chosen option becomes the duration, which then parses to a positive number of days; nothing else changes |
| StudyPlanGenerator.PlanGenerator.SetLevel | src/components/StudyPlanGenerator.tsx:324-330 | a chosen level is set, so the level is no longer missing; nothing else changes |
| StudyPlanGenerator.PlanGenerator.SetHoursPerDay | src/components/StudyPlanGenerator.tsx:340-347 | the typed text becomes the hours; nothing else changes |
| StudyPlanGenerator.PlanGenerator.SetPlatform | src/components/StudyPlanGenerator.tsx:352-360 | a chosen platform is set, so the platform is no longer missing; nothing else changes |
| StudyPlanGenerator.PlanGenerator.Generate | src/components/StudyPlanGenerator.tsx:52-151 | a missing level, hours or platform changes nothing; a failed call keeps the plan; a parsed JSON array is taken; otherwise the built-in plan for the parsed duration is taken; only the plan changes |
| StudyPlanGenerator.PlanGenerator.Save | src/components/StudyPlanGenerator.tsx:218-283 | saving asks for the note that the save request describes, or for nothing when the plan is empty |
| StudyPlanManager.DurationMatchSpec | src/components/StudyPlanManager.tsx:61-64 | the captured digits are those of the leftmost digit run followed by "-Day"; no match means there is no such run |
| StudyPlanManager.ExtractDurationOfTitle | src/components/StudyPlanManager.tsx:61-64 | round trip: a title saved for a plan of `d` days reads back as "`d` days" |
| StudyPlanManager.NoDigitsNoDuration | src/components/StudyPlanManager.tsx:61-64 | a title without digits reads back as "Unknown" |
| StudyPlanManager.ExtractLevelSpec | src/components/StudyPlanManager.tsx:66-74 | the levels are tried in order, Beginner, Intermediate, then Advanced, case-insensitively, else "Unknown" |
| StudyPlanManager.ExtractLevelOfTitle | src/components/StudyPlanManager.tsx:66-74 | round trip: a title saved for a selectable level reads back as that level, capitalised |
| StudyPlanManager.FirstLevelInUnknown | src/components/StudyPlanManager.tsx:66-74 | a title naming no level reads back as "Unknown" |
| StudyPlanManager.LevelInLowerTitle | src/components/StudyPlanManager.tsx:69 | the lower-cased level occurs in the lower-cased saved title |
| StudyPlanManager.PlanList.constructor | src/components/StudyPlanManager.tsx:22-25 | no plans listed, loading |
| StudyPlanManager.PlanList.Load | src/components/StudyPlanManager.tsx:33-59 | with a user and rows, each fetched note is listed with its parsed duration and level, in order, and loading stops; otherwise nothing changes |
| StudyPlanManager.PlanList.DeletePlan | src/components/StudyPlanManager.tsx:76-96 | on success exactly the plans with other ids remain, in order; on error nothing changes |
| UserProfile.ImageUploadSpec | src/components/UserProfile.tsx:34-62 | a file is uploaded, unchanged, exactly when it is at most 5 MiB and of an accepted image type; size is checked before type |
| UserProfile.SizeBoundary | src/components/UserProfile.tsx:39 | exactly 5 MiB passes the size check and one byte more does not |
| UserProfile.CheckPasswordSpec | src/components/UserProfile.tsx:74-90 | a change passes exactly when both entries agree and have at least six characters; a mismatch is reported first |
| UserProfile.ProfileForm.constructor | src/components/UserProfile.tsx:20-25 | the form starts with the profile's names, or empty ones, and empty passwords |
| UserProfile.ProfileForm.SyncProfile | src/components/UserProfile.tsx:27-32 | a loaded profile's names are copied in, missing ones as empty; no profile keeps the form |
| UserProfile.ProfileForm.UpdateProfile | src/components/UserProfile.tsx:64-71 | both names are sent as they stand and `updating` ends off |
| UserProfile.ProfileForm.ChangePassword | src/components/UserProfile.tsx:73-115 | a refused change sends nothing and changes nothing; otherwise exactly the new password is sent, never the current one; a sent change clears the three password fields only on success; `updating` ends off |
| PlanConfigurator.ToggleSpec | src/components/PlanConfigurator.tsx:12-16 | a chip click flips that difficulty and leaves the others |
| PlanConfigurator.ToggleNoDup | src/components/PlanConfigurator.tsx:12-16 | a click keeps the selection duplicate-free |
| PlanConfigurator.ToggleTwice | src/components/PlanConfigurator.tsx:12-16 | clicking an unchosen chip twice restores the selection |
| PlanConfigurator.ToggleAllNoDup | src/components/PlanConfigurator.tsx:10-16 | any run of clicks from a duplicate-free selection leaves one of at most three difficulties |
| PlanConfigurator.NoDupAtMostThree | src/components/PlanConfigurator.tsx:5 | a duplicate-free selection holds at most the three difficulties |
| PlanConfigurator.Configurator.constructor | src/components/PlanConfigurator.tsx:8-10 | eight weeks, fifteen hours a week, Easy and Medium chosen |
| PlanConfigurator.Configurator.SetWeeks | src/components/PlanConfigurator.tsx:22 | the weeks slider sets a value in 4..26 and changes nothing else |
| PlanConfigurator.Configurator.SetHours | src/components/PlanConfigurator.tsx:26 | the hours slider sets a value in 5..40 and changes nothing else |
| PlanConfigurator.Configurator.ToggleDifficulty | src/components/PlanConfigurator.tsx:12-16 | a chip click applies the toggle and keeps the selection duplicate-free |
| PlanConfigurator.Configurator.Generate | src/components/PlanConfigurator.tsx:49-51 | the preferences handed on are within the slider ranges, with at most three distinct difficulties |
| HuggingFaceGenerate.ExtractGeneratedText | supabase/functions/huggingface-generate/index.ts:74-101 | the answer is read, stripped of an echoed prompt and given the fallback, and always has at least ten characters |
| HuggingFaceGenerate.ReadAnswer | supabase/functions/huggingface-generate/index.ts:74-88 | the probing of the reply formats gives the extracted answer |
| HuggingFaceGenerate.StripPrompt | supabase/functions/huggingface-generate/index.ts:91-96 | the clean-up gives the stripped answer |
| HuggingFaceGenerate.ApplyFallback | supabase/functions/huggingface-generate/index.ts:99-101 | the fallback gives an answer of at least ten characters |
| HuggingFaceGenerate.ExtractedSpec | supabase/functions/huggingface-generate/index.ts:77-88 | the read answer is trimmed; an array is read through its first element; a truthy `generated_text` is taken, else a truthy `text`; an empty array or no truthy field gives nothing |
| HuggingFaceGenerate.StrippedSpec | supabase/functions/huggingface-generate/index.ts:91-96 | with the prompt in the answer, the result is the trimmed rest after its first occurrence and is shorter; otherwise the answer is kept |
| HuggingFaceGenerate.WithFallbackSpec | supabase/functions/huggingface-generate/index.ts:99-101 | an answer of ten or more characters is kept; a shorter one is replaced by the educational text quoting the prompt |
| HuggingFaceGenerate.FallbackTextsLong | supabase/functions/huggingface-generate/index.ts:59-113 | the three fallback texts all have at least ten characters |
| HuggingFaceGenerate.EducationalTextQuotesPrompt | supabase/functions/huggingface-generate/index.ts:100 | the fallback text quotes the prompt |
| HuggingFaceGenerate.LoadingTextQuotesPrompt | supabase/functions/huggingface-generate/index.ts:59 | the loading text quotes the prompt |
| HuggingFaceGenerate.UpstreamAnswerSpec | supabase/functions/huggingface-generate/index.ts:53-124 | every answer has status 200 and at least ten characters; the error field is absent exactly for a 503 or a parsed 2xx reply |
| HuggingFaceGenerate.HandleRequestSpec | supabase/functions/huggingface-generate/index.ts:9-125 | every POST gets status 200 and a non-empty text; a missing prompt is reported before a missing key; the error is absent exactly when both are present and the reply is a 503 or a parsed 2xx |
| TavilySearch.BuildContent | supabase/functions/tavily-search/index.ts:43-56 | the report accumulated with `+=` is the header, the summary when there is an answer, and the numbered sources when there are hits |
| TavilySearch.ContentStartsWithHeader | supabase/functions/tavily-search/index.ts:43 | the report starts with the header, and is only the header with no answer and no hits |
| TavilySearch.SummaryAfterHeader | supabase/functions/tavily-search/index.ts:45-50 | the summary follows the header exactly when the answer is truthy; otherwise the sources heading does when there are hits |
| TavilySearch.EntriesAreNumberedHits | supabase/functions/tavily-search/index.ts:51-55 | the entries are the hits' blocks in input order, hit `i` numbered `i + 1` |
| TavilySearch.HandleRequestSpec | supabase/functions/tavily-search/index.ts:9-73 | a POST gets the report exactly when the query is present and the search succeeded with a parsable body, and a 400 otherwise; a missing query is reported first |

## Left out

- I/O is not modelled: every database query, insert, update and delete, the authentication
  service, the assistant and search services, and React rendering. Each call's outcome is a
  parameter, and the toasts that report outcomes are not modelled.
- Asynchrony and interleaving of React state updates are not modelled. Each handler runs to
  completion on the state it starts from.
- `fetchQuestions` in src/hooks/useNotes.ts builds a remote query and returns its rows. It is
  not modelled because it has no local logic.
- The `groq-chat` server function is not part of this model. Its reply enters the generator
  and the editor as a parameter.
- Floating-point values are inputs:
  - the hour figures `Math.floor(hours * 0.3)` and the like, as `HourSplit`;
  - the graph's circular layout, as node positions;
  - the click distance, compared squared on integers.
- The fallback-plan loop has no cap on `days`, and neither does the model.
- Regular-expression JSON extraction and `JSON.parse` are not modelled. The generator receives
  the reply already classified: failed call, no array, an array that does not parse, or a
  parsed plan.
- JSON bodies of the server functions arrive parsed. A field that is not a string is treated as
  absent. The `undefined` or `null` text that JavaScript would interpolate for a missing search
  field is not modelled.
- Strings are sequences of Unicode scalar values. JavaScript `length` counts UTF-16 code units,
  so lengths differ for characters outside the Basic Multilingual Plane.
- `toLowerCase`/`toUpperCase` are modelled on ASCII letters only. The whitespace set of `trim`
  and `\s` is the common ASCII and Unicode space characters, not every Unicode space separator.
- The notes' markdown bodies, ids from `Date.now()` and the dates are parameters.
- The rendering of the saved plan note is not modelled beyond its title, heading, week
  checkboxes and problem total: the per-day markdown text is not modelled.
- `note.content || ''` and `note.created_at || ''` in the saved-plans list are not modelled,
  because rows carry strings.
- DynamicPlan.Tally, DynamicPlan.Summarize: the counters are plain JavaScript objects, so a key that
  names an inherited `Object.prototype` member is not counted as the model counts it: a topic
  "constructor" stores a string built from the inherited function instead of 1, and the key
  "__proto__" is never stored. The model counts every key as an ordinary map entry.
- StudyPlanGenerator.PlanGenerator.Generate: the prompt text sent to the assistant and the
  `loading` flag are not modelled.
- UserProfile.ProfileForm.ChangePassword: the service's error message, shown in a toast, is not
  modelled; only whether the update succeeded.
- GraphView.Render: the canvas resizing, the hover cursor and the event-listener clean-up are
  not modelled.
