# Local Prompt Chains Vault (PromptHub), modelled in Dafny

This project models the core of the browser extension Local Prompt Chains Vault,
earlier called PromptHub. The extension keeps prompts and prompt chains in local
storage and inserts them into the text box of the page the user is on. Both
generations of its scripts are modelled side by side:

- **`build/`** is the current, hardened version.
  - `utils.js`: the validators and the angle-bracket sanitizer.
  - `storage.js`: the validated store.
  - `content.js`: the content script that finds a target element and splices the text into it.
  - `background.js`: the context menu and its click handler.
- **The top-level files** are the earlier version:
  - `storage.js`, `content.js` and `background.js`, which do no validation.
  - The three pages: `settings.js` (per-site CSS selector configurations), `panel.js` (the side panel, with the raw-chain importer, the chain builder and chain stepping) and `popup.js`.

| file | modules | form |
|---|---|---|
| seqs.dfy | `Seqs` | generic list functions: filter, count, find-by-key, upsert, de-duplication, stable insertion sort, indexed fold |
| text.dfy | `Text` | JavaScript string builtins: `trim` with the JavaScript whitespace set, ASCII `toLowerCase`, `indexOf`/`split`/`join`, `parseInt`, decimal printing, truncation |
| records.dfy | `Records` | prompts, chains and selectors as stored: each field missing, a string, or another JavaScript value; the error codes |
| validator.dfy | `Validator` | `build/utils.js` as functions returning the ordered error lists, plus the imperative `validateChain` |
| store.dfy | `Storage`, `StorageFacts` | `build/storage.js` as class `Store`, which holds the three stored lists as `seq` fields |
| legacy_store.dfy | `LegacyStorage`, `LegacyStorageFacts` | `storage.js` as class `LegacyStore` |
| dom.dfy | `Dom`, `DomFacts` | page elements as a class whose value and selection the insertion updates |
| content.dfy, content_facts.dfy | `Content`, `ContentFacts` | `build/content.js`: selector loading, domain matching, control-character stripping, and the ordered target search with early return |
| legacy_content.dfy | `LegacyContent`, `LegacyContentFacts` | `content.js` |
| menu.dfy | `Menu`, `MenuFacts` | `build/background.js`: the menu plan as a function, and the click handler |
| legacy_menu.dfy | `LegacyMenu`, `LegacyMenuFacts` | `background.js`: the menu as a `seq` field, the removal and creation loops, and the click handler |
| settings.dfy | `Settings`, `SettingsFacts` | `settings.js`: class `SelectorSettings` |
| views.dfy | `ChainViews`, `ChainViewsFacts` | helpers shared by the panel and the popup: preview, step label, chain copy |
| panel.dfy | `Panel`, `PanelFacts` | `panel.js`: the raw-chain import loop, the drag-and-drop reorder, chain stepping |
| popup.dfy | `Popup`, `PopupFacts` | `popup.js`: tabs, search and chain start |

Several inputs are parameters of the operations rather than modelled behaviour:

- The storage area is the fields of the `Store` and `LegacyStore` classes.
- `Date.now()` is `now`. The random part of fresh ids is an oracle `stamp` or `stamps(k)`.
- The browser's CSS parser is a predicate `cssParses`, and which elements a selector matches is a predicate of the page.
- The content script's answer to a message is a `Delivery` value: success, a falsy answer, no receiving end, or another messaging error.
- The active tab is an `Option<nat>`.
- A confirmation dialog's answer is a `bool`.

## Model

| member | source | states |
|---|---|---|
| Text.Trim | build/utils.js:54-66 | `trim()`: the result is no longer than the text and neither starts nor ends with whitespace |
| Text.TrimEmptyIffBlank | build/utils.js:54-57 | the trimmed text is empty exactly when the text is whitespace only |
| Text.TrimIdempotent | panel.js:256-281 | trimming an already trimmed text changes nothing |
| Text.ToLower | build/storage.js:316-321 | `toLowerCase()` keeps the length and lowers each character |
| Text.Find | panel.js:268-269 | the first occurrence of the delimiter, and none before it |
| Text.SplitJoin | panel.js:268-269 | `split` on a non-empty delimiter loses nothing: joining the pieces with it gives the text back |
| Text.SplitPiecesFree | panel.js:268-269 | no piece of the split contains the delimiter |
| Text.StripPrefix | build/background.js:202-203 | `replace('prompt-', '')` on `'prompt-' + id` gives the id back |
| Text.ParseIntRoundTrip | settings.js:62 | `parseInt` of a number's decimal text gives the number |
| Text.ParseIntDefined | settings.js:62-65 | `parseInt` gives a number exactly when a digit, possibly after white space and one sign, starts the text; otherwise NaN |
| Text.ParseIntSeesNumberStart | settings.js:62 | `parseInt` is a number exactly when a number starts where the leading white space ends |
| Text.NumberAfterSpace | settings.js:62 | a number starts after some white space exactly when it starts where trimStart stops |
| Text.TruncateBound | build/background.js:141 | a title cut to `keep` characters plus "..." is never longer than the limit, and is unchanged exactly when it fits |
| Seqs.Upsert | build/storage.js:134-145 | findIndex then replace or push: the record is in the result, a known key keeps the length, an unknown one is appended, and records with other keys are unchanged |
| Seqs.UpsertReplacesFirst | build/storage.js:134-139 | a known key replaces the first record with it, in place |
| Seqs.Dedupe | build/content.js:459 | `[...new Set(elements)]`: every element once, each of them from the list |
| Seqs.SortDescSorted | build/content.js:142-150 | the priority sort gives a list in descending order of the key |
| Seqs.SortDescStable | build/content.js:142-150 | the sort is stable: records of equal key keep their order |
| Validator.TextFaults | build/utils.js:51-72 | a text field yields at most one problem, for that field: "required" when it is not a string, "empty" when it is blank after trimming, and no problem exactly when its trimmed length is 1..limit |
| Validator.PromptIssues | build/utils.js:42-75 | a missing prompt gives only "Prompt data is required"; otherwise at most a title problem followed by a content problem, and none exactly when the trimmed title is 1..100 and the trimmed content 1..10000 characters |
| Validator.StepFaults | build/utils.js:105-111 | one "Step n has invalid ID" per step that is not a non-empty string, numbered from 1, in increasing order, and for every such step |
| Validator.StepFaultsEmpty | build/utils.js:105-111 | no step problem exactly when every step ID is a non-empty string |
| Validator.StepsIssues | build/utils.js:98-112 | the steps pass exactly when they are an array of 1..20 non-empty strings; step IDs are examined only when the count is within 1..20 |
| Validator.ChainIssues | build/utils.js:77-115 | a missing chain gives "Chain data is required"; no problem exactly when the chain is accepted; a bad-step problem implies the steps are an array of 1..20 entries |
| Validator.CheckStepIds | build/utils.js:105-111 | the forEach loop pushes exactly the step problems StepFaults describes |
| Validator.ValidateChain | build/utils.js:77-115 | the imperative validator pushes exactly ChainIssues |
| Validator.CssFaults | build/utils.js:137-153 | at most one CSS problem, none exactly when the selector is text of trimmed length 1..500 that the browser parses |
| Validator.SelectorIssues | build/utils.js:117-164 | a missing selector gives one problem; at most three problems otherwise; none exactly when pattern, CSS and priority are all accepted |
| Validator.SearchQueryIssue | build/utils.js:166-174 | the query is accepted exactly when it is a string of at most 200 characters |
| Validator.SanitizeText | build/utils.js:195-198 | the result holds no '<' or '>' and is never longer than the input; a non-string gives '' |
| Validator.SanitizeTextProperties | build/utils.js:195-198 | every other character is kept with its count and in its order, the text is unchanged exactly when it has no angle bracket, and sanitizing twice equals sanitizing once |
| Storage.ReadsKeepExactlyValidPrompts | build/storage.js:10-33 | getPrompts keeps, in stored order, exactly the stored prompts validatePrompt accepts |
| Storage.ReadsKeepExactlyValidChains | build/storage.js:39-62 | getChains keeps, in stored order, exactly the stored chains validateChain accepts |
| Storage.ReadsKeepExactlyValidSelectors | build/storage.js:364-388 | getDomainSelectors keeps, in stored order, exactly the selectors validateDomainSelector accepts |
| Storage.PromptById | build/storage.js:69-86 | an id that is not a non-empty string is INVALID_PROMPT_ID; otherwise the prompt found is a valid stored prompt with that id, and none is found only when no valid prompt has it |
| Storage.ChainById | build/storage.js:88-105 | the same for chains, with INVALID_CHAIN_ID |
| Storage.PromptIds | build/storage.js:176-177 | the set of known ids holds exactly the id of each valid prompt |
| Storage.StripStep | build/storage.js:251-254 | a chain keeps id, title and timestamps; its steps lose every occurrence of the deleted id and keep the others in order |
| Storage.SearchPrompts | build/storage.js:308-335 | a rejected query is INVALID_SEARCH_QUERY; a blank query gives every valid prompt; otherwise exactly the valid prompts whose lower-cased title or content contains the trimmed, lower-cased query, in stored order |
| Storage.SearchChains | build/storage.js:337-362 | the same for chains, matched on the title |
| Storage.Store.constructor | build/storage.js:12-13 | an empty storage area reads as three empty lists |
| Storage.Store.SavePrompt | build/storage.js:107-158 | an invalid prompt is PROMPT_VALIDATION_ERROR with nothing written; otherwise the cleaned prompt is pushed, or replaces the first valid prompt with its id, over the valid list, and is returned |
| Storage.Store.SaveChain | build/storage.js:164-227 | CHAIN_VALIDATION_ERROR, then INVALID_CHAIN_STEPS for a step naming no valid prompt, both with nothing written; otherwise the chain with its cleaned title is pushed or replaces the first with its id |
| Storage.Store.DeletePrompt | build/storage.js:233-275 | INVALID_PROMPT_ID, then PROMPT_NOT_FOUND, with nothing written; otherwise the valid prompts without that id are written and every valid chain loses that step |
| Storage.Store.DeleteChain | build/storage.js:281-302 | INVALID_CHAIN_ID, then CHAIN_NOT_FOUND, with nothing written; otherwise the valid chains without that id are written |
| Storage.CheckSelectors | build/storage.js:401-409 | the for-of loop accepts exactly when every selector passes validateDomainSelector |
| Storage.Store.SaveDomainSelectors | build/storage.js:394-423 | a non-array is INVALID_SELECTORS, one failing selector is SELECTOR_VALIDATION_ERROR, both with nothing written; otherwise every selector is stored with trimmed and sanitized pattern and CSS |
| Storage.Store.ImportPrompts | build/storage.js:510-521 | every entry counts as imported or skipped, the imported ones are exactly those savePrompt accepts, and the prompts are those the saves leave in turn |
| Storage.Store.ImportChains | build/storage.js:523-534 | the same for chains, checked against the prompts after the prompt import |
| Storage.Store.ImportData | build/storage.js:493-546 | missing data is INVALID_IMPORT_DATA with nothing written; otherwise prompts and then chains are imported one by one, and the selectors are imported all or none, each stored one the cleaned imported entry at its index |
| StorageFacts.SavePromptEffect | build/storage.js:118-146 | the saved prompt is in the new list with cleaned title and content and `updated` set to now; a prompt without id gets `prompt_<stamp>` and is appended; an unknown id is appended under that id |
| StorageFacts.SavePromptReplacesFirst | build/storage.js:134-139 | a known id replaces the first valid prompt with it, keeping its `created` when set |
| StorageFacts.CleanProperties | build/storage.js:118-122 | a cleaned field is a string without angle brackets, no longer than the trimmed text, and equal to it when it had none |
| StorageFacts.SavedPromptsValid | build/storage.js:124-151 | when the saved prompt is still valid, a later getPrompts drops nothing from the written list |
| StorageFacts.SaveThenGetPrompt | build/storage.js:69-158 | a saved prompt that stays valid is found again by getPromptById under its id |
| StorageFacts.AngleTitleVanishes | build/storage.js:109-122 | the title "<>" passes validation but is cleaned to "", so the saved prompt is invisible to every later read |
| StorageFacts.SavedChainSteps | build/storage.js:174-190 | a saved chain keeps its steps, each of which names a valid prompt |
| StorageFacts.DeletePromptCascade | build/storage.js:240-263 | after a deletion no prompt and no chain step carries the id, and every other step keeps its count |
| StorageFacts.EmptiedChainDropped | build/storage.js:249-263 | a chain whose only steps were the deleted prompt stays in storage with no steps and so disappears from later reads |
| StorageFacts.SearchIgnoresQueryCase | build/storage.js:308-362 | lower-casing the query beforehand changes no search result |
| StorageFacts.CleaningDropsChildCombinator | build/storage.js:414-418 | the selector "a > b" is stored as "a  b": sanitizing drops the child combinator |
| StorageFacts.SanitizeDropsAngle | build/utils.js:195-198 | a '>' between angle-free texts is removed and nothing else changes |
| LegacyStorage.LegacyPromptById | storage.js:33-36 | the prompt found is a stored prompt with that id; null exactly when no stored prompt has it |
| LegacyStorage.LegacyChainById | storage.js:43-46 | the same for chains |
| LegacyStorage.FilterPromptsByTerm | storage.js:148-151 | the filter throws only a TypeError (a title or content that is not a string); otherwise it keeps, in order, stored prompts that contain the term |
| LegacyStorage.LegacySearchPrompts | storage.js:144-152 | a falsy query gives every stored prompt, a non-string query a TypeError; otherwise a sublist of prompts matching the lower-cased query |
| LegacyStorage.FilterChainsByTerm | storage.js:165-167 | the same filter on chain titles |
| LegacyStorage.LegacySearchChains | storage.js:160-168 | the same search on chains |
| LegacyStorage.LegacyStripStep | storage.js:118-121 | the chain keeps id and title, and its steps lose every occurrence of the id and keep the rest in order |
| LegacyStorage.LegacyStore.constructor | storage.js:9-27 | an empty storage area reads as empty lists |
| LegacyStorage.LegacyStore.SavePrompt | storage.js:53-72 | the prompt, given `prompt_<now>` and `created` when it had no id, is pushed or replaces the first prompt with its id, with no validation |
| LegacyStorage.LegacyStore.SaveChain | storage.js:79-98 | the same for chains |
| LegacyStorage.LegacyStore.DeletePrompt | storage.js:105-122 | a chain whose steps are not an array makes it throw with nothing written; otherwise the prompts without the id are written and every chain loses that step |
| LegacyStorage.LegacyStore.DeleteChain | storage.js:133-139 | always true; the chains without the id are written |
| LegacyStorageFacts.LegacySaveUpsert | storage.js:53-72 | the saved prompt is in the list, prompts with other ids are untouched, a known id keeps the length, and a new one is appended |
| LegacyStorageFacts.LegacySaveThenGet | storage.js:33-72 | a saved prompt is found again by its id when its fresh id is unused |
| LegacyStorageFacts.LegacyDeleteLeavesNoTrace | storage.js:105-122 | after a deletion no prompt and no step carries the id, and every other step keeps its count |
| LegacyStorageFacts.LegacyFilterWellFormed | storage.js:148-151 | with string titles and contents the search never throws and is a plain filter |
| LegacyStorageFacts.UntrimmedQueryMisses | storage.js:144-152 | the legacy search does not trim: " a" misses a prompt titled "a" that the current search finds |
| Dom.Element.constructor | build/content.js:342-349 | an element is built with the tag, input type, editability, visibility, value and selection it is given |
| Dom.Matching | build/content.js:196 | the elements a selector matches are page elements it matches, in document order |
| Dom.Query | build/content.js:194-200 | querySelectorAll throws exactly when the selector does not parse, and otherwise returns page elements |
| Dom.Splice | build/content.js:406-411 | `substring(0, start) + text + substring(end)`: the prefix up to the clamped start is kept, the text follows, then the rest after the clamped end |
| Dom.InsertIntoInputElement | build/content.js:402-427 | empty text fails with the element untouched; on a textarea or an input with a selection API the selection is replaced by the text, the caret put after it, and the result is true; on an email input the text is written in front of the value, the selection stays, and the result is false |
| Dom.LegacyInsertIntoInputElement | content.js:101-122 | always succeeds; the field is left as LegacyAfterInsert describes: the selection, whose missing end defaults to its start, replaced by the text and the caret after it |
| Dom.AfterInsert | build/content.js:410-415 | after an insertion the caret is collapsed and inside the new value |
| Dom.LegacyAfterInsert | content.js:101-112 | after the earlier script wrote into a field the caret is collapsed and inside the new value |
| Dom.AttemptIn | build/content.js:199-216 | one attempt changes only the element tried, as Attempt describes |
| Dom.TryInsert | build/content.js:207-216 | an attempt on one element succeeds exactly when it is editable, accepts the text (content-editable, textarea, or an input with a selection API) and the text is non-empty; in every case the element is left as Attempt describes, so an email input is written even though the attempt fails |
| Dom.TryInsertAmong | build/content.js:207-216 | the same attempt, stated over every element of the page: only the element tried may change |
| DomFacts.SpliceReplacesSelection | build/content.js:406-415 | within bounds the new value is the old one with the selection replaced, its length grows by the text minus the selection, and the caret lands after the text |
| DomFacts.FailedInsertPrepends | build/content.js:405-416 | an email input gets the text in front of its value on every attempt, twice after two attempts, and its selection never moves |
| DomFacts.AttemptChanges | build/content.js:207-216 | an attempt changes only an editable input or textarea and only for non-empty text; where it succeeds the selection is replaced, where it fails the text is prepended |
| DomFacts.EmailIsWrittenButFails | build/content.js:342-349 | the elements that are written and still fail are exactly the editable email inputs |
| DomFacts.ScriptsAgreeOnOrderedSelection | content.js:103-112 | for any selection a browser reports (start not after end) the defaults `selectionEnd || 0` and `selectionEnd || selectionStart` agree, so both scripts leave the same value and caret |
| DomFacts.LegacyEditableIsEditable | content.js:55-59 | every element the legacy script finds editable the current one does too, but not an email input |
| Content.Usable | build/content.js:142-150 | the selectors kept on load are exactly those with a truthy pattern and CSS selector |
| Content.Tagged | build/content.js:199-216 | every candidate carries the success message of the stage that found it |
| Content.QueryOrEmpty | build/content.js:193-200 | a selector that throws contributes no element |
| Content.ConfigCandidates | build/content.js:186-222 | the candidates of the matching configurations are page elements, taken config by config in order |
| Content.Discovered | build/content.js:447-456 | the elements found by the nine editable-element selectors are page elements |
| Content.FirstVisible | build/content.js:459-472 | de-duplication and the visibility filter keep only visible elements of the list |
| Content.PossibleEditable | build/content.js:433-477 | findPossibleEditableElements returns visible page elements |
| Content.FirstVisibleIsFilterDedupe | build/content.js:458-472 | the one-pass version equals `[...new Set(elements)].filter(visible)` |
| Content.AllCandidates | build/content.js:186-275 | every candidate tried is a page element or the active element |
| Content.Target | build/content.js:199-275 | the element chosen, when any, is one of the candidates |
| Content.FocusAfter | build/content.js:209-212 | after the loop the focused element is the last editable candidate, or the earlier one when none was editable |
| Content.Tried | build/content.js:206-221 | the candidates tried are a prefix of the list: up to and including the target, or all of them |
| Content.TryNext | build/content.js:207-216 | one turn of the loop: focus the candidate if editable, then try it; success exactly when it accepts the text |
| Content.CandidateStep | build/content.js:206-221 | trying one more candidate extends the elements' states and the focus by that candidate |
| Content.TargetStep | build/content.js:206-221 | when none before it takes the text, the next candidate is the target exactly when it accepts the text |
| Content.TryCandidates | build/content.js:206-221 | the result is the first candidate that accepts the text; every candidate up to it is tried and left as its attempt leaves it (an email input before it is written), the editable ones are focused in turn, and nothing after it is touched |
| Content.FindPossibleEditableElements | build/content.js:433-477 | the loop over the selectors returns exactly PossibleEditable |
| Content.QueryEach | build/content.js:449-456 | the forEach collects the matches of every selector in order, skipping selectors that throw |
| Content.TryConfig | build/content.js:188-221 | one configuration tries the elements its selector finds, as TryCandidates does; a selector that throws tries nothing |
| Content.TryConfigs | build/content.js:185-223 | the configurations are tried in order until one takes the text; the one used names the selector; the elements and the focus are as trying the configured candidates up to the taker leaves them |
| Content.TryDetected | build/content.js:249-272 | the auto-detected elements are tried in order, as TryCandidates does |
| Content.TryActive | build/content.js:228-246 | the focused element (the last editable element the configured stage focused, or the page's) takes the text exactly when it accepts it and the text is non-empty, and is left as its attempt leaves it |
| Content.ContentScript.constructor | build/content.js:9 | the script starts with no selectors |
| Content.ContentScript.LoadDomainSelectors | build/content.js:136-159 | a non-array loads nothing; otherwise the usable selectors, sorted by descending priority (10 when unset) |
| Content.ContentScript.FindMatchingDomainConfigs | build/content.js:301-318 | an empty domain matches nothing; otherwise exactly the loaded selectors whose pattern matches, in loaded order |
| Content.ContentScript.InsertTextAtCursor | build/content.js:164-295 | a non-string or empty text fails with nothing changed; otherwise control characters are stripped, the candidates (configs, focused element, auto-detected) are tried in order until one takes the text, the report is that stage's message or the failure message, and every element is as the attempts left it |
| Content.InsertWith | build/content.js:175-278 | the three stages together report and leave the elements as trying all candidates in order does |
| Content.StageConfigs | build/content.js:185-223 | when a configuration takes the text, it is the target of all candidates and the later stages are not tried |
| Content.StageActive | build/content.js:228-246 | when no configuration takes the text and the element left focused accepts it, that element is the target, right after the configured candidates |
| Content.StageDetected | build/content.js:249-278 | otherwise the target, if any, is the first auto-detected element that accepts the text |
| Content.TryDefaults | build/content.js:228-272 | the focused element, then the auto-detected elements: the report and the elements are as trying those candidates in order gives |
| Content.Then | build/content.js:175-278 | when no candidate of one stage takes the text, running the next stage after it is trying both lists in one: same candidates, same states, same focus |
| Content.TriedAfter | build/content.js:175-278 | behind candidates none of which takes the text, all of them are tried and then the tried part of the rest |
| Content.ConfigStep | build/content.js:185-223 | a taker in the next configuration's matches is the taker of all configured candidates; otherwise the longer prefix still has none |
| Content.ConfigStepTried | build/content.js:185-223 | the candidates tried through one more configuration are those up to the taker, or all of the longer prefix |
| Content.ConfigStepState | build/content.js:185-223 | the elements and the focus after one more configuration are as trying those candidates leaves them |
| Content.AttemptAllAppend | build/content.js:206-221 | trying two lists one after the other leaves the elements as trying their concatenation |
| Content.FocusAfterAppend | build/content.js:209-212 | focusing through two lists one after the other is focusing through their concatenation |
| Content.TriedPrefix | build/content.js:206-221 | when a prefix holds the target, the candidates tried are those of the prefix |
| ContentFacts.GlobLiteral | build/content.js:325-336 | a pattern without `*` matches exactly the same domain |
| ContentFacts.GlobStarSuffix | build/content.js:325-336 | `*` followed by a literal matches exactly the domains ending in that literal |
| ContentFacts.DomainMatchesIgnoresCase | build/content.js:334 | the 'i' flag: matching ignores ASCII case on both sides |
| ContentFacts.WildcardSubdomain | build/content.js:325-336 | `*.x.com` matches `a.x.com` but not `x.com` |
| ContentFacts.StripControlFacts | build/content.js:170 | the sanitized text holds no control character, keeps every other one, and keeps the order |
| ContentFacts.WhitespaceControlsKept | build/content.js:170 | tab, newline and carriage return survive; NUL and DEL do not |
| ContentFacts.CleanTextUnchanged | build/content.js:170 | text without control characters is unchanged |
| ContentFacts.StripControlIdempotent | build/content.js:170 | sanitizing twice equals sanitizing once |
| ContentFacts.ControlOnlyNeverInserted | build/content.js:170-278 | text made only of control characters becomes empty: the run reports that no element was found and changes no element |
| ContentFacts.ActiveWinsWithoutConfigs | build/content.js:228-237 | with no matching configuration an active element that accepts the text is used, with its message |
| ContentFacts.AttemptAllKeeps | build/content.js:206-221 | an element that no candidate writes into keeps its value and selection |
| ContentFacts.TargetAloneChanges | build/content.js:206-221 | when no email input comes before the target, the target is the only element that changes |
| ContentFacts.FailedRunWritesOnlyEmails | build/content.js:206-278 | when no candidate takes the text, only the email inputs among the candidates change |
| ContentFacts.EmailWrittenTwice | build/content.js:206-246 | an email input that is the only configured match is written, left focused, tried again as the active element, and holds the text in front twice |
| ContentFacts.TwoFailedAttempts | build/content.js:405-416 | two attempts on an email input prepend the text twice |
| ContentFacts.TriedPastFailures | build/content.js:206-221 | when the first two candidates do not accept the text both are tried |
| ContentFacts.LoadedSelectorsOrder | build/content.js:141-150 | the loaded selectors are sorted by descending priority, a permutation of the usable ones, and selectors of equal priority keep their stored order |
| ContentFacts.DefaultPriorityPlacement | build/content.js:141-150 | a loaded selector without a priority (unset, zero or NaN) comes after every selector of priority above 10 and before every selector of a non-zero priority below 10 |
| ContentFacts.MatchesKeepPriority | build/content.js:301-318 | the matching configurations keep the priority order |
| LegacyContent.LegacyPossible | content.js:129-143 | the candidates are page elements: content-editables, then textareas, then text inputs |
| LegacyContent.LegacyTarget | content.js:20-48 | the element used is editable and is the active element or one of the candidates; an editable active element is always the one used; there is none exactly when neither the active element nor any candidate is editable |
| LegacyContent.LegacyAfterInto | content.js:101-122 | only the target changes |
| LegacyContent.LegacyTryElement | content.js:24-43 | an input element always takes the text; a content-editable one as the browser allows |
| LegacyContent.LegacyFindPossibleEditableElements | content.js:129-143 | the three queries concatenated, in that order |
| LegacyContent.LegacyInsertTextAtCursor | content.js:20-48 | the active element when editable, otherwise the first editable candidate, gets the text; false when there is none |
| LegacyContentFacts.FallbackIsFirstEditable | content.js:34-45 | otherwise the first editable candidate is used |
| LegacyContentFacts.EmptyTextDeletesSelection | content.js:101-117 | inserting "" still succeeds and deletes the selection |
| LegacyContentFacts.LegacyAfterReplacesSelection | content.js:103-112 | with a set end, the selection is replaced and the caret lands after the text |
| LegacyContentFacts.LegacyCollapsedInsertsAtStart | content.js:103-112 | with the end unset, the text is inserted at the start position |
| Menu.ListedPrompts | build/background.js:115-121 | exactly the stored prompts with truthy id, title and content are kept, in stored order |
| Menu.ListedChains | build/background.js:124-130 | exactly the stored chains with truthy id and title and an array of steps are kept |
| Menu.FindOrThrow | build/background.js:253-264 | `find` over the raw stored list: the record found has the id; none is found only when every entry differs; a null entry makes it throw |
| Menu.Deliver | build/background.js:221-238 | the click succeeds only when the content script answered with success |
| Menu.Background.constructor | build/background.js:286-291 | the background starts from the stored chain cursor |
| Menu.Background.OnClicked | build/background.js:190-326 | a click has the outcome HandleClick gives, and the cursor `{id, currentStep: 0}` is written only when a chain was started |
| MenuFacts.PlanLayout | build/background.js:83-172 | the rebuilt menu is the four base items, then up to 5 prompt items, the chain separator when a chain is listed, then up to 3 chain items, in stored order |
| MenuFacts.TitlesBounded | build/background.js:141-166 | a prompt title longer than 50 is cut to 47 characters plus "..."; chain titles are cut at 45 behind the chain mark |
| MenuFacts.SeparatorIffChain | build/background.js:150-157 | the chain separator is in the menu exactly when some stored chain is listed |
| MenuFacts.ItemIdsDecode | build/background.js:139-243 | the item ids `prompt-<id>` and `chain-<id>` decode back to the id |
| MenuFacts.ParentReadsAsPrompt | build/background.js:202-203 | the parent item's id `prompt-vault-menu` also starts with `prompt-` and reads as the prompt id "vault-menu" |
| MenuFacts.ListedPromptFound | build/background.js:136-212 | clicking a listed prompt finds that prompt |
| MenuFacts.ChainGuardOrder | build/background.js:253-256 | an unknown chain is CHAIN_NOT_FOUND, whatever the tab |
| MenuFacts.NoTabLast | build/background.js:253-272 | NO_TAB is only raised after the chain, its steps and its first prompt were all found |
| MenuFacts.StartedOnlyAfterDelivery | build/background.js:242-291 | a chain is started only after a successful delivery to a tab, from step 0, with the content of the prompt named by its first step |
| MenuFacts.FailureKeepsCursor | build/background.js:274-300 | a failed or refused delivery never starts a chain |
| LegacyMenu.StaleIdsExact | background.js:55-60 | an item is removed exactly when its id starts with `prompt-` or `chain-` |
| LegacyMenu.StaleIdsAreStale | background.js:55-60 | every id collected for removal is such an id |
| LegacyMenu.LegacyBackground.constructor | background.js:12-44 | after installation the menu holds the parent, "Manage Prompts...", the separator and "Open PromptHub" |
| LegacyMenu.LegacyBackground.Remove | background.js:58 | removing an id drops every item with it |
| LegacyMenu.LegacyBackground.Create | background.js:67-93 | creating an item appends it unless its id is already taken |
| LegacyMenu.LegacyBackground.RemoveStale | background.js:55-60 | the loop leaves exactly the items whose ids are not stale |
| LegacyMenu.LegacyBackground.RemoveItem | background.js:56-59 | one removal step keeps the loop invariant |
| LegacyMenu.LegacyBackground.CreateAll | background.js:63-94 | the items of the plan are created in order |
| LegacyMenu.LegacyBackground.UpdateContextMenu | background.js:48-95 | the stale items are removed, then the plan is created |
| LegacyMenu.LegacyBackground.OnClicked | background.js:105-162 | a click has the action LegacyHandleClick gives, and the cursor is written only when a chain was started |
| LegacyMenuFacts.KeptId | background.js:57 | an id starting with neither prefix is kept |
| LegacyMenuFacts.BaseSurvives | background.js:14-57 | the base items survive the clean-up; the chain separator is removed by it |
| LegacyMenuFacts.PlanIsStale | background.js:63-94 | every planned item is removed by the next clean-up |
| LegacyMenuFacts.CreatedAppends | background.js:63-94 | with fresh, distinct ids creating the plan appends it |
| LegacyMenuFacts.UpdateResult | background.js:48-95 | with distinct planned ids the menu becomes the surviving items followed by the plan |
| LegacyMenuFacts.LegacyPlanLayout | background.js:63-94 | up to 5 prompt items with untruncated titles, the separator exactly when a chain is stored, then up to 3 chain items |
| LegacyMenuFacts.LegacyChainStarts | background.js:128-156 | a chain is started exactly when it exists, has steps whose first prompt exists and there is a tab, from step 0 |
| LegacyMenuFacts.LegacyPromptSends | background.js:113-125 | clicking a prompt sends its content, or does nothing when it is unknown |
| Settings.SelectorSettings.constructor | settings.js:287-290 | the page starts from the stored configurations |
| Settings.SelectorSettings.SaveSelectorConfig | settings.js:269-282 | the configuration replaces the first one with its id, or is appended |
| Settings.SelectorSettings.SubmitForm | settings.js:56-87 | a rejected form saves nothing; an accepted one saves the configuration the form describes |
| Settings.SelectorSettings.DeleteSelectorConfig | settings.js:252-264 | after confirmation every configuration with the id is removed; without it nothing changes |
| Settings.SelectorSettings.AddDefaultConfigurations | settings.js:95-173 | the defaults whose ids are not yet used are appended in their listed order, and their number is returned |
| Settings.SelectorSettings.SaveAll | settings.js:168-170 | saving fresh configurations one by one appends them in order |
| Settings.DefaultIdsDistinct | settings.js:96-158 | the nine default configurations have distinct ids |
| Settings.NewDefaultsFresh | settings.js:161-165 | the defaults to add have ids not already used and distinct from each other |
| Settings.SublistKeepsDistinctIds | settings.js:165 | filtering a list with distinct ids keeps them distinct |
| SettingsFacts.FormRejects | settings.js:59-68 | the form is refused exactly when the pattern or the selector field is all white space, or no digit (after white space and an optional sign) starts the priority field |
| SettingsFacts.FormId | settings.js:71-79 | a form with an empty id adds a configuration at the end unless the generated `selector_<now>` id is taken; a form with an id saves a configuration found under that id |
| SettingsFacts.IntToStringRoundTrip | settings.js:62 | a priority written into the form field parses back to the same integer |
| SettingsFacts.EditSubmitRoundTrip | settings.js:234-244 | editing a configuration with an id, trimmed pattern and selector and a numeric priority and submitting the form unchanged gives the same configuration |
| SettingsFacts.SaveThenFind | settings.js:269-282 | after a save the configuration is found under its id and the others are unchanged |
| SettingsFacts.DeleteRemovesAll | settings.js:257-258 | after a deletion no configuration has the id, and every other one is kept in order |
| SettingsFacts.AddDefaultsIdempotent | settings.js:160-172 | after adding the defaults every default id is present, so adding them again adds nothing |
| SettingsFacts.ViewSorted | settings.js:186-196 | the list shows every configuration once, sorted by descending priority, ties in stored order |
| Panel.CreateRawChain | panel.js:252-318 | MISSING_TITLE, then MISSING_CONTENT, both before anything is saved; then one prompt is saved per section with a first line and further content; PROMPT_VALIDATION_ERROR stops at the first refused prompt with the earlier ones kept, no prompt gives NO_PROMPTS_CREATED, and otherwise the chain of the new ids is saved through saveChain with its errors |
| Panel.SaveSectionPrompts | panel.js:279-302 | the loop over the sections leaves the store and the id list the fold over the sections describes, and stops at the first refused save |
| Panel.SaveDraftPrompt | panel.js:291-301 | one save appends the new id when the prompt is accepted |
| Panel.ChainBuilder.constructor | panel.js:822-870 | the builder starts from the given steps |
| Panel.ChainBuilder.HandleDrop | panel.js:892-910 | the dragged step is moved to the target's index; a drop without a dragged step changes nothing |
| Panel.MovedInPlace | panel.js:895 | dropping a step on itself changes nothing |
| Panel.ChainPanel.constructor | panel.js:705-711 | the panel starts from the stored chain cursor |
| Panel.ChainPanel.InsertChainStep | panel.js:668-713 | the outcome is StepInsert's, and the cursor `{id, currentStep: index}` is written only after a successful insert |
| Panel.ChainPanel.InsertChain | panel.js:652-666 | the outcome is ChainStart's, with the cursor written the same way |
| PanelFacts.SplitFirstPiece | panel.js:285 | the first line is a prefix of the section, ended by a newline when shorter |
| PanelFacts.SectionDraftFacts | panel.js:281-289 | a section's prompt does not depend on the chain title or the index, so the `<chain> - Step i` fallback is never used; its title is the trimmed first line, both parts are non-empty and trimmed |
| PanelFacts.SectionRoundTrip | panel.js:281-289 | a trimmed one-line title, a newline and trimmed content parse back to that title and content |
| PanelFacts.RawDraftsIgnoreTitle | panel.js:279-289 | the prompts parsed from the text do not depend on the chain title |
| PanelFacts.DraftAccepted | panel.js:291-296 | a parsed section is accepted by savePrompt exactly when its title is at most 100 and its content at most 10000 characters |
| PanelFacts.SaveSectionsSavesDrafts | panel.js:279-302 | saving the sections is saving the parsed prompts in order |
| PanelFacts.StampedIds | build/storage.js:128-129 | the k-th new prompt gets the id `prompt_<stamp k>` |
| PanelFacts.SaveDraftsIds | panel.js:279-302 | all parsed prompts are saved exactly when each is accepted, and then the chain steps are their fresh ids in section order |
| PanelFacts.SaveDraftStep | panel.js:296-297 | one save succeeds exactly when the run so far did and this prompt is accepted, and appends its fresh id |
| PanelFacts.SaveSectionsIds | panel.js:279-302 | the same for the sections of the text |
| PanelFacts.TooManySectionsRefused | panel.js:298-311 | with more than 20 parsed prompts they are all saved but the chain is refused |
| PanelFacts.MovedFacts | panel.js:892-910 | the dragged step lands at the target's index, the other steps keep their order, no step is lost or duplicated, and dragging it back restores the list |
| PanelFacts.StepInsertSucceeds | panel.js:668-713 | a step is inserted exactly when the chain exists, the index is within its steps, the step's prompt exists, there is an active tab and the content script reports success; the cursor then names the chain and the index, and the text is that prompt's content |
| PanelFacts.PastLastStep | panel.js:675-677 | an index at or past the step count is INVALID_STEP whatever else holds |
| PanelFacts.ChainStartIsStepZero | panel.js:652-666 | starting a chain with steps is inserting its step 0 |
| ChainViews.MapGet | panel.js:509-510 | the prompt found for an id has that id; none only when no prompt has it |
| ChainViews.StepPrompts | panel.js:606-608 | one prompt per resolving step, each a known prompt |
| ChainViews.Blocks | panel.js:615-617 | the k-th block reads `Step <first+k>: <title>\n<content>` |
| ChainViewsFacts.PreviewFacts | panel.js:459-461 | a preview keeps content of up to the limit, and otherwise is its first `limit` characters plus "..." |
| ChainViewsFacts.StepLabelPlural | panel.js:529-531 | the label ends in "s" exactly when the count is not 1, and reads "1 step" for one |
| ChainViewsFacts.StepLabelCount | panel.js:529-531 | the label begins with the count: parseInt of it gives the count back |
| ChainViewsFacts.StepPromptsResolve | panel.js:606-612 | no step survives exactly when no step's id names a prompt |
| ChainViewsFacts.MissingStepsLeaveNoGap | panel.js:606-617 | dropping the unknown steps beforehand changes nothing, so the numbering has no gaps |
| ChainViewsFacts.CopyFacts | panel.js:604-618 | nothing is copied exactly when no step resolves; otherwise the text begins with step 1's block and holds one block per resolving step |
| Popup.PopupPage.constructor | popup.js:7-10 | the page starts from the classes its markup gives the two buttons and panes, and from the stored chain cursor |
| Popup.PopupPage.SetActiveTab | popup.js:117-122 | each of the two buttons and two panes is active exactly when it belongs to the named tab; nothing else changes |
| Popup.PopupPage.Search | popup.js:94-98 | the trimmed query reloads the prompts list when the prompts pane is active and the chains list otherwise |
| Popup.PopupPage.InsertChain | popup.js:474-514 | the outcome is PopupChainStart's, and the cursor `{id, currentStep: 0}` is written only after a successful insert |
| PopupFacts.OneTabActive | popup.js:117-122 | after choosing "prompts" or "chains" exactly one button and one pane are active, and they belong to the same tab |
| PopupFacts.SearchFollowsTab | popup.js:94-122 | a search reloads the list of the tab last chosen; after any other name neither pane is active and the chains list is reloaded |
| PopupFacts.ListedPromptsAreValid | popup.js:258-268 | the listed prompts are valid stored prompts in stored order, all of them for an empty query |
| PopupFacts.ListedChainsAreValid | popup.js:271-281 | the same for chains |
| PopupFacts.PopupAgreesWithPanel | popup.js:474-514 | the popup starts a chain with the same checks in the same order as the panel, FIRST_STEP_NOT_FOUND standing for STEP_PROMPT_NOT_FOUND |
| PopupFacts.PopupPreview | popup.js:315-318 | a popup preview is at most 53 characters: content of up to 50 is shown whole, longer content as its first 50 plus "..." |

## Left out

- The DOM construction of the lists, the dialogs, the event wiring, `UIFeedback`, `showFeedback` and `showError` messages, and the `input` event the content script dispatches. These are browser side effects that carry no value the code later reads.
- Content.TryCandidates: `focus()` is taken to make every editable element it is called on the active element. An element the browser cannot focus (hidden or disabled) would leave the focus where it was.
- Dom.InsertIntoInputElement: the browser's sanitisation of an email input's value (it strips line breaks and surrounding white space) is not modelled; the value is the text written in front of the old value.
- Content-editable insertion (`execCommand`, Selection ranges). In the current script it succeeds for any non-empty text. In the earlier script its outcome is the element's `richTextAccepts` oracle.
- `chrome.storage`, `chrome.tabs`, `chrome.contextMenus` and `chrome.sidePanel`. Storage is the class fields, and a message's outcome is a parameter. Opening the side panel or the popup, and the `openSidePanel` and `logError` runtime messages, are left out: their only effect is in the browser.
- `_checkStorageQuota`. It works on a floating-point percentage of a byte count the browser reports.
- `exportData`. It writes an ISO date and JSON.
- `debounce`, `AsyncOp.withUserFeedback`, the 500 ms menu debounce, and all interleaving of asynchronous read-modify-write sequences. Every operation runs to completion on the state it read.
- The prompt and chain forms, and the edit, delete, export and import buttons of the panel and the popup. They only read form fields and call the Storage operations modelled above. The same holds for `insertPrompt`, which is the chain step without a cursor.
- The panel's chain builder only models the list of steps that `handleDrop` reorders. Adding or removing a step element through the DOM is left out.
- Validator.TextFaults: lengths count characters rather than UTF-16 code units, so a text outside the Basic Multilingual Plane counts shorter than JavaScript counts it.
- Text.ToLower: lowers ASCII letters only. `toLowerCase` on other scripts is not modelled.
- ContentFacts.GlobLiteral: patterns are read as hostname characters plus `*`. Other regular-expression metacharacters in a user's pattern keep their regex meaning in the source, and that is not modelled.
- SettingsFacts.ViewSorted: a priority that is not a number sorts as 0. In the source, `b.priority - a.priority` is NaN for such a priority, and the order the browser then chooses is unspecified.
- Records: ids and titles that are not strings are shown as empty text (`Shown`, `StrOf`). The exact `String()` rendering of other JavaScript values is not modelled.
- Records: a non-string value is identified by an integer, so equal values compare equal as under `===`. A NaN id, which `===` finds unequal even to itself, is not modelled.
- Storage.Store.ImportData: the `errors` arrays of the result, with their messages, are reduced to the counts in `Tally`.
- Content.ContentScript.LoadDomainSelectors: the comparator `(b.priority || 10) - (a.priority || 10)` works on the raw stored value, and `Priority` is a simplified reading of it. A stored string such as "0" is truthy and ranks 0 in the source, but the model reads it as `Num(0)` and ranks it 10. A value that is not a number makes the comparator NaN, and the browser's order is then unspecified; the model ranks it 10. Fractional priorities are not modelled.
- ContentFacts.DefaultPriorityPlacement: holds of the model's `Rank`. It inherits the differences of LoadDomainSelectors for string, NaN and fractional priorities.
- LegacyStorage.LegacyStore.SavePrompt: the legacy store lists are modelled without `null` entries. A `null` entry would make the source's `find` throw.
- Menu.Background.OnClicked: Chrome refuses to create a menu item whose id is already taken, and the logged error is not modelled. The plan is the list of items requested.
- Storage.ChainById: steps that are not an array are treated as no steps wherever the source reads `steps.length`.
- Panel.CreateRawChain: the `INVALID_FORMAT` branch is not modelled because it cannot be reached. `split` always returns at least one piece, so the source's length-0 check never fires.
- PanelFacts.SectionDraftFacts: the same holds for the `<chain> - Step i` title fallback. A section is trimmed and non-empty, so its first line trimmed is never empty.
- ChainViews.MapGet: `new Map(prompts.map(...))` keeps the last prompt for a repeated id. The model does the same; in the store a later read could otherwise find the first.
