# StudyVerse, modelled in Dafny

StudyVerse turns a student's notes or an uploaded file into flashcards or quizzes. A serverless
function asks a hosted AI model for the items; the web app lets the student study them. This
project models the rules behind that flow and proves properties of them:

- **`StudySession`** (`study_session.dfy`) is the study page. Its six state variables are the
  current index, the flipped flag, the typed answer, the chosen option, the shown result and
  the score. They change through pure transitions (`Next`, `Prev`, `Check`, `Flip`, `Select`,
  `TypeAnswer`) and through the `Page` class, whose handlers update those fields in place;
  each handler is proved equal to its transition. The module also covers:
  - the fallbacks for items, type and title;
  - multiple-choice grading, where two absent values compare equal;
  - the open-answer heuristic: the lowered answer must contain the first ten characters of
    the lowered correct answer;
  - index bounds, how the score evolves, and the score denominator shown on the page.
- **`GenerateStudyContent`** (`generate_study_content.dfy`) is the serverless function:
  - choosing the system prompt by type;
  - building the user message;
  - mapping the gateway status to a response;
  - the missing-key and missing-content errors;
  - cleaning markdown fences from the reply.

  `Handle` is one invocation. The gateway's reply and the JSON parser are its parameters.
- **`CreateStudySet`** (`create_study_set.dfy`) is the create page: the empty-input guard,
  the Generate button, the request body, the navigation state, and the error-toast
  classification. Its `Page` class holds the form state and the loading flag.
- **`Community`** (`community.dfy`) is the search filter over the shared sets and the type
  labels.
- **`Dashboard`** (`dashboard.dfy`) is the greeting name, with its fallbacks.
- **`Text`**, **`Decimal`** and **`Wrappers`** hold the JavaScript string operations the code
  relies on (`trim`, ASCII `toLowerCase`, `includes`), the decimal rendering that a template
  string gives an integer below 10^21 in magnitude, and `Option`.

Two properties of the study page are worth knowing:

- Opened with no navigation state, the page is in flashcard mode but shows the demo quiz
  (`DefaultsDisagree`).
- Going back to an answered question clears its result, so it can be graded again. The score
  is therefore not bounded by the number of items, while the shown denominator
  `currentIndex + (showResult ? 1 : 0)` can be 0 (`RevisitScoresAgain`, `ScoreExceedsItems`).

## Model

| member | source | states |
|---|---|---|
| Text.Trim | supabase/functions/generate-study-content/index.ts:81 | `trim` returns a slice of its input with no white space at either end, and everything it drops before and after the slice is white space |
| Text.TrimIdempotent | supabase/functions/generate-study-content/index.ts:83 | trimming twice is trimming once |
| Text.Includes | src/pages/Community.tsx:28-29 | `includes` holds exactly when the needle occurs at some index |
| Text.IncludesLower | src/pages/Community.tsx:28-29 | an occurrence survives lowering both strings |
| Decimal.ReadShow | supabase/functions/generate-study-content/index.ts:19 | the decimal text of any integer, followed by a non-digit, reads back as that integer |
| GenerateStudyContent.PromptKindFor | supabase/functions/generate-study-content/index.ts:18-36 | `flashcards` selects the flashcard template, `quiz_multiple` the multiple-choice one, and any other type the open-question one (each direction) |
| GenerateStudyContent.SystemPromptAsksForCount | supabase/functions/generate-study-content/index.ts:16-36 | whatever the type, the system prompt asks for exactly `numQuestions` items |
| GenerateStudyContent.PromptAsksForCount | supabase/functions/generate-study-content/index.ts:19 | each of the three templates embeds the count right after its opening words |
| GenerateStudyContent.CountReadsBack | supabase/functions/generate-study-content/index.ts:19 | a count written after the opening words and before a space reads back unchanged |
| GenerateStudyContent.CountAfterShow | supabase/functions/generate-study-content/index.ts:19 | after any opening words, a count followed by a space reads back unchanged |
| GenerateStudyContent.PromptStatesFormat | supabase/functions/generate-study-content/index.ts:19-35 | each template carries the reply rules (JSON only, no markdown, no backticks, no other text) and the JSON schema of its kind |
| GenerateStudyContent.SystemPromptStatesSchema | supabase/functions/generate-study-content/index.ts:16-36 | whatever the type and count, the system prompt carries the reply rules and the schema of the template the type selects |
| GenerateStudyContent.PromptNamesItems | supabase/functions/generate-study-content/index.ts:18-36 | the words after the count name what the template asks for |
| GenerateStudyContent.UserContent | supabase/functions/generate-study-content/index.ts:38-40 | the content is a verbatim suffix; a text message is the fixed instruction followed by the content; a file message is the whole file note followed by the content, names `fileType` (or `undefined`) right after the note's opening words; the message starts with the file note exactly when `isFile` |
| GenerateStudyContent.FileNoteSaysBase64 | supabase/functions/generate-study-content/index.ts:39 | the file note tells the model, right after the file type, that the content is base64 |
| GenerateStudyContent.UserContentInjective | supabase/functions/generate-study-content/index.ts:38-40 | two messages of the same form are equal only for equal contents |
| GenerateStudyContent.GatewayFailure | supabase/functions/generate-study-content/index.ts:57-73 | for a non-ok status: 429 in gives 429 with "Rate limit exceeded", 402 gives 402 with "Payment required", anything else gives 500 with "AI gateway error" |
| GenerateStudyContent.Relay | supabase/functions/generate-study-content/index.ts:42-97 | a rejected `fetch` gives 500; a non-ok status is mapped as above; an ok reply whose body is not JSON gives 500; a missing or empty content gives 500 "No content from AI"; a cleaned content that does not parse gives 500; the status is 200 exactly when the reply is ok, has content and its cleaned text parses, and then the body is the cleaned text; the status is always 200, 402, 429 or 500 |
| GenerateStudyContent.RemoveFences | supabase/functions/generate-study-content/index.ts:83 | after removing every run of three backticks, none is left |
| GenerateStudyContent.CleanContent | supabase/functions/generate-study-content/index.ts:81-84 | the result is trimmed; a trimmed reply not starting with three backticks is returned as it is; one starting with them leaves no three backticks |
| GenerateStudyContent.StartsWithFence | supabase/functions/generate-study-content/index.ts:82 | `startsWith("```")` is three backticks at index 0 |
| GenerateStudyContent.CleanContentFences | supabase/functions/generate-study-content/index.ts:81-84 | the cleaning rule in terms of `startsWith` and `includes` |
| GenerateStudyContent.NoFenceSurvivesTrim | supabase/functions/generate-study-content/index.ts:83 | the final trim cannot create three backticks |
| GenerateStudyContent.CleanIdempotent | supabase/functions/generate-study-content/index.ts:81-84 | cleaning a cleaned reply changes nothing |
| GenerateStudyContent.StripOpenersNoOpener | supabase/functions/generate-study-content/index.ts:83 | the opener regex leaves a string without three backticks followed by `jso` unchanged |
| GenerateStudyContent.JsonOpenerStripped | supabase/functions/generate-study-content/index.ts:83 | "```json" and its newline go in one match |
| GenerateStudyContent.RemoveClosingFence | supabase/functions/generate-study-content/index.ts:83 | a closing fence after a fence-free body is removed and the body kept |
| GenerateStudyContent.JsonBlockStripped | supabase/functions/generate-study-content/index.ts:83 | both regular expressions turn a `json` code block around a fence-free body into the body and a newline |
| GenerateStudyContent.CleanJsonFenced | supabase/functions/generate-study-content/index.ts:81-84 | a fence-free body in a `json` code block is cleaned to the trimmed body |
| GenerateStudyContent.CleanUnfenced | supabase/functions/generate-study-content/index.ts:81-84 | the same fence-free body alone is cleaned to the trimmed body too |
| GenerateStudyContent.CleanBareFenced | supabase/functions/generate-study-content/index.ts:81-84 | a fence-free body in a bare code block is cleaned to the trimmed body |
| GenerateStudyContent.Handle | supabase/functions/generate-study-content/index.ts:8-97 | OPTIONS gives 200 and no call; an unreadable body gives 500; a missing key gives 500 "LOVABLE_API_KEY is not configured" and no call; otherwise exactly one gateway call with the chosen prompt and the user message, answered by `Relay` (a rejected call included) |
| StudySession.SessionItems | src/pages/StudySession.tsx:42 | the items are empty only when an empty list was handed over |
| StudySession.HandedOverItemsKept | src/pages/StudySession.tsx:42 | handed-over items are used as they are, even an empty list |
| StudySession.DefaultsDisagree | src/pages/StudySession.tsx:42-43 | with no state the type is `flashcards` but every item shown is a question |
| StudySession.DemoMatchesGivenKind | src/pages/StudySession.tsx:42 | without items, a given `flashcards` type gets the flashcard demo and any other the quiz demo |
| StudySession.SessionKind | src/pages/StudySession.tsx:43 | the type is never empty and a given non-empty type is kept |
| StudySession.SessionTitle | src/pages/StudySession.tsx:44 | the title is never empty and a given non-empty title is kept |
| StudySession.KindBadge | src/pages/StudySession.tsx:105 | the badge is "Flashcard", "Quiz Multiplo" or "Quiz Aperto", each exactly for its type |
| StudySession.MultipleChoiceGrading | src/pages/StudySession.tsx:71 | the chosen option must equal the correct answer; an absent option is correct only when the answer is absent too |
| StudySession.Needle | src/pages/StudySession.tsx:76 | the needle is the first `min(10, len)` characters of the lowered answer, or `undefined` without an answer |
| StudySession.EmptyExpectedAlwaysCorrect | src/pages/StudySession.tsx:76 | an empty correct answer accepts every answer |
| StudySession.ContainingExpectedIsCorrect | src/pages/StudySession.tsx:76 | an answer containing the whole correct answer is accepted |
| StudySession.OnlyFirstTenCount | src/pages/StudySession.tsx:76 | correct answers agreeing on their first ten characters grade alike |
| StudySession.OpenGradingIgnoresCase | src/pages/StudySession.tsx:76 | lowering the typed answer does not change the grade |
| StudySession.Next | src/pages/StudySession.tsx:47-57 | on the last item nothing changes; otherwise the index goes up by one and the per-item state is cleared; the score is kept |
| StudySession.Prev | src/pages/StudySession.tsx:59-67 | at index 0 nothing changes; otherwise the index goes down by one with the same clearing; the score is kept |
| StudySession.CheckGrades | src/pages/StudySession.tsx:69-80 | flashcards, no choice or a blank answer change nothing; otherwise only the score and the result change; the score goes up by one exactly when the answer is correct, and the result is shown |
| StudySession.Flip | src/pages/StudySession.tsx:130 | flipping toggles `flipped` and changes nothing else |
| StudySession.FlipTwice | src/pages/StudySession.tsx:130 | flipping twice restores the state |
| StudySession.Select | src/pages/StudySession.tsx:158 | choosing is ignored while the result is shown, and otherwise sets only the choice |
| StudySession.TypeAnswer | src/pages/StudySession.tsx:197 | typing sets only the answer |
| StudySession.ShownTotal | src/pages/StudySession.tsx:231 | the denominator is the index, plus one exactly when the result is shown |
| StudySession.CheckIndexAndScore | src/pages/StudySession.tsx:69-80 | a check keeps the index, raises the score by at most one, and changes nothing in flashcard mode |
| StudySession.StepInBounds | src/pages/StudySession.tsx:47-67 | every event keeps the index on an item |
| StudySession.RunInBounds | src/pages/StudySession.tsx:47-67 | any run of events keeps the index on an item |
| StudySession.SessionStaysInBounds | src/pages/StudySession.tsx:23-67 | from the start, a non-empty list keeps `0 <= currentIndex < items.length` |
| StudySession.StepScore | src/pages/StudySession.tsx:69-80 | one event raises the score by at most one, only a check can, and in flashcard mode none does |
| StudySession.RunScore | src/pages/StudySession.tsx:69-80 | the score never decreases and rises by at most the number of checks |
| StudySession.FlashcardsNeverScore | src/pages/StudySession.tsx:69-80 | in flashcard mode the score never changes |
| StudySession.RevisitScoresAgain | src/pages/StudySession.tsx:49-80 | choose, check, next, prev returns to a cleared question with one more point |
| StudySession.ScoreExceedsItems | src/pages/StudySession.tsx:69-80 | after `n` such rounds the score is `n` and the shown denominator is 0 |
| StudySession.DemoFirstAnswer | src/pages/StudySession.tsx:38 | the demo quiz has two questions and the second option answers the first |
| StudySession.Page.constructor | src/pages/StudySession.tsx:23-44 | the page starts at index 0 with nothing chosen and score 0, on the resolved items, type and title |
| StudySession.Page.ResetItem | src/pages/StudySession.tsx:52-55 | the per-item state is cleared, the index and the score kept |
| StudySession.Page.HandleNext | src/pages/StudySession.tsx:49-57 | the new state is `Next` of the old, and `Valid` (index on an item, score not negative) is kept |
| StudySession.Page.HandlePrev | src/pages/StudySession.tsx:59-67 | the new state is `Prev` of the old, and `Valid` is kept |
| StudySession.Page.RecordResult | src/pages/StudySession.tsx:72-73 | one point for a correct answer, and the result shown |
| StudySession.Page.HandleCheckAnswer | src/pages/StudySession.tsx:69-80 | the new state is `Check` of the old, and `Valid` is kept |
| StudySession.Page.HandleFlip | src/pages/StudySession.tsx:130 | the new state is `Flip` of the old, and `Valid` is kept |
| StudySession.Page.HandleSelect | src/pages/StudySession.tsx:158 | the new state is `Select` of the old, and `Valid` is kept |
| StudySession.Page.HandleTyping | src/pages/StudySession.tsx:197 | the new state is `TypeAnswer` of the old, and `Valid` is kept |
| CreateStudySet.GenerationType.Name | src/pages/CreateStudySet.tsx:12 | each generation type is named `flashcards`, `quiz_multiple` or `quiz_open` |
| CreateStudySet.NameInjective | src/pages/CreateStudySet.tsx:12 | different types have different names |
| CreateStudySet.EnabledButtonIsNeverRefused | src/pages/CreateStudySet.tsx:204 | an enabled button is never refused |
| CreateStudySet.SomethingToSend | src/pages/CreateStudySet.tsx:45 | a picked file, or any text with a visible character, passes the guard |
| CreateStudySet.RequestTitle | src/pages/CreateStudySet.tsx:68 | the title is never empty; an empty one becomes "Set di Studio" |
| CreateStudySet.PlainTextGoesAsText | src/pages/CreateStudySet.tsx:45-71 | a plain-text file passes the guard, is not uploaded, and the text box it was read into reaches the model behind the text instruction, even when it is empty |
| CreateStudySet.PromptMatchesForm | src/pages/CreateStudySet.tsx:63-72 | the system prompt built from the request asks for exactly the chosen count and gives the schema of the chosen type |
| CreateStudySet.SessionMatchesRequest | src/pages/CreateStudySet.tsx:78 | the opened session runs in the requested mode, under the title sent, on the returned items, and the function chose that mode's prompt |
| CreateStudySet.UploadNamesFileType | src/pages/CreateStudySet.tsx:69-70 | for an upload, the message to the model names the file's type and ends with the data URL |
| CreateStudySet.BothCodesMeanRateLimit | src/pages/CreateStudySet.tsx:81-84 | a message with both codes, in either order, is a rate limit |
| CreateStudySet.Page.constructor | src/pages/CreateStudySet.tsx:17-22 | the form starts empty, in flashcard mode, with 10 items, not loading |
| CreateStudySet.Page.SetNumQuestions | src/pages/CreateStudySet.tsx:163-165 | the count is stored as typed, without clamping |
| CreateStudySet.Page.HandleFileChange | src/pages/CreateStudySet.tsx:31-42 | a pick replaces the file and a plain-text pick fills the text box; no pick changes nothing; a chosen file stays chosen |
| CreateStudySet.Page.HandleGenerate | src/pages/CreateStudySet.tsx:44-91 | with nothing to send: the "Inserisci del testo o carica un file" toast, no request, `loading` unchanged; otherwise one request built by `BuildRequest`, the study page opened or the classified toast, and `loading` false at the end |
| Community.LabelOf | src/pages/Community.tsx:18-22 | a label exists exactly for the three types |
| Community.LabelsCoverSets | src/pages/Community.tsx:9-22 | every listed set has a label, equal to the study page's badge for that type |
| Community.Filter | src/pages/Community.tsx:27-30 | the result is an order-preserving subsequence, holding a set exactly when its lowered title or author contains the lowered search |
| Community.EmptySearchKeepsAll | src/pages/Community.tsx:27-30 | the empty search keeps every set |
| Community.SameLoweringSameResult | src/pages/Community.tsx:28-29 | searches with the same lowering give the same result |
| Community.CaseInsensitive | src/pages/Community.tsx:28-29 | lowering the search does not change the result |
| Community.MatchesPart | src/pages/Community.tsx:28-29 | a set matching a search matches every part of it |
| Community.LongerSearchNarrows | src/pages/Community.tsx:27-30 | when `s` occurs in `s2`, the result for `s2` is a subsequence and a subset of the result for `s` |
| Community.FilterIdempotent | src/pages/Community.tsx:27-30 | filtering the result again changes nothing |
| Dashboard.EmailPrefix | src/pages/Dashboard.tsx:43 | `split("@")[0]` is a prefix of the email without `@`, ending at the first `@` or at the end |
| Dashboard.EmailPrefixUnique | src/pages/Dashboard.tsx:43 | those properties determine the prefix |
| Dashboard.DisplayName | src/pages/Dashboard.tsx:43 | never empty; a non-empty display name is kept; else a non-empty email prefix; else "Studente" |
| Dashboard.NameFromEmail | src/pages/Dashboard.tsx:43 | without a display name the result is "Studente" or an `@`-free prefix of the email, and the part before the first `@` when the email does not start with `@` |
| Dashboard.EmailStartingWithAt | src/pages/Dashboard.tsx:43 | an email starting with `@` gives "Studente" |
| Dashboard.LocalPartShown | src/pages/Dashboard.tsx:43 | `local@domain` shows `local` |

## Left out

- Network and environment. The gateway `fetch`, `Deno.env`, `serve`, `console.error`, the CORS
  headers and the `Authorization` header are not modelled. The gateway's reply (or the
  rejection of the call, `TransportFailed`) and the API key are inputs of `Handle`.
- `JSON.parse` is an input predicate `isJson`. The re-serialisation by `JSON.stringify` is
  left out, so a relayed body is the cleaned text. The message of an exception raised by the
  runtime is not modelled either (`RuntimeError`).
- The supabase client is not modelled: sessions, sign-out, auth redirects and
  `functions.invoke`. What `functions.invoke` returns is the input `InvokeReply`.
- The browser's `FileReader` results (the data URL and the text read) are inputs. So is the
  moment they arrive; the asynchronous ordering of React state updates is not modelled.
- Rendering, animations, icons, the progress bar's floating-point width, and every toast
  except the error classification and the refusal.
- The form's setters for title, text and type are plain assignments and are not modelled.
- Text.Lower: lowers ASCII capitals only; `toLowerCase` also lowers other scripts.
- Strings are sequences of code points. JavaScript counts UTF-16 code units in `slice(0, 10)`
  and in lengths.
- CreateStudySet.Page.SetNumQuestions: takes an integer. `Number(value)` can also give a
  fraction or `NaN`. A fraction would reach the prompt in its decimal form; `NaN` would reach it
  as `null`, because `JSON.stringify` writes `NaN` as `null` in the request body.
- Decimal.Show: writes every integer in plain decimal. JavaScript writes numbers of magnitude
  10^21 or more in exponential form (`1e+21`), so `Decimal.ReadShow`,
  `GenerateStudyContent.PromptAsksForCount` and `GenerateStudyContent.SystemPromptAsksForCount`
  match the source only for counts below 10^21 in magnitude.
- StudySession.Check: an item index out of range leaves the state unchanged, standing in for
  the exception JavaScript throws when reading from `undefined`. The page would already fail
  while rendering such an item.
- Study items are untyped JSON in the source. The model allows a flashcard or a
  question with optional options and answer, not arbitrary values.
- Dashboard.DisplayName: a `display_name` that is not a string is not modelled.
