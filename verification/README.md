# Clipboard translation loop, modelled in Dafny

The script `AI_Translate1.py` polls the clipboard once a second. When the clipboard holds
non-empty text different from the text it last observed, it sends that text, behind a fixed
Traditional-Chinese translation instruction, to the Gemini `generateContent` endpoint. It
writes the stripped first-candidate text of the reply back to the clipboard. It then records
either the translation (write succeeded) or the source (translation or write failed) as the
last-observed text, so content is not translated again until the clipboard changes. Text
copied again after a translation replaced it differs from the last-observed translation,
so it is translated again.

The model makes this decision logic pure:

- `Text`: `str.strip()` over CPython's whitespace set.
- `PyJson`: a decoded JSON value (`Obj`/`Arr`/`Str`/`Other`) and the Python operations the response check applies to it (`in`, `len`, `x[0]`, `x[key]`, `.get`, `.strip`). Each one raises where Python raises, so an ill-typed reply goes through the script's catch-all handler.
- `Gemini`: the credential guard, the request body and prompt, and the response check. The check is written branch by branch as the script evaluates it (`Classify`). It is proved equal to a direct description of the one reply shape that yields text (`Expected`).
- `Loop`: one iteration of the `while True` loop as `Step`. Its inputs are the last-observed text, the clipboard read, the translator's answer and the clipboard write. It returns the new last-observed text, the text sent for translation, the text written, and the sleep multiplier (1, or 5 after a failed read).
- `Session`: the loop run against a clipboard that changes only through copies by other programs or through the loop's own writes. Lemmas over finite event traces show the loop never translates its own output. It requests at most one translation per external change.
- `Scenarios`: concrete runs. Start-up on "Hello" then a copy of "World" translated to "世界"; an empty copy; a `SAFETY` block reply; a failed read followed by recovery; "World" copied again after its translation replaced it, which is translated again.

Three points where the script's behaviour may surprise a reader:

- The last-observed text is always a string, never absent. The script reads it at start-up (line 109) and exits when that read fails (lines 111-114).
- The credential guard compares the key with `"YOUR_GEMINI_API_KEY"` (line 31). The fallback key set at line 14 is `"API KEY"`, so the guard passes with no key configured and the request goes out. `Gemini.FallbackKeyPassesGuard` states this.
- The call reports failure only as `None`. The model keeps which branch was taken (`Reply`: translation, parts missing, blocked, unrecognised, or an exception) only inside `Classify`.

## Model

| member | source | states |
|---|---|---|
| Text.SkipForward | AI_Translate1.py:72 | the index where `strip()` stops cutting at the front: everything before it is whitespace and the character there is not |
| Text.SkipBackward | AI_Translate1.py:72 | the index where `strip()` stops cutting at the back: everything after it is whitespace and the character before it is not |
| Text.Strip | AI_Translate1.py:72 | the result is a slice of the input with only whitespace outside it; neither end of the result is whitespace; it is empty exactly when the input is all whitespace |
| Text.StripUnique | AI_Translate1.py:72 | whenever a slice has only whitespace outside it and non-whitespace at both ends, `strip()` returns exactly that slice, so the contract above determines `strip()` |
| Text.StripIdempotent | AI_Translate1.py:72 | stripping a stripped text changes nothing |
| Text.StripTrimmed | AI_Translate1.py:72 | text with no whitespace at either end is returned unchanged |
| Gemini.ResolveKey | AI_Translate1.py:12-14 | the key is never empty; a set, non-empty variable is the key itself; the key is the fallback `"API KEY"` exactly when the variable is unset, empty, or itself `"API KEY"` |
| Gemini.FallbackKeyPassesGuard | AI_Translate1.py:12-33 | for every value of the environment variable, the call gets past the guard exactly when the variable is not `"YOUR_GEMINI_API_KEY"`; in particular an unset variable falls back to `"API KEY"`, which the guard lets through |
| PyJson.SubstringOccurs | AI_Translate1.py:68-76 | `key in x` on a str, as the checks at lines 68, 70 and 76 evaluate it when a reply value is a string, holds exactly when `key` occurs at some position of `x` |
| Gemini.Translate | AI_Translate1.py:29-96 | a request is posted exactly when the guard passes; it goes to the model URL with that key; its body carries the prefix followed by the source as its only prompt; the call returns text only when a request was posted and a reply body arrived, and then exactly the reply's expected text |
| Gemini.RequestCarriesSource | AI_Translate1.py:35-49 | the posted body is `{"contents":[{"parts":[{"text": prefix + source}]}]}` and its prompt reads back as prefix + source |
| Gemini.FromCandidates | AI_Translate1.py:69-75 | the candidates branch, evaluated with Python's exceptions, yields text exactly when the first candidate has the expected content/parts/text shape, and then the stripped first-part text |
| Gemini.FromParts | AI_Translate1.py:71-72 | the text extraction yields text exactly when the first part is a dict whose `text` (default `""`) is a string, and then that string stripped |
| Gemini.FromFeedback | AI_Translate1.py:76-84 | the block-reason and catch-all branches never yield text; the block branch is taken only with the reply's `promptFeedback.blockReason` |
| Gemini.Decode | AI_Translate1.py:68-96 | the call's answer for a reply body equals the direct shape description `Expected` (every exception becomes `None`), and any text it returns has no whitespace at either end |
| Gemini.NonEmptyField | AI_Translate1.py:68-70 | `key in x and len(x[key]) > 0`: an empty answer means the key is absent or its value has length 0; a present answer is `x[key]`, whose length is positive; whenever the test fails or raises, `x` holds no non-empty list under `key` |
| Gemini.Classify | AI_Translate1.py:68-84 | the `if`/`elif`/`else`, evaluated with Python's exceptions, yields a translation for exactly the values the direct shape description `Expected` accepts, with the same text; the parts-missing branch only for values it rejects; the block branch only with the reply's `promptFeedback.blockReason` |
| Gemini.DecodeIsStripped | AI_Translate1.py:72 | the call's answer is unchanged by stripping it again |
| Gemini.PromptOfBody | AI_Translate1.py:40-49 | the request body built from a prompt reads back as that prompt at `contents[0].parts[0].text` |
| Gemini.NoCandidatesYieldsNothing | AI_Translate1.py:68-84 | a dict reply whose `candidates` is absent or has length 0 (an empty list, dict or string) yields no text |
| Gemini.BlockReplyYieldsNothing | AI_Translate1.py:76-81 | a dict reply whose `candidates` is absent or has length 0, and whose `promptFeedback` is a dict holding `blockReason`, takes the block branch with that reason and yields no text |
| Gemini.NoPartsYieldsNothing | AI_Translate1.py:70-75 | when the first candidate is a dict whose `content` is absent, or is a dict whose `parts` is absent or has length 0, the reply takes the parts-missing branch and yields no text |
| Gemini.FirstPartTextIsTranslation | AI_Translate1.py:68-72 | for any dict reply, whatever other fields it has, with a first candidate and a first part, the answer is that part's `text` stripped, or `""` when the part has no `text` |
| Loop.Step | AI_Translate1.py:117-143 | sleep is 5× after a failed read and 1× otherwise; a translation is requested exactly when the read succeeded with new non-empty text, and it is that text; with no request nothing is written and last-observed is kept; a write happens exactly when the request was made, the translation is non-empty and the copy succeeds, and it writes the translation; after a request, last-observed equals what the clipboard now holds, which is the source whenever nothing was written |
| Loop.ReadFailureBacksOff | AI_Translate1.py:118-123 | a failed read requests nothing, writes nothing, keeps last-observed and sleeps 5× |
| Loop.UnchangedIsIgnored | AI_Translate1.py:125 | clipboard text equal to last-observed, or empty, requests nothing, writes nothing and keeps last-observed |
| Loop.TranslatedAndCopied | AI_Translate1.py:130-135 | a non-empty translation that is copied successfully is what the clipboard receives and becomes last-observed |
| Loop.CopyFailureKeepsSource | AI_Translate1.py:136-138 | a non-empty translation whose copy fails writes nothing and makes the source last-observed |
| Loop.TranslationFailureKeepsSource | AI_Translate1.py:139-141 | a missing or empty translation writes nothing and makes the source last-observed |
| Loop.NoRetranslation | AI_Translate1.py:125-141 | after an iteration that reacted to new text, polling the clipboard it left behind requests no translation |
| Session.PollEffect | AI_Translate1.py:117-143 | a poll either requests the clipboard text, which differed from last-observed, and leaves clipboard and last-observed equal, or changes nothing |
| Session.QuietIsIdle | AI_Translate1.py:117-143 | when no other program copies, a settled loop requests nothing over any number of polls and ends where it started |
| Session.SourcesBounded | AI_Translate1.py:125-141 | over any trace, translation requests never outnumber the other programs' copies, plus one for unsettled text present at the start |
| Session.SourcesAreCopies | AI_Translate1.py:125-141 | every text sent for translation was copied by another program, or is the unsettled text present at the start; it is never the loop's own output |
| Session.FromStartOnlyCopiesTranslated | AI_Translate1.py:107-141 | from start-up (clipboard taken as observed), only copied texts are translated, at most one request per copy |
| Scenarios.HelloWorld | AI_Translate1.py:109-143 | start-up on "Hello", then a copy of "World" answered with "世界": exactly "World" is translated and clipboard and last-observed end as "世界" |
| Scenarios.EmptyCopyIgnored | AI_Translate1.py:125 | copying the empty string requests nothing and keeps last-observed |
| Scenarios.BlockedLeavesSource | AI_Translate1.py:128-141 | a `SAFETY` block reply leaves the source on the clipboard as last-observed, and the next poll requests nothing |
| Scenarios.RecopyIsTranslatedAgain | AI_Translate1.py:125-135 | copying "World", having it translated and written, then copying "World" again translates it a second time, because last-observed is then the translation |
| Scenarios.ReadFailureThenRecovery | AI_Translate1.py:117-125 | a failed read sleeps 5× and changes nothing; the following successful read requests the pending text |

## Left out

- The HTTP exchange (`requests.post`, the 30-second timeout, `raise_for_status`, `response.json()`, and the error-body printing at lines 60-65 and 86-93) is network I/O. Its outcome is an input to `Gemini.Translate`: the decoded reply body, or nothing when `requests` raised. The provider's reply is not tied to the prompt.
- `pyperclip.paste` and `pyperclip.copy` are foreign clipboard calls. They are inputs to `Loop.Step` (read text or failure, copy success or failure). `Session` assumes a failed copy leaves the clipboard as it was.
- `Session` treats one loop iteration as atomic. Another program's copy made between the read (line 119) and the write (line 133) is not modelled; the script would overwrite that newer text with the translation.
- The Python built-ins in `PyJson` (`In`, `Len`, `First`, `Index`, `Get`, `StripStr`) and the guard `Gemini.KeyConfigured` are plain definitions with no contract of their own. What they mean for the script is stated by `PyJson.SubstringOccurs`, by `Gemini.Classify` and `Gemini.Decode` against `Expected`, and by `Gemini.FallbackKeyPassesGuard` and `Gemini.Translate`.
- The start-up sequence in `main` (lines 98-114) is not modelled as an operation. That covers its credential check, which is the same predicate as `Gemini.KeyConfigured`, and the initial read. `Session.Start` stands for its result.
- `time.sleep` and the endless loop: each iteration returns a sleep multiplier of the poll interval. Runs are finite event traces.
- `os.getenv` is an input to `Gemini.ResolveKey`. All `print` output is presentation only, including the `safetyRatings` check at lines 79-80, which only prints.
- JSON numbers, booleans and `null` are one `Other` value. No operation in the response check treats them differently, since each raises on them.
- Python exceptions are one `Raised` outcome without a kind. The handler at lines 94-96 turns all of them into `None`.
