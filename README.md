# SoilAI page logic, modelled in Dafny

The SoilAI demo page (`script.js`) lets a user upload a soil photo, shows a
(simulated) soil classification with advice, keeps a history of analyses in
local storage and offers a small chat widget with canned answers. Almost all
of the file is browser glue; this project models the sequential logic inside
the event handlers:

- `saveToHistory`: the stored list gets the new entry at the front and is cut
  back by one entry when it has grown past 50 (module `History`, a class
  `HistoryStore` whose `entries` field is the stored list).
- `generateRecommendations` and the demo result generator `simulatedResult`
  (module `Soil`).
- `cannedResponse` and the empty-input guard and delayed answer of
  `sendChat` (module `Chat`, with a class `ChatPanel` for the text box, the
  messages shown and the answers still waiting on their timer).
- The acceptance checks of `handleFiles` (module `Upload`).
- The JavaScript string built-ins these rely on (`startsWith`, `includes`,
  `toLowerCase`, `trim`) in module `JsString`.

Files: `wrappers.dfy` (Option), `jsstring.dfy`, `soil.dfy`, `history.dfy`,
`chat.dfy`, `upload.dfy`.

The `Chat` module also gives a second, independent formulation of the
responder — an ordered rule table with a generic first-match-wins function —
and proves the if-chain equal to it.

## Model

| member | source | states |
|---|---|---|
| `History.AfterSave` | script.js:214 | after one save the new entry is first, the old entries follow in order, and the length grows by one below 50 and stays put at or above 50 |
| `History.AfterSaveCases` | script.js:214 | below 50 entries nothing is lost (`[e] + h`); at or above 50 exactly the oldest (last) entry is dropped (`[e] + h[..|h|-1]`) |
| `History.AfterSaveBound` | script.js:214 | a list of at most 50 stays at most 50; a list already longer than 50 keeps its length (one `pop` only, so it is never cut back to 50) |
| `History.SaveAllKeepsMostRecent` | script.js:212-216 | starting from a list of at most 50, any sequence of saves leaves the first min(50, saved + old) elements of the saved entries in reverse order followed by the old list, so never more than 50 |
| `History.HistoryStore.constructor` | script.js:213 | with nothing stored the list read is empty (`'[]'`) |
| `History.HistoryStore.Restore` | script.js:213 | a list read back from storage is taken as it is, whatever its length |
| `History.HistoryStore.Save` | script.js:212-217 | the stored list becomes `AfterSave(old list, entry)`; the new entry is element 0, the old ones follow, and the cap of 50 is preserved |
| `Soil.SoilTypes` | script.js:178-182 | the demo's soil table: loam (pH 6.5, moisture ปานกลาง, 28 °C), clay (5.8, ชื้น, 26 °C) and sand (7.1, แห้ง, 30 °C), in that order, each with a confidence rounded from its own draw; what the rows guarantee is stated by `Soil.SimulatedResult` |
| `Soil.Round` | script.js:179-181 | `Math.round` returns the integer within half a unit of its argument |
| `Soil.SimulatedResult` | script.js:176-184 | the demo result is row `floor(pick * 3)` of the table: loam for a draw below 1/3, clay from 1/3 to below 2/3, sand from 2/3; each row has its soil's pH and temperature and a confidence of 70–95, 60–90 or 55–90 |
| `Soil.Recommendations` | script.js:203-208 | total: each of the three soil names gets two items of its own and never the generic one; every other name gets exactly the one generic item |
| `Soil.RecommendationsDistinct` | script.js:204-206 | two different known soils share no piece of advice |
| `Soil.RecommendationsByName` | script.js:203-208 | the advice depends on the soil name alone |
| `Soil.SimulatedGetsSpecificAdvice` | script.js:178-183 | every result the demo can produce gets two soil-specific items, never the fallback |
| `JsString.StartsWith` | script.js:80 | `startsWith`: p is a prefix of s; `JsString.StartsWithIncludes` relates it to an occurrence at index 0 |
| `JsString.StartsWithIncludes` | script.js:80 | a prefix is exactly an occurrence at index 0, so a string starting with p also includes p |
| `JsString.Includes` | script.js:283-285 | `includes` as a left-to-right scan; its meaning, an occurrence at some index, is stated by `JsString.IncludesIff` |
| `JsString.IncludesIff` | script.js:283-285 | `includes` is true exactly when the keyword occurs at some index of the query |
| `JsString.LowerChar` | script.js:282 | an ASCII capital becomes the small letter 32 code points later; every other character is unchanged; no capital remains |
| `JsString.Lower` | script.js:282 | `toLowerCase` keeps the length and lowers each character on its own |
| `JsString.IncludesLower` | script.js:282-284 | a keyword found in the query is found, lowered, in the lowered query (so `PH`, `Ph`, `pH` reach the `ph` rule) |
| `JsString.IncludesLetterFree` | script.js:282-285 | lower-casing neither creates nor removes occurrences of a keyword without ASCII letters (the Thai keywords) |
| `JsString.Trim` | script.js:270 | `trim` returns the infix of the input left after removing leading and trailing ECMAScript whitespace; it is empty exactly when the input is all whitespace |
| `Chat.ReplyText` | script.js:283-286 | the four answer strings, one per reply: drainage (283), pH (284), fertiliser (285) and the default (286) |
| `Chat.CannedReply` | script.js:282-286 | the if-chain of `cannedResponse` on the lower-cased query; `Chat.CannedReplyFollowsRules` proves it equal to the first-match-wins rule table, and `Chat.DrainageWins`, `Chat.AcidityOutranksFertiliser`, `Chat.FertiliserIff` and `Chat.UnknownIff` state each outcome |
| `Chat.CannedResponse` | script.js:281-287 | `cannedResponse`: the answer text of the reply `Chat.CannedReply` chooses, so every query gets one of the four answers |
| `Chat.FirstMatchIsFirstFiring` | script.js:283-286 | in an ordered rule list, the first rule that fires decides the answer |
| `Chat.FirstMatchNoneFires` | script.js:286 | when no rule fires, the default answer is given |
| `Chat.CannedReplyFollowsRules` | script.js:281-287 | the responder equals the three-rule table (drainage, pH, fertiliser) applied first-match-wins to the lower-cased query |
| `Chat.DrainageWins` | script.js:283 | a query containing แฉะ or น้ำ gets the drainage answer, even when it also mentions pH or fertiliser |
| `Chat.AcidityOutranksFertiliser` | script.js:284-285 | without a drainage keyword, "ph" in any letter case or กรด gives the pH answer, even when ปุ๋ย also occurs |
| `Chat.FertiliserIff` | script.js:285 | the fertiliser answer is given exactly when ปุ๋ย occurs and none of the four earlier keywords does |
| `Chat.UnknownIff` | script.js:286 | the default answer is given exactly when none of the five keywords occurs |
| `Chat.Submission` | script.js:270 | the guard yields nothing exactly when the input is empty or all whitespace, and otherwise the non-empty trimmed text |
| `Chat.ChatPanel.constructor` | script.js:36-42 | the panel starts with an empty text box, no messages and no waiting answers |
| `Chat.ChatPanel.Type` | script.js:41 | typing sets the text box and changes nothing else |
| `Chat.ChatPanel.Send` | script.js:269-277 | on whitespace-only input nothing changes; otherwise the trimmed text is appended as the user's message, the box is cleared and the trimmed text queued for an answer |
| `Chat.ChatPanel.DeliverReply` | script.js:272-276 | when the timer fires, the oldest waiting query's canned answer is appended as the bot's message and leaves the queue |
| `Upload.CheckUpload` | script.js:77-81 | a file is read exactly when the list exists and is non-empty, its first file's type starts with `image/` and its size is at most 10 MiB; the type is refused before the size |
| `Upload.AlertText` | script.js:80-81 | an alert is shown exactly for the not-an-image and too-large outcomes |
| `Upload.OnlyFirstFileMatters` | script.js:79 | files after the first never change the outcome |
| `Upload.SizeLimitInclusive` | script.js:81 | exactly 10 MiB is accepted and one byte more is refused |
| `Upload.TypeCheckedFirst` | script.js:80-81 | the type test is a case-sensitive prefix test (`IMAGE/JPEG` is refused) and outranks the size test |

## Left out

- Colour statistics of the image and blending them with classifier output: no such code is in `script.js` (`analyzeImage` only calls `simulatedResult`, 157-163), so nothing of it is modelled.
- DOM lookups, event binding, preview and result rendering and the history rendering loop in `loadHistory` (17-75, 92-98, 186-201, 219-233): user interface.
- `FileReader`, camera capture and canvas encoding (83-89, 101-124): browser I/O.
- Script loading and the TensorFlow.js bootstrap (6-15, 127-141): network and foreign code.
- `localStorage` and `JSON.parse`/`JSON.stringify` around the history (213, 215, 221): the stored list is an abstract sequence of entries.
- History.HistoryStore.Save: models only a save that succeeds. Three failure paths throw instead: a stored value that is not valid JSON (`JSON.parse`, 213); a stored value that is valid JSON but not an array, such as `null` or `{}` (`arr.unshift`, 214); and `localStorage.setItem` exceeding the storage quota (215), which is likely given that entries carry data-URL photos of up to 10 MiB. On each of these paths the stored list stays as it was, `loadHistory` is skipped and `analyzeImage`'s catch (168-170) shows an alert; none of this is modelled.
- Time stamps from `Date` (166, 226): an entry's time is an opaque string.
- PDF export with jsPDF (240-259): foreign library.
- Opening and closing the chat panel (262-268): opening replaces the shown messages with a greeting; this is rendering and is not modelled.
- `analyzeImage`'s "no image yet" guard and loading indicator (144-174): UI flow around the modelled pieces.
- JsString.Lower: lowers only the ASCII letters A–Z, not the rest of Unicode as `toLowerCase` does. For the responder this changes no decision. Every keyword is either ASCII (`ph`) or Thai, which has no case. No non-ASCII character lowers to an ASCII `p` or `h`: the only non-ASCII characters whose Unicode lower case is ASCII are U+212A KELVIN SIGN, which becomes `k`, and U+0130, which becomes `i` followed by U+0307. So full lowering finds `ph` and the Thai keywords exactly where this model does.
- Soil.SimulatedResult: computes with exact reals rather than IEEE doubles; the random draws are parameters in [0, 1). This shows at the borders between rows. In doubles, `0.3333333333333333 * 3` rounds to `1.0` and `0.6666666666666666 * 3` rounds to `2.0`. So those two draws pick clay and sand in the browser, while the contract's thirds, computed exactly, give loam and clay for them.
- Chat.ChatPanel.DeliverReply: the 400 ms delay is not modelled; timers of equal delay fire in the order they were set, which is the queue order kept in `pending`.
