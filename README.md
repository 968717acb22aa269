# AI-Screenshot: the capture → analyse → persist pipeline

A browser extension captures the visible tab as a PNG data URL. It sends the
image to a chat-completions endpoint and saves the reply as a record of page
URL, title and notes in a persisted list. Two files each have their own copy
of this pipeline. The popup (`popup.js`) runs it from its capture button and
reports through a status line. The background script (`background.js`) runs
it when it gets a `captureScreenshot` message and the screenshot download is
found.

The model is written in Dafny over plain values:

- `js_text.dfy` (module `JsText`) gives the JavaScript string operations the
  pipeline uses: `split` with a one-character separator, `join`, array
  indexing that yields `undefined` past the end, `includes`, and the decimal
  text of a status code.
- `analysis.dfy` (module `Analysis`) holds what both copies share: the
  record, the title/notes split of the reply, the base64 payload of the data
  URL, the request, and the abstract outcome of the HTTP exchange.
- `storage.dfy` (module `Storage`) holds the synced settings (key, model name)
  and the local `analyses` list as classes. The list reads as `[]` until it is
  first written, and `Append` is the read-push-write of both files.
- `popup.dfy` (module `Popup`) holds the popup's pipeline as functions
  that say how a run ends, and the page as a class. The class has a status line, a rendered
  list, and methods for the capture button, `analyzeScreenshot` and
  `updateAnalysesList`.
- `background.dfy` (module `Background`) holds the background copy: the
  message gate, the download check, the fixed model, the raw-body error text,
  and the "updateAnalyses" notification.
- `divergence.dfy` (module `Divergence`) says where the two copies agree and
  where they differ.

Inputs the code gets from the platform are parameters:

- the capture result and the download lookup;
- the settings read from storage;
- the outcome of `fetch` (`Exchange`): a rejection, or a status, a body text
  and the abstract results of `JSON.parse` on that body.

The request a run sends is returned as a value.

Edge cases of the code that the model keeps:

- In `popup.js` a non-OK body that parses without a non-empty
  `error.message` adds nothing to the error message. A body of `null` makes
  `errorJson.error` throw, and the catch then adds the raw body. `ErrorBody`
  has a `JsonNull` case for this, so it is a three-case type rather than a
  nested option.
- `background.js` never inspects the JSON: it always adds the raw body.
- If the data URL has no comma, `popup.js` still sends a request, with the
  image `data:image/png;base64,undefined`. `background.js` fails on
  `base64Image.length` and sends nothing (`NoPayload`).
- Errors thrown by the capture step are shown by the popup's outer catch as
  `Error: <message>` without the `model_not_found` hint. Only the catch inside
  `analyzeScreenshot` adds the hint.

## Model

| member | source | states |
|---|---|---|
| `JsText.FirstIndex` | popup.js:95 | the index of the first occurrence of the separator, or the length when there is none; no separator before it |
| `JsText.Split` | popup.js:95 | `split` never returns an empty array |
| `JsText.SplitHead` | popup.js:95-96 | the first field is the text before the first separator; with no separator the split is the whole text; otherwise the other fields are the split of the text after it |
| `JsText.JoinSplit` | popup.js:96 | joining the fields of a split with the same separator gives the original text back |
| `JsText.IncludesIff` | popup.js:114 | `includes` holds exactly when the substring occurs at some index |
| `JsText.DecimalText` | popup.js:78 | the status text is a non-empty string of decimal digits, with no leading zero unless the status is 0 |
| `JsText.DecimalRoundTrip` | popup.js:78 | the status text reads back as the status code |
| `Analysis.TitleNotes` | popup.js:95-96 | the title has no newline and is the text before the first one; with a newline, the notes are exactly the text after it and title + "\n" + notes is the reply; without one, the title is the reply and the notes are empty |
| `Analysis.ReplyOfTitleNotes` | background.js:84-85 | a reply made of a newline-free title, a newline and notes splits back into that title and those notes |
| `Analysis.PayloadField` | popup.js:49 | the payload is absent exactly when the data URL has no comma; otherwise it is the text from the first comma up to the second comma or the end |
| `Analysis.PayloadOfImageUrl` | popup.js:65 | re-wrapping a comma-free payload as `data:image/png;base64,` + payload and extracting it again gives the payload |
| `Storage.Settings.constructor` | popup.js:42 | the settings hold the stored key and model name, each possibly absent |
| `Storage.RecordStore.constructor` | popup.js:102 | a store that was never written holds nothing and reads as `[]` |
| `Storage.RecordStore.List` | popup.js:121-122 | reading gives the stored list, or `[]` when none is stored |
| `Storage.RecordStore.Append` | popup.js:102-105 | the stored list becomes the old list plus the record: one more element, the record last, the earlier ones unchanged and in order |
| `Popup.RequestParameters` | popup.js:44-70 | a request is sent exactly when the key is non-empty; it is a `POST` of `application/json` to the fixed endpoint with `Bearer <key>`, one `user` message with the fixed prompt, the stored model name if non-empty, else `gpt-4o-mini`, always 300 tokens, and the image built from the data URL's second comma field (`undefined` if there is none) |
| `Popup.ErrorText` | popup.js:78-86 | the error message always starts with `HTTP error! status: <status>` |
| `Popup.BuildErrorMessage` | popup.js:78-86 | the message built with `+=` in the try/catch adds `, message: <error.message>` when that is non-empty, `, message: <body>` when parsing throws, and nothing otherwise |
| `Popup.InvalidKeyReported` | popup.js:80-82 | a 401 with error message "Invalid key" produces a message that includes "Invalid key" |
| `Popup.AnalysisOutcome` | popup.js:39-118 | the popup copy never ends in a missing-payload failure |
| `Popup.MissingKey` | popup.js:44-47 | an absent or empty key sends nothing, saves nothing and leaves `Error: OpenAI API key not set` |
| `Popup.SavedOnSuccess` | popup.js:75-105 | a record is saved exactly when the key is set and an OK response has reply text; the record has the page URL, a newline-free title, and title and notes that rebuild the reply |
| `Popup.HttpFailureStatus` | popup.js:75-116 | a non-OK response saves nothing; the status starts with `Error: HTTP error! status: <status>`, and the permission hint is appended exactly when the message includes `model_not_found` |
| `Popup.PanelsInOrder` | popup.js:123-133 | the rendering has one block per record, and block k shows record k's title, URL and notes |
| `Popup.Page.constructor` | popup.js:138 | a loaded page shows the stored list, in order |
| `Popup.Page.UpdateAnalysesList` | popup.js:120-136 | the display is replaced by the blocks of the stored list, whatever was shown before, and the status is `Display updated.` |
| `Popup.Page.AnalyzeScreenshot` | popup.js:39-118 | the request sent is the one `SentRequest` gives; the store gains exactly the outcome's saved record, and on any failure it is not written at all; the status is the outcome's final text; the display is refreshed only after a save |
| `Popup.Page.CaptureClicked` | popup.js:27-37 | a capture error sends nothing, changes no data and leaves `Error: <message>`; a capture runs the analysis on the data URL and the tab's URL |
| `Background.RequestParameters` | background.js:37-70 | a request is sent exactly when the key is set and the data URL has a comma; it is a `POST` of `application/json` with `Bearer <key>` and one `user` message; its model is always `gpt-4-vision-preview`, its limit 300, and its image the re-wrapped second comma field |
| `Background.HttpFailure` | background.js:74-77 | a non-OK response always fails with `HTTP error! status: <status>, message: <raw body>`, whatever the body parses to |
| `Background.SavedOnSuccess` | background.js:79-94 | a record is saved exactly when the key is set, the payload exists and an OK response has reply text; its title is the text before the first newline, and its notes are the text after it, or empty |
| `Background.Script.OnMessage` | background.js:1-27 | a message whose action is not `captureScreenshot`, whose download lookup is empty or missing, or whose sender has no tab, sends nothing and changes nothing; otherwise the analysis runs on the sender tab's URL |
| `Background.Script.AnalyzeScreenshot` | background.js:29-107 | the run ends as `AnalysisOutcome` says; the store gains exactly the saved record and is not written when nothing is saved; `updateAnalyses` is sent only after a save |
| `Divergence.RequestsDifferInModelOnly` | background.js:57-69 | whenever the background copy sends a request, the popup sends the same one except for the model |
| `Divergence.CommaFreeDataUrl` | background.js:45-46 | with a comma-free data URL, the popup sends an image of `...base64,undefined` while the background copy sends nothing and ends in `NoPayload`, for every page URL and every exchange |
| `Divergence.SameOutcome` | background.js:74-77 | past the key and payload checks, both copies end alike; a non-OK response in the background copy ends as an unparsable body does in the popup |

## Left out

- The `chrome.tabs`, `chrome.downloads`, `chrome.storage` and `chrome.runtime` calls and `fetch` are platform and network I/O. Their results are parameters: `Capture`, the download lookup, the `Settings` values, and `Exchange`.
- Saving the screenshot as `img/screenshot_<Date.now()>.png` is left out. The clock and the download are I/O; only the lookup's result gates the analysis.
- `JSON.parse`, `apiResponse.json()` and `JSON.stringify` are left out. Their results are the abstract `ErrorBody` and `Reply` values, and the request is a `Request` value, not serialised text.
- `Popup.ErrorText`: an `error.message` that is not a string (a number, say) is not modelled. `ErrorBody` carries only string messages.
- Async and callback ordering, and the lost update when two appends interleave, are left out. Each method runs to completion, so `updateAnalysesList`'s callback finishes before `analyzeScreenshot` returns.
- `Popup.Page.AnalyzeScreenshot`: only the final status text is stated. The progress texts are assigned but not part of the contract, because they are UI.
- The `innerHTML` templating of a block (`<h3>`, `URL: `, `Notes: `) is left out, because it is DOM work. A block is a `Panel` value holding the record's three fields, with no escaping, as in the source.
- `console` logging is left out. This includes the background script's `includes('API key')` branch, which only logs.
- The settings form is UI outside the pipeline and is left out: loading the saved values into the inputs (popup.js:9-17) and saving them (popup.js:19-25). The pipeline reads the stored values from `Settings`.
- Popup.Page.CaptureClicked: the tab's URL is taken to be a string. A tab whose `url` is undefined (popup.js:33) would be saved with url `undefined`; that record is not modelled.
- The background capture callback's `dataUrl` is taken to be a string. A failed capture, which would leave it undefined, is not modelled.
- Whether anything receives the `updateAnalyses` message is left out. Only the send is recorded, in `outbox`.
