/**
 * The popup page: its capture button runs the pipeline inline, reporting
 * progress and errors in a status line, and the list of saved analyses is
 * re-rendered from the store whenever it changes.
 */
module Popup {
  import opened Wrappers
  import opened JsText
  import opened Analysis
  import opened Storage

  const DEFAULT_MODEL := "gpt-4o-mini"
  const NO_KEY_STATUS := "Error: OpenAI API key not set"
  const MODEL_NOT_FOUND := "model_not_found"
  const PERMISSION_HINT := " Please check your OpenAI account permissions and API key."
  const DISPLAY_UPDATED := "Display updated."

  /** `modelName || 'gpt-4o-mini'`. */
  function ModelFor(modelName: Option<string>): string
  {
    if Truthy(modelName) then modelName.value else DEFAULT_MODEL
  }

  /** The request the capture sends, or `None` when the key check returns early. */
  function SentRequest(apiKey: Option<string>, modelName: Option<string>, dataUrl: string): Option<Request>
  {
    if Truthy(apiKey) then Some(RequestFor(apiKey.value, ModelFor(modelName), Payload(dataUrl)))
    else None
  }

  /** A request goes out exactly when the key is set; it carries the stored
      model name unless that is empty or absent, always 300 tokens, and the
      image re-wrapped from the data URL's second comma-separated field. */
  lemma RequestParameters(apiKey: Option<string>, modelName: Option<string>, dataUrl: string)
    ensures SentRequest(apiKey, modelName, dataUrl).Some? <==> Truthy(apiKey)
    ensures Truthy(apiKey) ==>
              var r := SentRequest(apiKey, modelName, dataUrl).value;
              && r.endpoint == ENDPOINT
              && r.httpMethod == "POST"
              && r.contentType == "application/json"
              && r.role == "user"
              && r.authorization == "Bearer " + apiKey.value
              && r.prompt == PROMPT
              && r.maxTokens == 300
              && (Truthy(modelName) ==> r.model == modelName.value)
              && (!Truthy(modelName) ==> r.model == "gpt-4o-mini")
              && (',' !in dataUrl ==> r.imageUrl == "data:image/png;base64,undefined")
              && (',' in dataUrl ==>
                    var rest := dataUrl[FirstIndex(dataUrl, ',') + 1..];
                    r.imageUrl == "data:image/png;base64," + rest[..FirstIndex(rest, ',')])
  {
    PayloadField(dataUrl);
  }

  /** The error message for a non-OK response: the status line, followed by
      the parsed `error.message` when there is a non-empty one, by the raw
      body when parsing throws, and by nothing otherwise. */
  function ErrorText(status: nat, body: string, parsed: ErrorBody): (message: string)
    ensures StatusLine(status) <= message
  {
    match parsed
    case Unparsable => StatusLine(status) + ", message: " + body
    case JsonNull => StatusLine(status) + ", message: " + body
    case JsonValue(m) =>
      if Truthy(m) then StatusLine(status) + ", message: " + m.value else StatusLine(status)
  }

  /** The `let errorMessage … +=` construction inside its try/catch. */
  method BuildErrorMessage(status: nat, errorText: string, parsed: ErrorBody) returns (errorMessage: string)
    ensures errorMessage == ErrorText(status, errorText, parsed)
  {
    errorMessage := StatusLine(status);
    // `JSON.parse` throws, or `errorJson.error` throws on `null`
    var thrown := parsed.Unparsable? || parsed.JsonNull?;
    if !thrown && Truthy(parsed.errorMessage) {
      errorMessage := errorMessage + ", message: " + parsed.errorMessage.value;
    }
    if thrown {
      errorMessage := errorMessage + ", message: " + errorText;
    }
  }

  /** A 401 whose body carries `{"error":{"message":"Invalid key"}}` reports
      the server's message. */
  lemma InvalidKeyReported(body: string)
    ensures Includes(ErrorText(401, body, JsonValue(Some("Invalid key"))), "Invalid key")
  {
    var message := ErrorText(401, body, JsonValue(Some("Invalid key")));
    var at := |StatusLine(401) + ", message: "|;
    assert message[at..at + |"Invalid key"|] == "Invalid key";
    assert OccursAt(message, "Invalid key", at);
    IncludesIff(message, "Invalid key");
  }

  /** The status text the catch block leaves for an error message. */
  function FailureStatus(message: string): string
  {
    "Error: " + message + (if Includes(message, MODEL_NOT_FOUND) then PERMISSION_HINT else "")
  }

  /** How one run of `analyzeScreenshot` ends. */
  function AnalysisOutcome(apiKey: Option<string>, url: string, exchange: Exchange): (o: Outcome)
    ensures !o.NoPayload?
  {
    if !Truthy(apiKey) then NoKey
    else match exchange
      case Rejected(reason) => Failed(reason)
      case Answered(status, body, errorBody, reply) =>
        if !Ok(status) then Failed(ErrorText(status, body, errorBody))
        else match reply
          case Malformed(reason) => Failed(reason)
          case Content(text) => Saved(RecordOf(url, text))
  }

  /** The status line an outcome leaves behind. */
  function StatusAfter(o: Outcome): string
    requires !o.NoPayload?
  {
    match o
    case NoKey => NO_KEY_STATUS
    case Failed(message) => FailureStatus(message)
    case Saved(_) => DISPLAY_UPDATED
  }

  /** Without a key nothing is sent, nothing is saved and the status says so. */
  lemma MissingKey(apiKey: Option<string>, modelName: Option<string>, dataUrl: string, url: string, exchange: Exchange)
    requires apiKey.None? || apiKey.value == ""
    ensures SentRequest(apiKey, modelName, dataUrl) == None
    ensures SavedRecords(AnalysisOutcome(apiKey, url, exchange)) == []
    ensures StatusAfter(AnalysisOutcome(apiKey, url, exchange)) == "Error: OpenAI API key not set"
  {
  }

  /** A record is saved exactly when the key is set and an OK response carries
      a reply; that record is the page URL with the reply's first line as
      title and the rest as notes. */
  lemma SavedOnSuccess(apiKey: Option<string>, url: string, exchange: Exchange)
    ensures AnalysisOutcome(apiKey, url, exchange).Saved? <==>
              Truthy(apiKey) && exchange.Answered? && Ok(exchange.status) && exchange.reply.Content?
    ensures AnalysisOutcome(apiKey, url, exchange).Saved? ==>
              var content := exchange.reply.text;
              var r := AnalysisOutcome(apiKey, url, exchange).record;
              && r.url == url
              && '\n' !in r.title
              && ('\n' in content ==> r.title + "\n" + r.notes == content)
              && ('\n' !in content ==> r.title == content && r.notes == "")
  {
    if exchange.Answered? && exchange.reply.Content? {
      TitleNotes(exchange.reply.text);
    }
  }

  /** A non-OK response saves nothing, and the status starts with
      `Error: HTTP error! status: <status>`; the permission hint is added
      exactly when the message mentions `model_not_found`. */
  lemma HttpFailureStatus(apiKey: Option<string>, url: string, status: nat, body: string, errorBody: ErrorBody, reply: Reply)
    requires Truthy(apiKey) && !Ok(status)
    ensures var o := AnalysisOutcome(apiKey, url, Answered(status, body, errorBody, reply));
            && SavedRecords(o) == []
            && "Error: " + StatusLine(status) <= StatusAfter(o)
            && (Includes(o.message, MODEL_NOT_FOUND) ==>
                  StatusAfter(o) == "Error: " + o.message + PERMISSION_HINT)
            && (!Includes(o.message, MODEL_NOT_FOUND) ==> StatusAfter(o) == "Error: " + o.message)
  {
  }

  /** One analysis block of the rendered list. */
  datatype Panel = Panel(title: string, url: string, notes: string)

  function PanelOf(r: Record): Panel
  {
    Panel(r.title, r.url, r.notes)
  }

  /** The blocks `forEach`/`appendChild` produce, one per record, in order. */
  function Panels(records: seq<Record>): seq<Panel>
  {
    if |records| == 0 then []
    else Panels(records[..|records| - 1]) + [PanelOf(records[|records| - 1])]
  }

  /** The rendering has one block per record and block `k` shows record `k`. */
  lemma {:induction false} PanelsInOrder(records: seq<Record>, k: nat)
    requires k < |records|
    ensures |Panels(records)| == |records|
    ensures Panels(records)[k] == Panel(records[k].title, records[k].url, records[k].notes)
    decreases |records|
  {
    var n := |records|;
    if k < n - 1 {
      PanelsInOrder(records[..n - 1], k);
    } else if n > 1 {
      PanelsInOrder(records[..n - 1], 0);
    }
  }

  /** What the capture button's `chrome.tabs` calls give: the captured data
      URL with the active tab's URL, or the error they throw. */
  datatype Capture = Captured(dataUrl: string, tabUrl: string) | CaptureFailed(reason: string)

  class Page {
    const settings: Settings
    const store: RecordStore
    /** `statusDiv.textContent` */
    var status: string
    /** the children of `analysesList` */
    var display: seq<Panel>

    /** Loading the page renders the stored list. */
    constructor (settings: Settings, store: RecordStore)
      ensures this.settings == settings && this.store == store
      ensures display == Panels(store.Contents()) && status == DISPLAY_UPDATED
    {
      this.settings := settings;
      this.store := store;
      status := "";
      display := [];
      new;
      UpdateAnalysesList();
    }

    /** Clear the list, then append one block per stored record; the result
        does not depend on what was displayed before. */
    method UpdateAnalysesList()
      modifies this
      ensures display == Panels(store.Contents())
      ensures status == DISPLAY_UPDATED
    {
      var analyses := store.List();
      display := [];
      var i := 0;
      while i < |analyses|
        invariant 0 <= i <= |analyses|
        invariant display == Panels(analyses[..i])
      {
        display := display + [PanelOf(analyses[i])];
        assert analyses[..i + 1][..i] == analyses[..i];
        i := i + 1;
      }
      assert analyses[..i] == analyses;
      status := DISPLAY_UPDATED;
    }

    /** `analyzeScreenshot(imageDataUrl, url)`, with the HTTP exchange given. */
    method AnalyzeScreenshot(imageDataUrl: string, url: string, exchange: Exchange) returns (sent: Option<Request>)
      modifies this, store
      ensures sent == SentRequest(old(settings.apiKey), old(settings.modelName), imageDataUrl)
      ensures var o := AnalysisOutcome(old(settings.apiKey), url, exchange);
              && store.Contents() == old(store.Contents()) + SavedRecords(o)
              && (!o.Saved? ==> store.analyses == old(store.analyses))
              && status == StatusAfter(o)
              && display == (if o.Saved? then Panels(store.Contents()) else old(display))
    {
      status := "Preparing to call OpenAI API...";
      var apiKey, modelName := settings.apiKey, settings.modelName;
      if !Truthy(apiKey) {
        status := NO_KEY_STATUS;
        return None;
      }
      var base64Image := Payload(imageDataUrl);
      sent := Some(RequestFor(apiKey.value, ModelFor(modelName), base64Image));
      var failure: Option<string> := None;
      match exchange {
        case Rejected(reason) =>
          failure := Some(reason);
        case Answered(responseStatus, errorText, errorBody, reply) =>
          status := "API response status: " + DecimalText(responseStatus);
          if !Ok(responseStatus) {
            var errorMessage := BuildErrorMessage(responseStatus, errorText, errorBody);
            failure := Some(errorMessage);
          } else {
            match reply {
              case Malformed(reason) =>
                failure := Some(reason);
              case Content(text) =>
                var analysis := RecordOf(url, text);
                status := "Analysis complete. Saving...";
                store.Append(analysis);
                status := "Analysis saved. Updating display...";
                UpdateAnalysesList();
            }
          }
      }
      if failure.Some? {
        status := "Error: " + failure.value;
        if Includes(failure.value, MODEL_NOT_FOUND) {
          status := status + PERMISSION_HINT;
        }
      }
    }

    /** The capture button: a capture error ends in `Error: <message>`
        (without the permission hint); a capture runs the analysis. */
    method CaptureClicked(capture: Capture, exchange: Exchange) returns (sent: Option<Request>)
      modifies this, store
      ensures capture.CaptureFailed? ==>
                && sent == None
                && status == "Error: " + capture.reason
                && store.analyses == old(store.analyses)
                && display == old(display)
      ensures capture.Captured? ==>
                var o := AnalysisOutcome(old(settings.apiKey), capture.tabUrl, exchange);
                && sent == SentRequest(old(settings.apiKey), old(settings.modelName), capture.dataUrl)
                && store.Contents() == old(store.Contents()) + SavedRecords(o)
                && (!o.Saved? ==> store.analyses == old(store.analyses))
                && status == StatusAfter(o)
                && display == (if o.Saved? then Panels(store.Contents()) else old(display))
    {
      status := "Capturing screenshot...";
      match capture {
        case CaptureFailed(reason) =>
          sent := None;
          status := "Error: " + reason;
        case Captured(dataUrl, tabUrl) =>
          status := "Screenshot captured. Analyzing...";
          sent := AnalyzeScreenshot(dataUrl, tabUrl, exchange);
      }
    }
  }
}
