/**
 * The background script: a runtime message asking for a capture takes a
 * screenshot, saves it as a download, looks the download up and, when it is
 * found, runs its own copy of the analysis pipeline with a fixed model.
 */
module Background {
  import opened Wrappers
  import opened JsText
  import opened Analysis
  import opened Storage

  const CAPTURE_ACTION := "captureScreenshot"
  const VISION_MODEL := "gpt-4-vision-preview"
  const UPDATE_ANALYSES := "updateAnalyses"

  /** `request.action === "captureScreenshot"`; an absent action is `None`. */
  predicate StartsCapture(action: Option<string>)
  {
    action == Some(CAPTURE_ACTION)
  }

  /** An entry of what `chrome.downloads.search` reports. */
  datatype DownloadItem = DownloadItem(filename: string)

  /** `downloads && downloads[0]`: a list came back and it is not empty. */
  predicate DownloadFound(downloads: Option<seq<DownloadItem>>)
  {
    downloads.Some? && |downloads.value| > 0
  }

  /** The request this copy sends: none without a key, and none when the data
      URL has no comma (reading `base64Image.length` then throws). */
  function SentRequest(apiKey: Option<string>, dataUrl: string): Option<Request>
  {
    if !Truthy(apiKey) then None
    else match Payload(dataUrl)
      case None => None
      case Some(payload) => Some(RequestFor(apiKey.value, VISION_MODEL, Some(payload)))
  }

  /** A request goes out exactly when the key is set and the data URL has a
      comma; its model is always `gpt-4-vision-preview` and its limit 300. */
  lemma RequestParameters(apiKey: Option<string>, dataUrl: string)
    ensures SentRequest(apiKey, dataUrl).Some? <==> Truthy(apiKey) && ',' in dataUrl
    ensures SentRequest(apiKey, dataUrl).Some? ==>
              var r := SentRequest(apiKey, dataUrl).value;
              var rest := dataUrl[FirstIndex(dataUrl, ',') + 1..];
              && r.endpoint == ENDPOINT
              && r.httpMethod == "POST"
              && r.contentType == "application/json"
              && r.role == "user"
              && r.authorization == "Bearer " + apiKey.value
              && r.model == "gpt-4-vision-preview"
              && r.prompt == PROMPT
              && r.maxTokens == 300
              && r.imageUrl == "data:image/png;base64," + rest[..FirstIndex(rest, ',')]
  {
    PayloadField(dataUrl);
  }

  /** `HTTP error! status: ${status}, message: ${errorText}`. */
  function ErrorText(status: nat, body: string): string
  {
    StatusLine(status) + ", message: " + body
  }

  /** How one run of this copy's `analyzeScreenshot` ends. */
  function AnalysisOutcome(apiKey: Option<string>, dataUrl: string, url: string, exchange: Exchange): Outcome
  {
    if !Truthy(apiKey) then NoKey
    else if Payload(dataUrl).None? then NoPayload
    else match exchange
      case Rejected(reason) => Failed(reason)
      case Answered(status, body, _, reply) =>
        if !Ok(status) then Failed(ErrorText(status, body))
        else match reply
          case Malformed(reason) => Failed(reason)
          case Content(text) => Saved(RecordOf(url, text))
  }

  /** A non-OK response ends with the status and the raw body whatever the
      body parses to, and saves nothing. */
  lemma HttpFailure(apiKey: Option<string>, dataUrl: string, url: string, status: nat, body: string, reply: Reply, e1: ErrorBody, e2: ErrorBody)
    requires Truthy(apiKey) && ',' in dataUrl && !Ok(status)
    ensures AnalysisOutcome(apiKey, dataUrl, url, Answered(status, body, e1, reply))
         == AnalysisOutcome(apiKey, dataUrl, url, Answered(status, body, e2, reply))
         == Failed(StatusLine(status) + ", message: " + body)
  {
    PayloadField(dataUrl);
  }

  /** A record is saved exactly when the key is set, the payload exists and an
      OK response carries a reply; its title is the reply's first line and its
      notes exactly the text after that line. */
  lemma SavedOnSuccess(apiKey: Option<string>, dataUrl: string, url: string, exchange: Exchange)
    ensures AnalysisOutcome(apiKey, dataUrl, url, exchange).Saved? <==>
              && Truthy(apiKey) && ',' in dataUrl
              && exchange.Answered? && Ok(exchange.status) && exchange.reply.Content?
    ensures AnalysisOutcome(apiKey, dataUrl, url, exchange).Saved? ==>
              var content := exchange.reply.text;
              var r := AnalysisOutcome(apiKey, dataUrl, url, exchange).record;
              var k := FirstIndex(content, '\n');
              && r.url == url
              && r.title == content[..k]
              && r.notes == (if k < |content| then content[k + 1..] else "")
  {
    PayloadField(dataUrl);
    if exchange.Answered? && exchange.reply.Content? {
      TitleNotes(exchange.reply.text);
    }
  }

  class Script {
    const settings: Settings
    const store: RecordStore
    /** the messages sent with `chrome.runtime.sendMessage` */
    var outbox: seq<string>

    constructor (settings: Settings, store: RecordStore)
      ensures this.settings == settings && this.store == store && outbox == []
    {
      this.settings := settings;
      this.store := store;
      outbox := [];
    }

    /** The `onMessage` listener, with what the capture and the download lookup
        report given: only a capture request whose download is found analyses.
        `senderTab` is the URL of the sender's tab, `None` when the sender has
        no tab (then `sender.tab.url` throws before the analysis starts). */
    method OnMessage(action: Option<string>, dataUrl: string, downloads: Option<seq<DownloadItem>>,
                     senderTab: Option<string>, exchange: Exchange)
      returns (sent: Option<Request>)
      modifies this, store
      ensures !(StartsCapture(action) && DownloadFound(downloads) && senderTab.Some?) ==>
                sent == None && store.analyses == old(store.analyses) && outbox == old(outbox)
      ensures StartsCapture(action) && DownloadFound(downloads) && senderTab.Some? ==>
                var o := AnalysisOutcome(old(settings.apiKey), dataUrl, senderTab.value, exchange);
                && sent == SentRequest(old(settings.apiKey), dataUrl)
                && store.Contents() == old(store.Contents()) + SavedRecords(o)
                && (!o.Saved? ==> store.analyses == old(store.analyses))
                && outbox == old(outbox) + (if o.Saved? then [UPDATE_ANALYSES] else [])
    {
      sent := None;
      if action == Some(CAPTURE_ACTION) {
        if downloads.Some? && |downloads.value| > 0 {
          match senderTab {
            case None =>
            case Some(tabUrl) =>
              var outcome;
              sent, outcome := AnalyzeScreenshot(dataUrl, tabUrl, exchange);
          }
        }
      }
    }

    /** `analyzeScreenshot(imageDataUrl, url)`; `outcome` is what the run ends
        with (the script only logs it). */
    method AnalyzeScreenshot(imageDataUrl: string, url: string, exchange: Exchange)
      returns (sent: Option<Request>, outcome: Outcome)
      modifies this, store
      ensures outcome == AnalysisOutcome(old(settings.apiKey), imageDataUrl, url, exchange)
      ensures sent == SentRequest(old(settings.apiKey), imageDataUrl)
      ensures store.Contents() == old(store.Contents()) + SavedRecords(outcome)
      ensures !outcome.Saved? ==> store.analyses == old(store.analyses)
      ensures outbox == old(outbox) + (if outcome.Saved? then [UPDATE_ANALYSES] else [])
    {
      var apiKey := settings.apiKey;
      if !Truthy(apiKey) {
        return None, NoKey;
      }
      var base64Image := Payload(imageDataUrl);
      if base64Image.None? {
        return None, NoPayload;
      }
      sent := Some(RequestFor(apiKey.value, VISION_MODEL, base64Image));
      match exchange {
        case Rejected(reason) =>
          outcome := Failed(reason);
        case Answered(status, errorText, _, reply) =>
          if !Ok(status) {
            outcome := Failed(StatusLine(status) + ", message: " + errorText);
          } else {
            match reply {
              case Malformed(reason) =>
                outcome := Failed(reason);
              case Content(text) =>
                var analysis := RecordOf(url, text);
                store.Append(analysis);
                outbox := outbox + [UPDATE_ANALYSES];
                outcome := Saved(analysis);
            }
          }
      }
    }
  }
}
