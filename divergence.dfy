/**
 * The popup and the background script each carry their own copy of the
 * analysis pipeline. These lemmas say where the copies agree and where they
 * part ways.
 */
module Divergence {
  import opened Wrappers
  import opened JsText
  import opened Analysis
  import Popup
  import Background

  /** When both copies send a request, the requests differ in the model only. */
  lemma RequestsDifferInModelOnly(apiKey: Option<string>, modelName: Option<string>, dataUrl: string)
    requires Background.SentRequest(apiKey, dataUrl).Some?
    ensures Popup.SentRequest(apiKey, modelName, dataUrl).Some?
    ensures Popup.SentRequest(apiKey, modelName, dataUrl).value.(model := "gpt-4-vision-preview")
         == Background.SentRequest(apiKey, dataUrl).value
  {
  }

  /** A data URL without a comma: the popup still sends the request, with the
      image `data:image/png;base64,undefined`; the background copy sends none. */
  lemma CommaFreeDataUrl(apiKey: Option<string>, modelName: Option<string>, dataUrl: string,
                         url: string, exchange: Exchange)
    requires Truthy(apiKey) && ',' !in dataUrl
    ensures Popup.SentRequest(apiKey, modelName, dataUrl).Some?
    ensures Popup.SentRequest(apiKey, modelName, dataUrl).value.imageUrl == "data:image/png;base64,undefined"
    ensures Background.SentRequest(apiKey, dataUrl) == None
    ensures Background.AnalysisOutcome(apiKey, dataUrl, url, exchange) == NoPayload
  {
    PayloadField(dataUrl);
  }

  /** Once past the key and payload checks, the copies end the same way, except
      that a non-OK response is reported by the background copy as the popup
      reports a body that does not parse. */
  lemma SameOutcome(apiKey: Option<string>, dataUrl: string, url: string, exchange: Exchange)
    requires Truthy(apiKey) && ',' in dataUrl
    ensures exchange.Answered? && !Ok(exchange.status) ==>
              (Background.AnalysisOutcome(apiKey, dataUrl, url, exchange)
               == Popup.AnalysisOutcome(apiKey, url, exchange.(errorBody := Unparsable)))
    ensures !(exchange.Answered? && !Ok(exchange.status)) ==>
              (Background.AnalysisOutcome(apiKey, dataUrl, url, exchange)
               == Popup.AnalysisOutcome(apiKey, url, exchange))
  {
    PayloadField(dataUrl);
  }
}
