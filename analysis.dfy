/**
 * What both copies of the analysis pipeline share: the persisted record, the
 * split of the model's reply into a title and notes, the extraction of the
 * base64 payload from the captured data URL, the chat-completions request,
 * and the abstract outcome of the HTTP exchange.
 */
module Analysis {
  import opened Wrappers
  import opened JsText

  /** One persisted analysis: the page URL and the title/notes of the reply. */
  datatype Record = Record(url: string, title: string, notes: string)

  /** `content.split('\n')[0]`. */
  function Title(content: string): string
  {
    Split(content, '\n')[0]
  }

  /** `content.split('\n').slice(1).join('\n')`. */
  function Notes(content: string): string
  {
    Join(Split(content, '\n')[1..], '\n')
  }

  /** The record built from the page URL and the reply text. */
  function RecordOf(url: string, content: string): Record
  {
    Record(url, Title(content), Notes(content))
  }

  /** The title is the text before the first newline; the notes are exactly
      the text after it, so the two put back together give the reply. */
  lemma TitleNotes(content: string)
    ensures '\n' !in Title(content)
    ensures Title(content) == content[..FirstIndex(content, '\n')]
    ensures '\n' in content ==>
              Notes(content) == content[FirstIndex(content, '\n') + 1..] &&
              Title(content) + "\n" + Notes(content) == content
    ensures '\n' !in content ==> Title(content) == content && Notes(content) == ""
  {
    SplitHead(content, '\n');
    if '\n' in content {
      var k := FirstIndex(content, '\n');
      JoinSplit(content[k + 1..], '\n');
      assert content == content[..k] + "\n" + content[k + 1..];
    }
  }

  /** Conversely, a reply written as a newline-free title, a newline and any
      notes splits back into exactly that title and those notes. */
  lemma ReplyOfTitleNotes(title: string, notes: string)
    requires '\n' !in title
    ensures Title(title + "\n" + notes) == title
    ensures Notes(title + "\n" + notes) == notes
  {
    var content := title + "\n" + notes;
    BeforeSeparator(title, '\n', notes);
    TitleNotes(content);
    assert content[..|title|] == title;
    assert content[|title| + 1..] == notes;
  }

  /** In `a + [c] + b` with no `c` in `a`, the first `c` is at `|a|`. */
  lemma {:induction false} BeforeSeparator(a: string, c: char, b: string)
    requires c !in a
    ensures FirstIndex(a + [c] + b, c) == |a|
    decreases |a|
  {
    if |a| > 0 {
      BeforeSeparator(a[1..], c, b);
      assert (a + [c] + b)[1..] == a[1..] + [c] + b;
    }
  }

  /** `imageDataUrl.split(',')[1]`: `None` stands for `undefined`. */
  function Payload(dataUrl: string): Option<string>
  {
    Element(Split(dataUrl, ','), 1)
  }

  /** The payload is absent exactly when the data URL has no comma; otherwise
      it is the text between the first comma and the next one (or the end). */
  lemma PayloadField(dataUrl: string)
    ensures Payload(dataUrl).None? <==> ',' !in dataUrl
    ensures ',' in dataUrl ==>
              var rest := dataUrl[FirstIndex(dataUrl, ',') + 1..];
              Payload(dataUrl) == Some(rest[..FirstIndex(rest, ',')])
  {
    SplitHead(dataUrl, ',');
    if ',' in dataUrl {
      var rest := dataUrl[FirstIndex(dataUrl, ',') + 1..];
      SplitHead(rest, ',');
      assert Split(dataUrl, ',')[1] == Split(rest, ',')[0];
    }
  }

  const DATA_URL_PREFIX := "data:image/png;base64,"

  /** The way a template literal renders an optional value. */
  function TemplateText(v: Option<string>): string
  {
    match v
    case Some(t) => t
    case None => "undefined"
  }

  /** `data:image/png;base64,${base64Image}`. */
  function ImageUrl(payload: Option<string>): string
  {
    DATA_URL_PREFIX + TemplateText(payload)
  }

  /** Re-wrapping a comma-free payload and extracting it again gives it back. */
  lemma PayloadOfImageUrl(payload: string)
    requires ',' !in payload
    ensures Payload(ImageUrl(Some(payload))) == Some(payload)
  {
    var url := ImageUrl(Some(payload));
    var head := "data:image/png;base64";
    assert url == head + [','] + payload;
    assert ',' !in head;
    BeforeSeparator(head, ',', payload);
    PayloadField(url);
    assert url[|head| + 1..] == payload;
    assert payload[..FirstIndex(payload, ',')] == payload;
  }

  const ENDPOINT := "https://api.openai.com/v1/chat/completions"
  const PROMPT := "What's in this image? Provide a title and brief notes."
  const MAX_TOKENS := 300

  /** The method, headers and body of the call; its JSON serialisation is
      left out. The body holds one message with a text part and an image part. */
  datatype Request = Request(
    endpoint: string,
    httpMethod: string,
    contentType: string,
    authorization: string,
    model: string,
    role: string,
    prompt: string,
    imageUrl: string,
    maxTokens: nat)

  function RequestFor(apiKey: string, model: string, payload: Option<string>): Request
  {
    Request(ENDPOINT, "POST", "application/json", "Bearer " + apiKey, model, "user",
            PROMPT, ImageUrl(payload), MAX_TOKENS)
  }

  /** JavaScript truthiness of a stored string that may be absent. */
  predicate Truthy(v: Option<string>)
  {
    v.Some? && v.value != ""
  }

  /** What `JSON.parse(errorText)` gives, as far as the error path looks at it:
      a parse failure, the value `null` (on which `errorJson.error` throws),
      or any other value together with its `error.message` string, if any. */
  datatype ErrorBody = Unparsable | JsonNull | JsonValue(errorMessage: Option<string>)

  /** What `(await apiResponse.json()).choices[0].message.content` gives: the
      reply text, or a runtime error with its message when the body is not
      JSON or lacks that string. */
  datatype Reply = Content(text: string) | Malformed(reason: string)

  /** The outcome of `fetch`: a rejected promise with its error message, or a
      response with its status, its body text and the abstract parses of it. */
  datatype Exchange =
    | Rejected(reason: string)
    | Answered(status: nat, body: string, errorBody: ErrorBody, reply: Reply)

  /** `apiResponse.ok`. */
  predicate Ok(status: nat)
  {
    200 <= status <= 299
  }

  /** `HTTP error! status: ${apiResponse.status}`. */
  function StatusLine(status: nat): string
  {
    "HTTP error! status: " + DecimalText(status)
  }

  /** How one analysis ends: no key, no payload (a runtime error before the
      request), an error message, or the record that was saved. */
  datatype Outcome = NoKey | NoPayload | Failed(message: string) | Saved(record: Record)

  /** The records an outcome adds to the store. */
  function SavedRecords(o: Outcome): seq<Record>
  {
    if o.Saved? then [o.record] else []
  }
}
