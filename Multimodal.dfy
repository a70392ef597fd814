/** The request/response helpers of server/gemini_multimodal_service.py
    (`GeminiMultimodalService`): history formatting, the search tool's result
    shaping, and the two content-generation entry points with their history
    seeding. The model reply, the search HTTP call and base64 decoding are
    outside the core and arrive as parameters. */
module Multimodal {
  import opened PyValues

  const SearchProducts: string := "search_products"
  const SeedAcknowledgement: string := "I'll help you find products and answer your questions."
  const MaxSearchResults: nat := 5

  /** A history entry as the caller sends it, e.g. `{"role": ..., "content": ...}`. */
  type Message = map<string, Value>

  /** `{"role": role, "parts": [{"text": text}]}` */
  datatype Content = Content(role: string, text: Value)

  // ---------------------------------------------------------------- history

  /** The API role of a history entry: "user" stays "user", "assistant"
      becomes "model", anything else is dropped. */
  function ApiRole(message: Message): Option<string> {
    var role := Get(message, "role", VStr(""));
    if role == VStr("user") then Some("user")
    else if role == VStr("assistant") then Some("model")
    else None
  }

  function Formatted(message: Message): Content
    requires ApiRole(message).Some?
  {
    Content(ApiRole(message).value, Get(message, "content", VStr("")))
  }

  /** What `_format_history` builds, defined on the last entry so that it
      follows the loop. */
  function FormatHistorySpec(history: seq<Message>): seq<Content> {
    if history == [] then []
    else
      var init := FormatHistorySpec(history[..|history| - 1]);
      var last := history[|history| - 1];
      if ApiRole(last).Some? then init + [Formatted(last)] else init
  }

  /** The number of user and assistant entries. */
  function KeptCount(history: seq<Message>): nat {
    if history == [] then 0
    else KeptCount(history[..|history| - 1]) + (if ApiRole(history[|history| - 1]).Some? then 1 else 0)
  }

  /** `_format_history(history)` */
  method FormatHistory(history: seq<Message>) returns (formatted: seq<Content>)
    ensures formatted == FormatHistorySpec(history)
    ensures |formatted| == KeptCount(history) <= |history|
    ensures forall k :: 0 <= k < |formatted| ==> formatted[k].role in {"user", "model"}
  {
    formatted := [];
    var i := 0;
    while i < |history|
      invariant 0 <= i <= |history|
      invariant formatted == FormatHistorySpec(history[..i])
      invariant |formatted| == KeptCount(history[..i]) <= i
      invariant forall k :: 0 <= k < |formatted| ==> formatted[k].role in {"user", "model"}
    {
      assert history[..i + 1][..i] == history[..i];
      var message := history[i];
      var role := Get(message, "role", VStr(""));
      var content := Get(message, "content", VStr(""));
      if role == VStr("user") {
        formatted := formatted + [Content("user", content)];
      } else if role == VStr("assistant") {
        formatted := formatted + [Content("model", content)];
      }
      i := i + 1;
    }
    assert history[..i] == history;
  }

  /** Formatting distributes over concatenation: it keeps the relative order
      of the entries it keeps. */
  lemma {:induction false} FormatHistoryAppend(a: seq<Message>, b: seq<Message>)
    ensures FormatHistorySpec(a + b) == FormatHistorySpec(a) + FormatHistorySpec(b)
    decreases |b|
  {
    if b == [] {
      assert a + b == a;
    } else {
      var b' := b[..|b| - 1];
      assert (a + b)[..|a + b| - 1] == a + b';
      assert (a + b)[|a + b| - 1] == b[|b| - 1];
      FormatHistoryAppend(a, b');
    }
  }

  /** A single entry: user and assistant entries become one message with the
      mapped role and the entry's content as its text; any other role
      (or a missing one) yields nothing. */
  lemma FormatHistorySingle(message: Message)
    ensures Get(message, "role", VStr("")) == VStr("user") ==>
              FormatHistorySpec([message]) == [Content("user", Get(message, "content", VStr("")))]
    ensures Get(message, "role", VStr("")) == VStr("assistant") ==>
              FormatHistorySpec([message]) == [Content("model", Get(message, "content", VStr("")))]
    ensures Get(message, "role", VStr("")) !in {VStr("user"), VStr("assistant")} ==>
              FormatHistorySpec([message]) == []
  {
    assert [message][..0] == [];
  }

  // --------------------------------------------------------- function calls

  /** A function call's arguments: a mapping, or a string that `json.loads`
      turns into `decoded` (None when it fails or is not an object). */
  datatype Args = MapArgs(entries: map<string, Value>) | TextArgs(raw: string, decoded: Option<map<string, Value>>)

  datatype FunctionCall = FunctionCall(name: string, args: Args)

  /** What the search endpoint's JSON reply looks like to the core: its
      `results` list if it has one, or the exception the request raised. */
  datatype SearchResponse = SearchData(results: Option<seq<map<string, Value>>>) | SearchRaised(message: string)

  /** The five fields of a search result passed back to the model. */
  datatype SearchItem = SearchItem(id: Value, name: Value, price: Value, imageUrl: Value, aisle: Value)

  datatype FunctionResult =
    | Results(functionName: string, items: seq<SearchItem>)
    | Failed(functionName: string, error: string)

  /** The query a search call is made with: the mapping's "query" (default
      ''), the decoded JSON object's "query" (default ''), or the raw
      argument text when it does not decode. */
  function ExtractQuery(args: Args): (q: Value)
    ensures args.MapArgs? ==> q == Get(args.entries, "query", VStr(""))
    ensures args.MapArgs? && "query" !in args.entries ==> q == VStr("")
    ensures args.TextArgs? && args.decoded.Some? ==> q == Get(args.decoded.value, "query", VStr(""))
    ensures args.TextArgs? && args.decoded.None? ==> q == VStr(args.raw)
  {
    match args
    case MapArgs(m) => Get(m, "query", VStr(""))
    case TextArgs(raw, decoded) =>
      match decoded
      case Some(m) => Get(m, "query", VStr(""))
      case None => VStr(raw)
  }

  function Project(product: map<string, Value>): SearchItem {
    SearchItem(Get(product, "id", VStr("")), Get(product, "name", VStr("")), Get(product, "price", VStr("")),
               Get(product, "image_url", VStr("")), Get(product, "aisle", VStr("")))
  }

  function Min(a: nat, b: nat): nat { if a <= b then a else b }

  /** `_process_function_call(function_call)`; `search` stands for the HTTP
      request to the search endpoint, given the query text. */
  method ProcessFunctionCall(call: FunctionCall, search: string -> SearchResponse) returns (r: FunctionResult)
    ensures call.name != SearchProducts ==> r == Failed(call.name, "Unsupported function")
    ensures call.name == SearchProducts ==>
              match search(Show(ExtractQuery(call.args)))
              case SearchRaised(e) => r == Failed(SearchProducts, e)
              case SearchData(None) => r == Results(SearchProducts, [])
              case SearchData(Some(rs)) =>
                && r.Results? && r.functionName == SearchProducts
                && |r.items| == Min(MaxSearchResults, |rs|)
                && forall k :: 0 <= k < |r.items| ==> r.items[k] == Project(rs[k])
  {
    if call.name != SearchProducts {
      return Failed(call.name, "Unsupported function");
    }
    var query := ExtractQuery(call.args);
    match search(Show(query)) {
      case SearchRaised(e) =>
        r := Failed(SearchProducts, e);
      case SearchData(None) =>
        r := Results(SearchProducts, []);
      case SearchData(Some(rs)) =>
        var limited := if |rs| <= MaxSearchResults then rs else rs[..MaxSearchResults];
        var items: seq<SearchItem> := [];
        var i := 0;
        while i < |limited|
          invariant 0 <= i <= |limited|
          invariant |items| == i
          invariant forall k :: 0 <= k < i ==> items[k] == Project(limited[k])
        {
          var product := limited[i];
          items := items + [SearchItem(Get(product, "id", VStr("")), Get(product, "name", VStr("")),
                                       Get(product, "price", VStr("")), Get(product, "image_url", VStr("")),
                                       Get(product, "aisle", VStr("")))];
          i := i + 1;
        }
        r := Results(SearchProducts, items);
    }
  }

  // ----------------------------------------------------- content generation

  /** What the model answers to the follow-up carrying a function result. */
  datatype FollowUp = FollowUpText(text: string) | FollowUpNoText | FollowUpRaised(message: string)

  /** One part of the model's reply. */
  datatype Part =
    | CallPart(call: FunctionCall, followUp: FollowUp)
    | TextPart(text: string)
    | OtherPart

  datatype ModelReply = Reply(parts: seq<Part>) | ReplyRaised(message: string)

  /** The dictionary `generate_content` returns: `{"text", "function_results"}`
      or `{"error"}`. */
  datatype Generated = Generated(text: string, functionResults: seq<FunctionResult>) | GenerationError(error: string)

  /** What the chat is started with and sent. */
  datatype Request = Request(history: seq<Content>, text: string, image: Option<string>)

  /** The two messages a chat is seeded with when there is no usable history. */
  function SeedHistory(instructions: string): seq<Content> {
    [Content("user", VStr(instructions)), Content("model", VStr(SeedAcknowledgement))]
  }

  /** The history the chat starts with: the formatted history, or the seed
      when that is empty (no history, an empty one, or one without user and
      assistant entries). */
  function ChatHistory(history: Option<seq<Message>>, instructions: string): seq<Content> {
    var formatted := if history.Some? && history.value != [] then FormatHistorySpec(history.value) else [];
    if formatted == [] then SeedHistory(instructions) else formatted
  }

  /** Seeding happens exactly when no entry survives formatting, and then the
      chat starts with the instructions as a user message followed by the
      fixed acknowledgement from the model. */
  lemma ChatHistorySeeded(history: Option<seq<Message>>, instructions: string)
    ensures var n := if history.Some? then KeptCount(history.value) else 0;
            && (n == 0 ==>
                  ChatHistory(history, instructions)
                  == [Content("user", VStr(instructions)), Content("model", VStr(SeedAcknowledgement))])
            && (n > 0 ==> ChatHistory(history, instructions) == FormatHistorySpec(history.value)
                          && |ChatHistory(history, instructions)| == n)
  {
    if history.Some? {
      FormatHistoryCount(history.value);
    }
  }

  lemma {:induction false} FormatHistoryCount(history: seq<Message>)
    ensures |FormatHistorySpec(history)| == KeptCount(history)
  {
    if history != [] {
      FormatHistoryCount(history[..|history| - 1]);
    }
  }

  /** The texts and function results a reply accumulates, defined on the
      last part; an exception in a follow-up ends in an error. */
  function Accumulated(parts: seq<Part>, search: string -> SearchResponse): Generated {
    if parts == [] then Generated("", [])
    else
      match Accumulated(parts[..|parts| - 1], search)
      case GenerationError(e) => GenerationError(e)
      case Generated(text, results) =>
        match parts[|parts| - 1]
        case CallPart(call, followUp) =>
          var fr := CallResult(call, search);
          (match followUp
           case FollowUpRaised(e) => GenerationError(e)
           case FollowUpText(t) => Generated(text + t, results + [fr])
           case FollowUpNoText => Generated(text, results + [fr]))
        case TextPart(t) => Generated(text + t, results)
        case OtherPart => Generated(text, results)
  }

  /** The value `ProcessFunctionCall` produces. */
  function CallResult(call: FunctionCall, search: string -> SearchResponse): FunctionResult {
    if call.name != SearchProducts then Failed(call.name, "Unsupported function")
    else match search(Show(ExtractQuery(call.args)))
      case SearchRaised(e) => Failed(SearchProducts, e)
      case SearchData(None) => Results(SearchProducts, [])
      case SearchData(Some(rs)) => Results(SearchProducts, ProjectAll(if |rs| <= MaxSearchResults then rs else rs[..MaxSearchResults]))
  }

  function ProjectAll(products: seq<map<string, Value>>): (r: seq<SearchItem>)
    ensures |r| == |products|
    ensures forall k :: 0 <= k < |r| ==> r[k] == Project(products[k])
  {
    if products == [] then [] else [Project(products[0])] + ProjectAll(products[1..])
  }

  /** The processing loop shared by both entry points. */
  method CollectReply(parts: seq<Part>, search: string -> SearchResponse) returns (r: Generated)
    ensures r == Accumulated(parts, search)
  {
    var text := "";
    var results: seq<FunctionResult> := [];
    var i := 0;
    while i < |parts|
      invariant 0 <= i <= |parts|
      invariant Accumulated(parts[..i], search) == Generated(text, results)
    {
      assert parts[..i + 1][..i] == parts[..i];
      match parts[i] {
        case CallPart(call, followUp) =>
          var fr := ProcessFunctionCall(call, search);
          assert fr == CallResult(call, search);
          results := results + [fr];
          match followUp {
            case FollowUpRaised(e) =>
              assert Accumulated(parts[..i + 1], search) == GenerationError(e);
              AccumulatedKeepsError(parts, i + 1, search);
              return GenerationError(e);
            case FollowUpText(t) =>
              text := text + t;
            case FollowUpNoText =>
          }
        case TextPart(t) =>
          if t != "" {
            text := text + t;
          }
        case OtherPart =>
      }
      i := i + 1;
    }
    assert parts[..i] == parts;
    r := Generated(text, results);
  }

  /** Once a prefix ends in an error, the whole reply does. */
  lemma {:induction false} AccumulatedKeepsError(parts: seq<Part>, n: nat, search: string -> SearchResponse)
    requires n <= |parts| && Accumulated(parts[..n], search).GenerationError?
    ensures Accumulated(parts, search) == Accumulated(parts[..n], search)
    decreases |parts| - n
  {
    if n == |parts| {
      assert parts[..n] == parts;
    } else {
      assert parts[..n + 1][..n] == parts[..n];
      AccumulatedKeepsError(parts, n + 1, search);
    }
  }

  /** Accumulation over a reply split in two: an error in the first part
      ends everything, then an error in the second; otherwise the texts are
      concatenated and the function results kept in reply order. */
  function Combined(x: Generated, y: Generated): Generated {
    match x
    case GenerationError(e) => GenerationError(e)
    case Generated(ta, ra) =>
      match y
      case GenerationError(e) => GenerationError(e)
      case Generated(tb, rb) => Generated(ta + tb, ra + rb)
  }

  lemma {:induction false} AccumulatedConcat(a: seq<Part>, b: seq<Part>, search: string -> SearchResponse)
    ensures Accumulated(a + b, search) == Combined(Accumulated(a, search), Accumulated(b, search))
    decreases |b|
  {
    if b == [] {
      assert a + b == a;
    } else {
      var b0 := b[..|b| - 1];
      assert (a + b)[..|a + b| - 1] == a + b0;
      assert (a + b)[|a + b| - 1] == b[|b| - 1];
      AccumulatedConcat(a, b0, search);
      match Accumulated(a, search)
      case GenerationError(e) =>
      case Generated(ta, ra) =>
        match Accumulated(b0, search)
        case GenerationError(e) =>
        case Generated(tb, rb) =>
          match b[|b| - 1] {
            case CallPart(call, followUp) =>
              var fr := CallResult(call, search);
              assert ra + rb + [fr] == ra + (rb + [fr]);
              match followUp {
                case FollowUpRaised(e) =>
                case FollowUpText(t) =>
                  assert ta + tb + t == ta + (tb + t);
                case FollowUpNoText =>
              }
            case TextPart(t) =>
              assert ta + tb + t == ta + (tb + t);
            case OtherPart =>
          }
    }
  }

  /** `generate_content(message, history)` */
  method GenerateContent(message: string, history: Option<seq<Message>>, instructions: string,
                         reply: ModelReply, search: string -> SearchResponse)
    returns (request: Request, r: Generated)
    ensures request == Request(ChatHistory(history, instructions), message, None)
    ensures reply.ReplyRaised? ==> r == GenerationError(reply.message)
    ensures reply.Reply? ==> r == Accumulated(reply.parts, search)
  {
    var formatted: seq<Content> := [];
    if history.Some? && history.value != [] {
      formatted := FormatHistory(history.value);
    }
    if formatted == [] {
      formatted := [Content("user", VStr(instructions)), Content("model", VStr(SeedAcknowledgement))];
    }
    request := Request(formatted, message, None);
    match reply {
      case ReplyRaised(e) => r := GenerationError(e);
      case Reply(parts) => r := CollectReply(parts, search);
    }
  }

  /** The base64 text `generate_content_with_image` decodes: a data URL
      ("data:image...") is replaced by its second comma-separated field;
      None when it has no comma (the source's IndexError). */
  function ImagePayload(imageData: string): (r: Option<string>)
    ensures !StartsWith(imageData, "data:image") ==> r == Some(imageData)
    ensures StartsWith(imageData, "data:image") && ',' !in imageData ==> r.None?
    ensures StartsWith(imageData, "data:image") && ',' in imageData ==>
              r.Some? && ',' !in r.value && r.value <= After(imageData, ',')
    ensures StartsWith(imageData, "data:image") && ',' in imageData && ',' !in After(imageData, ',') ==>
              r == Some(After(imageData, ','))
    ensures StartsWith(imageData, "data:image") && ',' in imageData && ',' in After(imageData, ',') ==>
              r.Some? && After(imageData, ',') == r.value + "," + After(After(imageData, ','), ',')
  {
    if StartsWith(imageData, "data:image") then
      if ',' in imageData then Some(Before(After(imageData, ','), ',')) else None
    else Some(imageData)
  }

  /** `generate_content_with_image(message, image_data, history)`;
      `decodeError` stands for `base64.b64decode`, giving its error message
      for text it rejects. */
  method GenerateContentWithImage(message: string, imageData: string, history: Option<seq<Message>>,
                                  instructions: string, decodeError: string -> Option<string>,
                                  reply: ModelReply, search: string -> SearchResponse)
    returns (request: Option<Request>, r: Generated)
    ensures ImagePayload(imageData).None? ==> request.None? && r == GenerationError("list index out of range")
    ensures ImagePayload(imageData).Some? && decodeError(ImagePayload(imageData).value).Some? ==>
              request.None? && r == GenerationError(decodeError(ImagePayload(imageData).value).value)
    ensures ImagePayload(imageData).Some? && decodeError(ImagePayload(imageData).value).None? ==>
              && request == Some(Request(ChatHistory(history, instructions), message, ImagePayload(imageData)))
              && (reply.ReplyRaised? ==> r == GenerationError(reply.message))
              && (reply.Reply? ==> r == Accumulated(reply.parts, search))
  {
    var formatted: seq<Content> := [];
    if history.Some? && history.value != [] {
      formatted := FormatHistory(history.value);
    }
    var payload := imageData;
    if StartsWith(imageData, "data:image") {
      if ',' !in imageData {
        return None, GenerationError("list index out of range");
      }
      payload := Before(After(imageData, ','), ',');
    }
    match decodeError(payload) {
      case Some(e) => return None, GenerationError(e);
      case None =>
    }
    if formatted == [] {
      formatted := [Content("user", VStr(instructions)), Content("model", VStr(SeedAcknowledgement))];
    }
    request := Some(Request(formatted, message, Some(payload)));
    match reply {
      case ReplyRaised(e) => r := GenerationError(e);
      case Reply(parts) => r := CollectReply(parts, search);
    }
  }
}
