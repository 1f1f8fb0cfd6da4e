/**
 * The OpenAI-compatible completion client (app/core/llm_service.py). HTTP is a server
 * function from the request sent to the response received; a response carries its status
 * and its body, None when response.json() cannot decode it. Model ids are JSON values,
 * because a fallback id is whatever the models listing holds under "id".
 */
module CompletionClient {
  import opened Wrappers
  import opened Text
  import opened Json

  datatype ChatMessage = ChatMessage(role: string, content: string)

  /** A request as sent. A chat body's temperature, top_p and max_tokens and the
      Authorization header are not modelled. */
  datatype Request =
    | PostChat(url: string, model: Json, messages: seq<ChatMessage>)
    | GetModels(url: string)

  datatype Response = Response(status: int, body: Option<Json>)

  /** What the client raises: HTTPError from raise_for_status, or a body it cannot read. */
  datatype ClientError = HttpError(status: int) | MalformedBody

  /** One _PostChat call: what it returns or raises, the model id it leaves, the requests it sends. */
  datatype Exchange = Exchange(reply: Result<Json, ClientError>, modelId: Json, sent: seq<Request>)

  predicate IsSlash(c: char) {
    c == '/'
  }

  /** _normalize_base_url: trailing slashes removed, then "/v1" appended unless already there. */
  function NormalizeBaseUrl(baseUrl: string): (r: string)
    ensures EndsWith(r, "/v1")
    ensures var trimmed := TrimRight(baseUrl, IsSlash);
            r == trimmed || (r == trimmed + "/v1" && !EndsWith(trimmed, "/v1"))
  {
    var trimmed := TrimRight(baseUrl, IsSlash);
    if EndsWith(trimmed, "/v1") then trimmed else trimmed + "/v1"
  }

  lemma NormalizeBaseUrlIdempotent(baseUrl: string)
    ensures NormalizeBaseUrl(NormalizeBaseUrl(baseUrl)) == NormalizeBaseUrl(baseUrl)
  {
    var r := NormalizeBaseUrl(baseUrl);
    assert r[|r| - 1] == '1';
    assert TrimRight(r, IsSlash) == r;
  }

  /** requests' raise_for_status raises for the client and server error classes, 400 to 599. */
  predicate IsHttpError(status: int) {
    400 <= status < 600
  }

  /**
   * _fetch_first_model_id after the GET: data.get("data") or [] must be a list when truthy,
   * and its first entry a dict; the result is that entry's "id", None when the list is empty.
   */
  function FetchFirstModelId(response: Response): (r: Result<Option<Json>, ClientError>)
    ensures IsHttpError(response.status) ==> r == Failure(HttpError(response.status))
    ensures r.Success? && r.value.Some? ==> r.value.value != JNull
    ensures !IsHttpError(response.status) && response.body.Some? && response.body.value.JObject?
              && !Truthy(OrElse(Lookup(response.body.value.fields, "data"), JList([])))
            ==> r == Success(None)
  {
    if IsHttpError(response.status) then Failure(HttpError(response.status))
    else
      match response.body
      case None => Failure(MalformedBody)
      case Some(data) =>
        if !data.JObject? then Failure(MalformedBody)
        else
          var models := OrElse(Lookup(data.fields, "data"), JList([]));
          if !Truthy(models) then Success(None)
          else if !models.JList? || !models.items[0].JObject? then Failure(MalformedBody)
          else Success(Lookup(models.items[0].fields, "id"))
  }

  /**
   * The reply text of a chat completion body: choices[0]["message"]["content"], with ""
   * when "choices" is absent or empty or when "message" or "content" is missing.
   */
  function ExtractReply(body: Option<Json>): (r: Result<Json, ClientError>)
    ensures body.None? || !body.value.JObject? ==> r == Failure(MalformedBody)
    ensures body.Some? && body.value.JObject? && !Truthy(OrElse(Lookup(body.value.fields, "choices"), JList([])))
            ==> r == Success(JStr(""))
    ensures r.Success? ==> Truthy(r.value) || r.value == JStr("")
  {
    match body
    case None => Failure(MalformedBody)
    case Some(data) =>
      if !data.JObject? then Failure(MalformedBody)
      else
        var choices := OrElse(Lookup(data.fields, "choices"), JList([]));
        if !Truthy(choices) then Success(JStr(""))
        else if !choices.JList? || !choices.items[0].JObject? then Failure(MalformedBody)
        else
          var message := OrElse(Lookup(choices.items[0].fields, "message"), JObject([]));
          if !message.JObject? then Failure(MalformedBody)
          else Success(OrElse(Lookup(message.fields, "content"), JStr("")))
  }

  /** A listing whose "data" is a non-empty list of dicts names the first entry's "id" (None when missing or null). */
  lemma FirstListedModel(status: int, data: seq<(string, Json)>, models: seq<Json>, first: seq<(string, Json)>)
    requires !IsHttpError(status)
    requires Get(data, "data") == Some(JList(models)) && models != [] && models[0] == JObject(first)
    ensures FetchFirstModelId(Response(status, Some(JObject(data)))) == Success(Lookup(first, "id"))
  {
  }

  /** The reply is choices[0]["message"]["content"] when truthy, else "". */
  lemma ReplyIsContent(data: seq<(string, Json)>, choices: seq<Json>, choice: seq<(string, Json)>,
                       message: seq<(string, Json)>)
    requires Get(data, "choices") == Some(JList(choices)) && choices != [] && choices[0] == JObject(choice)
    requires Get(choice, "message") == Some(JObject(message))
    ensures var content := Lookup(message, "content");
            ExtractReply(Some(JObject(data))) == Success(if content.Some? && Truthy(content.value) then content.value else JStr(""))
  {
  }

  /** A first choice without a message, or with a null one, gives "". */
  lemma ReplyWithoutMessage(data: seq<(string, Json)>, choices: seq<Json>, choice: seq<(string, Json)>)
    requires Get(data, "choices") == Some(JList(choices)) && choices != [] && choices[0] == JObject(choice)
    requires Lookup(choice, "message").None?
    ensures ExtractReply(Some(JObject(data))) == Success(JStr(""))
  {
  }

  /** raise_for_status on the final response, then the reply text. */
  function Finish(response: Response): (r: Result<Json, ClientError>)
    ensures IsHttpError(response.status) ==> r == Failure(HttpError(response.status))
    ensures !IsHttpError(response.status) ==> r == ExtractReply(response.body)
  {
    if IsHttpError(response.status) then Failure(HttpError(response.status)) else ExtractReply(response.body)
  }

  /** The fallback id is used only when it is truthy and differs from the model just requested. */
  predicate UsableFallback(fallback: Result<Option<Json>, ClientError>, model: Json) {
    fallback.Success? && fallback.value.Some? && Truthy(fallback.value.value) && fallback.value.value != model
  }

  /**
   * _PostChat as a function of the base URL, the current model id, the messages and the server:
   * a 404 fetches the first listed model and, when it is usable, retries once with it.
   */
  function ChatExchange(baseUrl: string, model: Json, messages: seq<ChatMessage>, server: Request -> Response): Exchange {
    var post := PostChat(baseUrl + "/chat/completions", model, messages);
    var first := server(post);
    if first.status != 404 then Exchange(Finish(first), model, [post])
    else
      var get := GetModels(baseUrl + "/models");
      var fallback := FetchFirstModelId(server(get));
      if fallback.Failure? then Exchange(Failure(fallback.error), model, [post, get])
      else if UsableFallback(fallback, model) then
        var retry := PostChat(baseUrl + "/chat/completions", fallback.value.value, messages);
        Exchange(Finish(server(retry)), fallback.value.value, [post, get, retry])
      else Exchange(Finish(first), model, [post, get])
  }

  /** One call sends the chat request first, with the current model, and retries at most once. */
  lemma AtMostOneRetry(baseUrl: string, model: Json, messages: seq<ChatMessage>, server: Request -> Response)
    ensures var ex := ChatExchange(baseUrl, model, messages, server);
            && 1 <= |ex.sent| <= 3
            && ex.sent[0] == PostChat(baseUrl + "/chat/completions", model, messages)
            && forall i :: 0 < i < |ex.sent| && ex.sent[i].PostChat? ==> i == 2
  {
  }

  /**
   * A retry happens exactly when the first answer was 404 and the models listing named a usable
   * fallback; the retry uses that fallback, and it becomes the model id kept for later calls.
   */
  lemma RetryExactlyOnUsableFallback(baseUrl: string, model: Json, messages: seq<ChatMessage>, server: Request -> Response)
    ensures var ex := ChatExchange(baseUrl, model, messages, server);
            var first := server(PostChat(baseUrl + "/chat/completions", model, messages));
            var fallback := FetchFirstModelId(server(GetModels(baseUrl + "/models")));
            && (|ex.sent| == 3 <==> first.status == 404 && UsableFallback(fallback, model))
            && (|ex.sent| == 3 ==>
                  ex.sent[2] == PostChat(baseUrl + "/chat/completions", fallback.value.value, messages)
                  && ex.modelId == fallback.value.value)
            && (|ex.sent| < 3 ==> ex.modelId == model)
  {
  }

  /** The model id changes only by a retry, and the next call's request carries the new one. */
  lemma FallbackIsSticky(baseUrl: string, model: Json, messages1: seq<ChatMessage>, messages2: seq<ChatMessage>,
                         server: Request -> Response)
    ensures var ex1 := ChatExchange(baseUrl, model, messages1, server);
            var ex2 := ChatExchange(baseUrl, ex1.modelId, messages2, server);
            && (ex1.modelId != model ==> |ex1.sent| == 3 && Truthy(ex1.modelId))
            && ex2.sent[0].model == ex1.modelId
  {
  }

  /** The chat request whose answer is final: the retry when there is one, else the first request. */
  function LastChat(ex: Exchange): (r: Request)
    requires 1 <= |ex.sent|
    ensures r in ex.sent
  {
    if |ex.sent| == 3 then ex.sent[2] else ex.sent[0]
  }

  /**
   * The reply is what Finish makes of the answer to the last chat request, except when a 404
   * sent the client to the models listing and that lookup itself failed.
   */
  lemma ExchangeReply(baseUrl: string, model: Json, messages: seq<ChatMessage>, server: Request -> Response)
    ensures var ex := ChatExchange(baseUrl, model, messages, server);
            var first := server(PostChat(baseUrl + "/chat/completions", model, messages));
            var fallback := FetchFirstModelId(server(GetModels(baseUrl + "/models")));
            && 1 <= |ex.sent| && LastChat(ex).PostChat?
            && (first.status == 404 && fallback.Failure? ==> ex.reply == Failure(fallback.error))
            && (!(first.status == 404 && fallback.Failure?) ==> ex.reply == Finish(server(LastChat(ex))))
  {
  }

  /**
   * A final status from 400 to 599 is raised, never turned into text; in particular a 404 for
   * which the listing names no usable fallback is raised as it is.
   */
  lemma ErrorStatusRaises(baseUrl: string, model: Json, messages: seq<ChatMessage>, server: Request -> Response)
    ensures var ex := ChatExchange(baseUrl, model, messages, server);
            var first := server(PostChat(baseUrl + "/chat/completions", model, messages));
            var fallback := FetchFirstModelId(server(GetModels(baseUrl + "/models")));
            && (!(first.status == 404 && fallback.Failure?) && IsHttpError(server(LastChat(ex)).status) ==>
                  ex.reply == Failure(HttpError(server(LastChat(ex)).status)))
            && (first.status == 404 && fallback.Success? && !UsableFallback(fallback, model) ==>
                  ex.reply == Failure(HttpError(404)) && ex.sent[|ex.sent| - 1].GetModels?)
  {
    ExchangeReply(baseUrl, model, messages, server);
  }

  /** Without a 404 nothing else is requested and the model id stays. */
  lemma NoRetryWithout404(baseUrl: string, model: Json, messages: seq<ChatMessage>, server: Request -> Response)
    requires server(PostChat(baseUrl + "/chat/completions", model, messages)).status != 404
    ensures ChatExchange(baseUrl, model, messages, server).sent == [PostChat(baseUrl + "/chat/completions", model, messages)]
    ensures ChatExchange(baseUrl, model, messages, server).modelId == model
  {
  }

  /** The client: the model id is the one field that changes, and it persists across calls. */
  class LLMService {
    var modelId: Json
    const baseUrl: string
    /** Every request this client has sent, in order. */
    ghost var sent: seq<Request>

    constructor (settingsModelId: string, settingsBaseUrl: string)
      ensures modelId == JStr(settingsModelId)
      ensures baseUrl == NormalizeBaseUrl(settingsBaseUrl)
      ensures sent == []
    {
      modelId := JStr(settingsModelId);
      baseUrl := NormalizeBaseUrl(settingsBaseUrl);
      sent := [];
    }

    /** _fetch_first_model_id: one GET on the models listing. */
    method FetchFirstModel(server: Request -> Response) returns (r: Result<Option<Json>, ClientError>)
      modifies this`sent
      ensures r == FetchFirstModelId(server(GetModels(baseUrl + "/models")))
      ensures sent == old(sent) + [GetModels(baseUrl + "/models")]
    {
      var request := GetModels(baseUrl + "/models");
      sent := sent + [request];
      r := FetchFirstModelId(server(request));
    }

    /** _PostChat: the payload's model and self.model_id are both overwritten by a usable fallback. */
    method PostChatCall(messages: seq<ChatMessage>, server: Request -> Response) returns (r: Result<Json, ClientError>)
      modifies this`modelId, this`sent
      ensures var ex := ChatExchange(baseUrl, old(modelId), messages, server);
              r == ex.reply && modelId == ex.modelId && sent == old(sent) + ex.sent
    {
      var url := baseUrl + "/chat/completions";
      var payloadModel := modelId;
      var request := PostChat(url, payloadModel, messages);
      sent := sent + [request];
      var response := server(request);
      if response.status == 404 {
        var fallback := FetchFirstModel(server);
        if fallback.Failure? {
          r := Failure(fallback.error);
          return;
        }
        if UsableFallback(fallback, payloadModel) {
          payloadModel := fallback.value.value;
          modelId := fallback.value.value;
          request := PostChat(url, payloadModel, messages);
          sent := sent + [request];
          response := server(request);
        }
      }
      r := Finish(response);
    }

    method GenerateChat(messages: seq<ChatMessage>, server: Request -> Response) returns (r: Result<Json, ClientError>)
      modifies this`modelId, this`sent
      ensures var ex := ChatExchange(baseUrl, old(modelId), messages, server);
              r == ex.reply && modelId == ex.modelId && sent == old(sent) + ex.sent
    {
      r := PostChatCall(messages, server);
    }

    /** Generate(prompt) is GenerateChat with one user message holding the prompt. */
    method Generate(prompt: string, server: Request -> Response) returns (r: Result<Json, ClientError>)
      modifies this`modelId, this`sent
      ensures var ex := ChatExchange(baseUrl, old(modelId), [ChatMessage("user", prompt)], server);
              r == ex.reply && modelId == ex.modelId && sent == old(sent) + ex.sent
    {
      r := GenerateChat([ChatMessage("user", prompt)], server);
    }
  }
}
