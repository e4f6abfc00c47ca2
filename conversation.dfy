/**
  Conversation turns and the two multimodal calls: building the prompt
  (a copy of the base prompt plus new user turns), choosing the model, and
  picking the reply text out of the service's answer.

  The reasoning service itself is not modelled: what it answers to a
  request is an input (`ServiceReply`), and the request it receives is a
  result, so the messages sent can be stated exactly.
 */
module Conversation {
  import opened PyValues

  datatype Role = System | User | Assistant

  /** One item of a turn's content: `{"image": path}` or `{"text": text}`. */
  datatype ContentItem = Image(path: string) | Text(text: string)

  datatype Turn = Turn(role: Role, content: seq<ContentItem>)

  /** The user turn every call appends: the image, then the query text. */
  function UserTurn(imgPath: string, query: string): Turn
  {
    Turn(User, [Image(imgPath), Text(query)])
  }

  /** A prompt list, which the calls copy and then append to in place. */
  class TurnList {
    var turns: seq<Turn>

    constructor (init: seq<Turn>)
      ensures turns == init
    {
      turns := init;
    }

    /** `list.copy()`: a new list with the same turns. */
    method Copy() returns (c: TurnList)
      ensures fresh(c) && c.turns == turns
    {
      c := new TurnList(turns);
    }

    /** `list.append(t)`. */
    method Append(t: Turn)
      modifies this
      ensures turns == old(turns) + [t]
    {
      turns := turns + [t];
    }
  }

  const QwenVlMax: string := "qwen-vl-max"
  const QwenVlChatV1: string := "qwen-vl-chat-v1"
  const ModelNames: set<string> := {QwenVlMax, QwenVlChatV1}

  /** `HTTPStatus.OK`. */
  const HttpOk: int := 200

  /** What is sent to the service: the model, the messages, and the sampling
      settings the `qwen-vl-chat-v1` calls pass (`top_p`, `top_k`). */
  datatype Request = Request(model: string, messages: seq<Turn>, topP: Option<real>, topK: Option<int>)

  /** The service's answer: its status, the content of the first choice's
      message (absent when the answer has no output), and the error code
      and message printed on failure. */
  datatype ServiceReply = ServiceReply(status: int, content: Option<seq<ContentItem>>, code: string, message: string)

  /** The reply text a call returns: the first item's text for
      `qwen-vl-max`, the whole content list for `qwen-vl-chat-v1`. */
  datatype Response = TextReply(text: string) | ContentReply(items: seq<ContentItem>)

  /** The request a call sent, if any, and what it returned or raised. */
  datatype CallResult = CallResult(sent: Option<Request>, out: Result<Option<Response>>)

  function RequestFor(model: string, messages: seq<Turn>): Request
  {
    if model == QwenVlMax then Request(QwenVlMax, messages, None, None)
    else Request(QwenVlChatV1, messages, Some(0.9), Some(100))
  }

  /** `response_dict["output"]["choices"][0]["message"]["content"]`:
      subscripting an absent output raises TypeError. */
  function ReplyContent(reply: ServiceReply): Result<seq<ContentItem>>
  {
    match reply.content
    case None => Err(TypeError)
    case Some(items) => Ok(items)
  }

  /** The reply text for a successful answer. */
  function ExtractResponse(model: string, reply: ServiceReply): Result<Response>
  {
    match ReplyContent(reply)
    case Err(e) => Err(e)
    case Ok(items) =>
      if model == QwenVlMax then
        if |items| == 0 then Err(IndexError)
        else if items[0].Text? then Ok(TextReply(items[0].text))
        else Err(KeyError(StrKey("text")))
      else Ok(ContentReply(items))
  }

  /** `single_multimodal_call`, as a function of the base turns and the
      service's answer. */
  function SingleCall(model: string, base: seq<Turn>, query: string, imgPath: string,
                      reply: ServiceReply, returnResponse: bool): (r: CallResult)
    ensures r.sent.Some? <==> model in ModelNames
    ensures r.sent.Some? ==> r.sent.value.model == model
    ensures r.sent.Some? ==> r.sent.value.messages == base + [UserTurn(imgPath, query)]
    ensures r.sent.Some? ==> r.sent.value == RequestFor(model, base + [UserTurn(imgPath, query)])
    ensures model !in ModelNames ==> r.out.Err? && r.out.error.ValueError?
    ensures model in ModelNames && reply.status != HttpOk ==>
              r.out == (if returnResponse then Err(UnboundLocalError("response")) else Ok(None))
    ensures r.out.Ok? ==> (r.out.value.Some? <==> returnResponse)
    ensures model == QwenVlMax && reply.status == HttpOk ==>
              (r.out.Err? <==> reply.content.None? || |reply.content.value| == 0 || !reply.content.value[0].Text?)
    ensures model == QwenVlChatV1 && reply.status == HttpOk ==> (r.out.Err? <==> reply.content.None?)
    ensures r.out.Ok? && r.out.value.Some? && r.out.value.value.TextReply? ==>
              && model == QwenVlMax && reply.status == HttpOk && reply.content.Some?
              && |reply.content.value| > 0 && reply.content.value[0] == Text(r.out.value.value.text)
    ensures r.out.Ok? && r.out.value.Some? && r.out.value.value.ContentReply? ==>
              model == QwenVlChatV1 && reply.status == HttpOk && reply.content == Some(r.out.value.value.items)
  {
    if model !in ModelNames then
      CallResult(None, Err(ValueError("Model name must be either 'qwen-vl-max' or 'qwen-vl-chat-v1'.")))
    else
      var request := RequestFor(model, base + [UserTurn(imgPath, query)]);
      if reply.status != HttpOk then
        // the error code and message are printed and `response` stays unbound
        CallResult(Some(request), if returnResponse then Err(UnboundLocalError("response")) else Ok(None))
      else
        match ExtractResponse(model, reply)
        case Err(e) => CallResult(Some(request), Err(e))
        case Ok(response) => CallResult(Some(request), if returnResponse then Ok(Some(response)) else Ok(None))
  }

  /** `single_multimodal_call(model_name, base_prompt, query, prompt_img_path, ...)`:
      copies the base list, appends the user turn, checks the model name,
      and picks the reply text. It modifies nothing it is given: the base
      list keeps its turns. */
  method SingleMultimodalCall(modelName: string, basePrompt: TurnList, query: string, promptImgPath: string,
                              reply: ServiceReply, returnResponse: bool)
    returns (sent: Option<Request>, out: Result<Option<Response>>)
    ensures CallResult(sent, out) == SingleCall(modelName, basePrompt.turns, query, promptImgPath, reply, returnResponse)
  {
    var newPrompt := basePrompt.Copy();
    newPrompt.Append(UserTurn(promptImgPath, query));

    if modelName !in ModelNames {
      sent, out := None, Err(ValueError("Model name must be either 'qwen-vl-max' or 'qwen-vl-chat-v1'."));
      return;
    }

    var response: Option<Response> := None;
    sent := Some(RequestFor(modelName, newPrompt.turns));
    if reply.status == HttpOk {
      var extracted := ExtractResponse(modelName, reply);
      if extracted.Err? {
        out := Err(extracted.error);
        return;
      }
      response := Some(extracted.value);
    }

    if returnResponse {
      out := if response.Some? then Ok(response) else Err(UnboundLocalError("response"));
    } else {
      out := Ok(None);
    }
  }

  /** The base turns followed by `k` copies of the user turn. */
  function GrownPrompt(base: seq<Turn>, imgPath: string, query: string, k: nat): (p: seq<Turn>)
  {
    base + seq(k, _ => UserTurn(imgPath, query))
  }

  /** The number of turns with role `role`. */
  function CountRole(turns: seq<Turn>, role: Role): nat
  {
    if turns == [] then 0
    else (if turns[0].role == role then 1 else 0) + CountRole(turns[1..], role)
  }

  lemma {:induction false} CountRoleAppend(a: seq<Turn>, b: seq<Turn>, role: Role)
    ensures CountRole(a + b, role) == CountRole(a, role) + CountRole(b, role)
  {
    if a == [] {
      assert a + b == b;
    } else {
      assert (a + b)[1..] == a[1..] + b;
      CountRoleAppend(a[1..], b, role);
    }
  }

  lemma {:induction false} CountRoleUserTurns(imgPath: string, query: string, k: nat, role: Role)
    ensures CountRole(seq(k, _ => UserTurn(imgPath, query)), role) == if role == User then k else 0
  {
    var s := seq(k, _ => UserTurn(imgPath, query));
    if k > 0 {
      assert s[1..] == seq(k - 1, _ => UserTurn(imgPath, query));
      CountRoleUserTurns(imgPath, query, k - 1, role);
    }
  }

  /** After `k` rounds the prompt is the base followed by `k` user turns:
      its length grows by exactly `k`, and only user turns are added. */
  lemma GrownPromptAddsOnlyUserTurns(base: seq<Turn>, imgPath: string, query: string, k: nat)
    ensures var p := GrownPrompt(base, imgPath, query, k);
            && |p| == |base| + k
            && p[..|base|] == base
            && CountRole(p, User) == CountRole(base, User) + k
            && CountRole(p, Assistant) == CountRole(base, Assistant)
            && CountRole(p, System) == CountRole(base, System)
  {
    var added := seq(k, _ => UserTurn(imgPath, query));
    CountRoleAppend(base, added, User);
    CountRoleAppend(base, added, Assistant);
    CountRoleAppend(base, added, System);
    CountRoleUserTurns(imgPath, query, k, User);
    CountRoleUserTurns(imgPath, query, k, Assistant);
    CountRoleUserTurns(imgPath, query, k, System);
  }

  /** `multiple_multimodal_call(base_prompt, query, prompt_img_path, rounds, ...)`:
      one user turn is appended to the copied prompt per round, and the
      grown prompt is sent to `qwen-vl-chat-v1`. The content is read before
      the status is checked, so an answer without output raises. With
      `return_response` the first round's content is returned at once.
      `reply(i)` is the service's answer in round `i`. */
  method MultipleMultimodalCall(basePrompt: TurnList, query: string, promptImgPath: string, rounds: int,
                                reply: nat -> ServiceReply, returnResponse: bool)
    returns (sent: seq<Request>, out: Result<Option<Response>>)
    ensures forall k :: 0 <= k < |sent| ==>
              sent[k] == RequestFor(QwenVlChatV1, GrownPrompt(basePrompt.turns, promptImgPath, query, k + 1))
    ensures |sent| <= if rounds < 0 then 0 else rounds
    ensures forall k :: 0 <= k < |sent| - 1 ==> reply(k).content.Some?
    ensures out.Err? <==> |sent| > 0 && reply(|sent| - 1).content.None?
    ensures out.Ok? && !returnResponse ==> out == Ok(None) && |sent| == if rounds < 0 then 0 else rounds
    ensures returnResponse && rounds > 0 ==> |sent| == 1
    ensures rounds <= 0 ==> sent == [] && out == Ok(None)
    ensures out.Ok? && returnResponse && rounds > 0 ==>
              |sent| == 1 && out == Ok(Some(ContentReply(reply(0).content.value)))
  {
    var newPrompt := basePrompt.Copy();
    sent, out := [], Ok(None);
    var i := 0;
    while i < rounds
      invariant 0 <= i && (rounds >= 0 ==> i <= rounds) && (rounds < 0 ==> i == 0)
      invariant fresh(newPrompt)
      invariant newPrompt.turns == GrownPrompt(basePrompt.turns, promptImgPath, query, i)
      invariant |sent| == i
      invariant forall k :: 0 <= k < i ==>
                  sent[k] == RequestFor(QwenVlChatV1, GrownPrompt(basePrompt.turns, promptImgPath, query, k + 1))
      invariant forall k :: 0 <= k < i ==> reply(k).content.Some?
      invariant returnResponse ==> i == 0
    {
      newPrompt.Append(UserTurn(promptImgPath, query));
      assert newPrompt.turns == GrownPrompt(basePrompt.turns, promptImgPath, query, i + 1);
      sent := sent + [RequestFor(QwenVlChatV1, newPrompt.turns)];
      var content := ReplyContent(reply(i));
      if content.Err? {
        out := Err(content.error);
        return;
      }
      // a non-OK status only prints the error code and message
      if returnResponse {
        out := Ok(Some(ContentReply(content.value)));
        return;
      }
      i := i + 1;
    }
  }
}
