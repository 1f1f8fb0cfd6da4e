/**
 * The /v1/generate handler of app/api/v1.py: three guard checks on the incoming message,
 * each raising HTTP 400 with its own detail, and the response that reports the model id
 * the completion client holds once the reply has been generated.
 */
module Api {
  import opened Wrappers
  import opened Text
  import opened Json

  datatype LlmMessage = LlmMessage(role: string, userId: int, content: string)

  /** HTTPException(status_code, detail). */
  datatype ApiError = ApiError(status: int, detail: string)

  /** AssistantResponse(text, model). */
  datatype AssistantResponse = AssistantResponse(text: string, model: Json)

  const RoleDetail := "message.role must be user"
  const ContentDetail := "message.content is required"
  const UserIdDetail := "message.user_id must be positive"

  /** _ValidateMessage: role, then content, then user id; the first check that fails raises. */
  function ValidateMessage(m: LlmMessage): (r: Outcome<ApiError>)
    ensures r.Pass? <==> m.role == "user" && Strip(m.content) != "" && m.userId > 0
    ensures r.Fail? ==> r.error.status == 400
    ensures m.role != "user" ==> r == Fail(ApiError(400, RoleDetail))
  {
    if m.role != "user" then Fail(ApiError(400, RoleDetail))
    else if Strip(m.content) == "" then Fail(ApiError(400, ContentDetail))
    else if m.userId <= 0 then Fail(ApiError(400, UserIdDetail))
    else Pass
  }

  /** The checks as a list: whether each one holds, and the detail it reports when it does not. */
  function Checks(m: LlmMessage): seq<(bool, string)> {
    [(m.role == "user", RoleDetail), (Strip(m.content) != "", ContentDetail), (m.userId > 0, UserIdDetail)]
  }

  /** The detail of the first check in the list that does not hold. */
  function FirstFailed(checks: seq<(bool, string)>): (r: Option<string>)
    ensures r.None? <==> forall i :: 0 <= i < |checks| ==> checks[i].0
  {
    if checks == [] then None
    else if !checks[0].0 then Some(checks[0].1)
    else
      assert forall i :: 1 <= i < |checks| ==> checks[i] == checks[1..][i - 1];
      FirstFailed(checks[1..])
  }

  /** FirstFailed reports a failing check all of whose predecessors hold. */
  lemma {:induction false} FirstFailedIsFirst(checks: seq<(bool, string)>)
    requires FirstFailed(checks).Some?
    ensures exists i :: 0 <= i < |checks| && !checks[i].0 && checks[i].1 == FirstFailed(checks).value
                        && forall j :: 0 <= j < i ==> checks[j].0
  {
    if checks[0].0 {
      var tail := checks[1..];
      FirstFailedIsFirst(tail);
      var i :| 0 <= i < |tail| && !tail[i].0 && tail[i].1 == FirstFailed(tail).value
               && forall j :: 0 <= j < i ==> tail[j].0;
      assert checks[i + 1] == tail[i];
      assert forall j :: 1 <= j < i + 1 ==> checks[j] == tail[j - 1];
    } else {
      assert !checks[0].0 && checks[0].1 == FirstFailed(checks).value;
    }
  }

  /** The handler reports exactly the first failing check of the list, with status 400, or passes. */
  lemma ValidateReportsFirstFailure(m: LlmMessage)
    ensures ValidateMessage(m) == match FirstFailed(Checks(m))
                                  case None => Pass
                                  case Some(detail) => Fail(ApiError(400, detail))
  {
    var c := Checks(m);
    assert c[1..] == [c[1], c[2]];
    assert c[1..][1..] == [c[2]];
    assert c[1..][1..][1..] == [];
    assert FirstFailed([c[2]]) == if c[2].0 then None else Some(c[2].1);
    assert FirstFailed([c[1], c[2]]) == if c[1].0 then FirstFailed([c[2]]) else Some(c[1].1);
  }

  /** A blank content is reported only when the role is right, whatever the user id. */
  lemma BlankContentAfterRole(role: string, userId: int, ws: string)
    requires forall i :: 0 <= i < |ws| ==> IsSpace(ws[i])
    ensures ValidateMessage(LlmMessage(role, userId, ws))
            == Fail(ApiError(400, if role == "user" then ContentDetail else RoleDetail))
  {
    assert Strip(ws + "" + "") == Strip("") by {
      StripIgnoresPadding(ws, "", "");
    }
    assert ws + "" + "" == ws;
  }

  /**
   * The outcome of the reply generation the handler delegates to: the text and the model id the
   * completion client holds afterwards. The generation itself is not part of this model.
   */
  datatype ReplyStep = ReplyStep(text: string, modelAfter: Json)

  /**
   * _GenerateResponse: a message that fails validation is answered with the error before any
   * generation; otherwise the reply and the model id read after generating it.
   */
  function GenerateResponse(m: LlmMessage, step: ReplyStep): (r: Result<AssistantResponse, ApiError>)
    ensures r.Failure? <==> ValidateMessage(m).Fail?
    ensures r.Failure? ==> r.error == ValidateMessage(m).error
    ensures r.Success? ==> r.value.text == step.text && r.value.model == step.modelAfter
  {
    match ValidateMessage(m)
    case Fail(e) => Failure(e)
    case Pass => Success(AssistantResponse(step.text, step.modelAfter))
  }

  /** A rejected message gets the same answer whatever the generation would have done. */
  lemma RejectionIgnoresGeneration(m: LlmMessage, step1: ReplyStep, step2: ReplyStep)
    requires ValidateMessage(m).Fail?
    ensures GenerateResponse(m, step1) == GenerateResponse(m, step2)
  {
  }
}
