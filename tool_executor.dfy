/**
 * Tool dispatch (app/services/tool_executor.py): the arguments of a model's tool call are
 * parsed and normalised, and the tool name selects one call on the data source. The data
 * source is a function from the call made to the data it returns; json.loads is a
 * function from text to a value, None where it raises JSONDecodeError.
 */
module ToolExecutor {
  import opened Wrappers
  import opened Text
  import opened Regex
  import opened Json

  /** A call on the data source, with the arguments ExecuteTool passes to it. */
  datatype SourceCall =
    | AvailableBikes(limit: int)
    | Payments(userId: string, limit: int)
    | Rentals(userId: string, limit: int)
    | UserProfile(userId: string)
    | PricingSummary(userId: string, period: Option<Json>)
    | UsageSummary(userId: string, period: Option<Json>)
    | TotalPayments(userId: string, period: Option<Json>)

  /** {"tool": name, "data": data} or {"tool": name, "error": error}. */
  datatype ToolReply =
    | ToolData(tool: Json, data: Json)
    | ToolError(tool: Json, error: string)

  const DefaultLimit: int := 20

  const ToolNames: set<string> := {
    "get_available_bikes", "get_payments", "get_rentals", "get_user_profile",
    "get_pricing_summary", "get_usage_summary", "get_total_payments"
  }

  predicate IsToolName(name: Json) {
    name.JStr? && name.s in ToolNames
  }

  // ---------------------------------------------------------------------------
  // _ParseToolArgs
  // ---------------------------------------------------------------------------

  /**
   * _ParseToolArgs as written. A dict comes back as it is; text goes through json.loads,
   * whose result is returned whatever its type; any other truthy value reaches json.loads,
   * which raises TypeError because it is not text.
   */
  function ParseToolArgsAsWritten(raw: Option<Json>, decode: string -> Option<Json>): (r: Result<Json, string>)
    ensures raw.None? || !Truthy(raw.value) ==> r == Success(JObject([]))
    ensures raw.Some? && raw.value.JObject? ==> r == Success(raw.value)
    ensures r.Failure? <==> raw.Some? && Truthy(raw.value) && !raw.value.JObject? && !raw.value.JStr?
    ensures raw.Some? && raw.value.JStr? && raw.value.s != "" ==>
              r == Success(if decode(raw.value.s).Some? then decode(raw.value.s).value else JObject([]))
  {
    if raw.None? || !Truthy(raw.value) then Success(JObject([]))
    else if raw.value.JObject? then Success(raw.value)
    else if raw.value.JStr? then
      match decode(raw.value.s)
      case None => Success(JObject([]))
      case Some(v) => Success(v)
    else Failure("TypeError")
  }

  /** Text that decodes to a list passes through as a list, which ExecuteTool cannot read with .get. */
  lemma ParseToolArgsAsWrittenPassesList(decode: string -> Option<Json>)
    requires decode("[1]") == Some(JList([JInt(1)]))
    ensures ParseToolArgsAsWritten(Some(JStr("[1]")), decode) == Success(JList([JInt(1)]))
  {
  }

  /** A number given as the arguments reaches json.loads, which raises. */
  lemma ParseToolArgsAsWrittenRaisesOnNumber(decode: string -> Option<Json>)
    ensures ParseToolArgsAsWritten(Some(JInt(5)), decode).Failure?
  {
  }

  /**
   * _ParseToolArgs as its dict return type states: the arguments as a dict, and {} for anything
   * that does not give one (falsy input, text that is not JSON, JSON that is not an object, a
   * value that is not text).
   */
  function ParseToolArgs(raw: Option<Json>, decode: string -> Option<Json>): (r: seq<(string, Json)>)
    ensures raw.None? || !Truthy(raw.value) ==> r == []
    ensures raw.Some? && raw.value.JObject? ==> r == raw.value.fields
    ensures raw.Some? && raw.value.JStr? && decode(raw.value.s).None? ==> r == []
    ensures raw.Some? && raw.value.JStr? && raw.value.s != "" && decode(raw.value.s).Some? ==>
              r == (if decode(raw.value.s).value.JObject? then decode(raw.value.s).value.fields else [])
    ensures raw.Some? && Truthy(raw.value) && !raw.value.JObject? && !raw.value.JStr? ==> r == []
  {
    match ParseToolArgsAsWritten(raw, decode)
    case Success(JObject(fields)) => fields
    case _ => []
  }

  /** Wherever the code as written yields a dict, the corrected parse yields the same dict. */
  lemma ParseToolArgsAgrees(raw: Option<Json>, decode: string -> Option<Json>)
    ensures ParseToolArgsAsWritten(raw, decode).Success? && ParseToolArgsAsWritten(raw, decode).value.JObject?
        ==> ParseToolArgs(raw, decode) == ParseToolArgsAsWritten(raw, decode).value.fields
    ensures !(ParseToolArgsAsWritten(raw, decode).Success? && ParseToolArgsAsWritten(raw, decode).value.JObject?)
        ==> ParseToolArgs(raw, decode) == []
  {
  }

  // ---------------------------------------------------------------------------
  // _NormalizeLimit and _NormalizeUserId
  // ---------------------------------------------------------------------------

  /** _NormalizeLimit: int(value) clamped to [1, 10], or the default itself when int() raises. */
  function NormalizeLimit(value: Option<Json>, default: int): (r: int)
    ensures value.None? || IntOf(value.value).None? ==> r == default
    ensures value.Some? && IntOf(value.value).Some? ==>
              var n := IntOf(value.value).value;
              && 1 <= r <= 10
              && (1 <= n <= 10 ==> r == n)
              && (n < 1 ==> r == 1)
              && (n > 10 ==> r == 10)
  {
    var parsed := if value.None? then None else IntOf(value.value);
    match parsed
    case None => default
    case Some(n) => if n < 1 then 1 else if n > 10 then 10 else n
  }

  /** A limit given as the decimal text of a number is read as that number. */
  lemma NormalizeLimitOfText(n: nat, default: int)
    ensures NormalizeLimit(Some(JStr(Decimal(n))), default) == NormalizeLimit(Some(JInt(n)), default)
  {
    ParseIntOfDecimal(n);
  }

  /** A limit given as '-' and digits is read as the negated number, so it is clamped to 1. */
  lemma NormalizeLimitOfNegativeText(d: string, default: int)
    requires d != [] && AllDigits(d)
    ensures NormalizeLimit(Some(JStr("-" + d)), default) == 1
  {
    ParseIntOfNegatedDigits(d);
  }

  /** Normalising an explicit limit a second time changes nothing: it is already in [1, 10]. */
  lemma NormalizeLimitIdempotent(value: Json, default: int)
    requires IntOf(value).Some?
    ensures NormalizeLimit(Some(JInt(NormalizeLimit(Some(value), default))), default) == NormalizeLimit(Some(value), default)
  {
  }

  /**
   * The default is not clamped, so a missing limit asks for 20 rows, more than any explicit
   * limit can, and 20 is no fixed point: normalising it again gives 10.
   */
  lemma MissingLimitExceedsEveryExplicitOne(value: Json)
    requires IntOf(value).Some?
    ensures NormalizeLimit(None, DefaultLimit) == 20
    ensures NormalizeLimit(Some(value), DefaultLimit) < NormalizeLimit(None, DefaultLimit)
    ensures NormalizeLimit(Some(JInt(NormalizeLimit(None, DefaultLimit))), DefaultLimit) == 10
  {
  }

  /** _NormalizeUserId: the first run of digits in str(value), else the fallback. */
  function NormalizeUserId(value: Option<Json>, fallback: string): (r: string)
    ensures value.None? ==> r == fallback
    ensures value.Some? && !HasDigit(PyStr(value.value)) ==> r == fallback
    ensures value.Some? && HasDigit(PyStr(value.value)) ==>
              exists p: nat, e: nat :: FirstRun(PyStr(value.value), p, e) && r == PyStr(value.value)[p..e]
  {
    if value.None? then fallback
    else
      match FirstDigitRun(PyStr(value.value))
      case Some(g) => g
      case None => fallback
  }

  /** The first digit run of a text made of a prefix without digits and then only digits is those digits. */
  lemma {:induction false} FirstRunAfterPrefix(pre: string, d: string, p: nat, e: nat)
    requires !HasDigit(pre) && d != [] && AllDigits(d)
    requires FirstRun(pre + d, p, e)
    ensures (pre + d)[p..e] == d
  {
    var t := pre + d;
    assert forall k :: 0 <= k < |pre| ==> t[k] == pre[k];
    assert IsDigit(t[p]);
    assert IsDigit(t[|pre|]);
    assert forall k :: |pre| <= k < |t| ==> t[k] == d[k - |pre|];
    assert p == |pre| && e == |t|;
  }

  /** An integer user id, signed or not, normalises to its digits. */
  lemma NormalizeUserIdOfInt(i: int, fallback: string)
    ensures NormalizeUserId(Some(JInt(i)), fallback) == Decimal(if i < 0 then -i else i)
  {
    var d := Decimal(if i < 0 then -i else i);
    var pre := if i < 0 then "-" else "";
    var t := PyStr(JInt(i));
    assert t == pre + d;
    assert HasDigit(t) by { assert IsDigit(t[|pre|]); }
    var r := NormalizeUserId(Some(JInt(i)), fallback);
    assert exists p: nat, e: nat :: FirstRun(t, p, e) && r == t[p..e];
    var p: nat, e: nat :| FirstRun(t, p, e) && r == t[p..e];
    FirstRunAfterPrefix(pre, d, p, e);
  }

  // ---------------------------------------------------------------------------
  // ExecuteTool and ExecuteToolCall
  // ---------------------------------------------------------------------------

  /**
   * ExecuteTool: the user id is normalised first, with str(user_id) as the fallback; the name
   * then selects one data-source call, and an unknown name gives the unsupported_tool error.
   */
  function ExecuteTool(name: Json, args: seq<(string, Json)>, userId: int, source: SourceCall -> Json): (r: ToolReply)
    ensures r.tool == name
    ensures r.ToolError? <==> !IsToolName(name)
    ensures r.ToolError? ==> r.error == "unsupported_tool"
  {
    var user := NormalizeUserId(Lookup(args, "user_id"), IntToString(userId));
    if name == JStr("get_available_bikes") then
      ToolData(name, source(AvailableBikes(NormalizeLimit(Lookup(args, "limit"), DefaultLimit))))
    else if name == JStr("get_payments") then
      ToolData(name, source(Payments(user, NormalizeLimit(Lookup(args, "limit"), DefaultLimit))))
    else if name == JStr("get_rentals") then
      ToolData(name, source(Rentals(user, NormalizeLimit(Lookup(args, "limit"), DefaultLimit))))
    else if name == JStr("get_user_profile") then
      ToolData(name, source(UserProfile(user)))
    else if name == JStr("get_pricing_summary") then
      ToolData(name, source(PricingSummary(user, Lookup(args, "period"))))
    else if name == JStr("get_usage_summary") then
      ToolData(name, source(UsageSummary(user, Lookup(args, "period"))))
    else if name == JStr("get_total_payments") then
      ToolData(name, source(TotalPayments(user, Lookup(args, "period"))))
    else
      ToolError(name, "unsupported_tool")
  }

  /** An unknown tool name gives the same error whatever the data source holds: no call is made. */
  lemma UnsupportedToolCallsNoSource(name: Json, args: seq<(string, Json)>, userId: int,
                                     source1: SourceCall -> Json, source2: SourceCall -> Json)
    requires !IsToolName(name)
    ensures ExecuteTool(name, args, userId, source1) == ExecuteTool(name, args, userId, source2)
                                                     == ToolError(name, "unsupported_tool")
  {
  }

  /** Without a usable "limit", the list tools ask the source for 20 entries, not 10. */
  lemma MissingLimitAsksForTwenty(args: seq<(string, Json)>, userId: int, source: SourceCall -> Json)
    requires Lookup(args, "limit").None?
    ensures ExecuteTool(JStr("get_available_bikes"), args, userId, source)
         == ToolData(JStr("get_available_bikes"), source(AvailableBikes(20)))
    ensures ExecuteTool(JStr("get_payments"), args, userId, source).data
         == source(Payments(NormalizeUserId(Lookup(args, "user_id"), IntToString(userId)), 20))
    ensures ExecuteTool(JStr("get_rentals"), args, userId, source).data
         == source(Rentals(NormalizeUserId(Lookup(args, "user_id"), IntToString(userId)), 20))
  {
  }

  /** The summary tools hand args["period"] to the source as it is. */
  lemma SummaryToolsPassPeriod(args: seq<(string, Json)>, userId: int, source: SourceCall -> Json)
    ensures var user := NormalizeUserId(Lookup(args, "user_id"), IntToString(userId));
            && ExecuteTool(JStr("get_pricing_summary"), args, userId, source).data
               == source(PricingSummary(user, Lookup(args, "period")))
            && ExecuteTool(JStr("get_usage_summary"), args, userId, source).data
               == source(UsageSummary(user, Lookup(args, "period")))
            && ExecuteTool(JStr("get_total_payments"), args, userId, source).data
               == source(TotalPayments(user, Lookup(args, "period")))
  {
  }

  /** get_available_bikes does not depend on whose request it is. */
  lemma AvailableBikesIgnoresUser(args: seq<(string, Json)>, userId1: int, userId2: int, source: SourceCall -> Json)
    ensures ExecuteTool(JStr("get_available_bikes"), args, userId1, source)
         == ExecuteTool(JStr("get_available_bikes"), args, userId2, source)
  {
  }

  /** Without a "user_id" argument, a user tool asks the source for the caller's own id. */
  lemma MissingUserIdUsesCaller(args: seq<(string, Json)>, userId: nat, source: SourceCall -> Json)
    requires Lookup(args, "user_id").None?
    ensures ExecuteTool(JStr("get_user_profile"), args, userId, source)
         == ToolData(JStr("get_user_profile"), source(UserProfile(Decimal(userId))))
  {
  }

  /** For any arguments, the list and user tools ask the source for the normalised limit and user id. */
  lemma ListAndUserToolsPassNormalisedArguments(args: seq<(string, Json)>, userId: int, source: SourceCall -> Json)
    ensures var user := NormalizeUserId(Lookup(args, "user_id"), IntToString(userId));
            var limit := NormalizeLimit(Lookup(args, "limit"), DefaultLimit);
            && ExecuteTool(JStr("get_available_bikes"), args, userId, source)
               == ToolData(JStr("get_available_bikes"), source(AvailableBikes(limit)))
            && ExecuteTool(JStr("get_payments"), args, userId, source)
               == ToolData(JStr("get_payments"), source(Payments(user, limit)))
            && ExecuteTool(JStr("get_rentals"), args, userId, source)
               == ToolData(JStr("get_rentals"), source(Rentals(user, limit)))
            && ExecuteTool(JStr("get_user_profile"), args, userId, source)
               == ToolData(JStr("get_user_profile"), source(UserProfile(user)))
  {
  }

  /** tool_call.get("function") or {}: a dict unless the model sent a truthy non-dict. */
  function FunctionField(toolCall: seq<(string, Json)>): (f: Json)
    ensures Lookup(toolCall, "function").None? ==> f == JObject([])
    ensures Lookup(toolCall, "function").Some? && Truthy(Lookup(toolCall, "function").value)
            ==> f == Lookup(toolCall, "function").value
  {
    OrElse(Lookup(toolCall, "function"), JObject([]))
  }

  /**
   * ExecuteToolCall as written: reads tool_call["function"] (or {}), its "name" (or "") and its
   * "arguments" through _ParseToolArgs as written. A truthy "function" that is not a dict has
   * no .get (AttributeError); arguments that reach json.loads without being text raise
   * TypeError; arguments that decode to anything but a dict reach `args.get` in ExecuteTool,
   * which raises AttributeError whatever the tool name.
   */
  function ExecuteToolCall(toolCall: seq<(string, Json)>, userId: int, decode: string -> Option<Json>,
                           source: SourceCall -> Json): (r: Result<ToolReply, string>)
    ensures !FunctionField(toolCall).JObject? ==> r == Failure("AttributeError")
    ensures Lookup(toolCall, "function").None? ==> r == Success(ToolError(JStr(""), "unsupported_tool"))
    ensures FunctionField(toolCall).JObject? ==>
              var fn := FunctionField(toolCall).fields;
              var parsed := ParseToolArgsAsWritten(Lookup(fn, "arguments"), decode);
              && (r.Success? <==> parsed.Success? && parsed.value.JObject?)
              && (r.Success? ==> r.value.tool == OrElse(Lookup(fn, "name"), JStr("")))
    ensures r.Success? ==> (r.value.ToolError? <==> !IsToolName(r.value.tool))
  {
    match FunctionField(toolCall)
    case JObject(fn) =>
      var name := OrElse(Lookup(fn, "name"), JStr(""));
      (match ParseToolArgsAsWritten(Lookup(fn, "arguments"), decode)
       case Failure(e) => Failure(e)
       case Success(JObject(args)) => Success(ExecuteTool(name, args, userId, source))
       case Success(_) => Failure("AttributeError"))
    case _ => Failure("AttributeError")
  }

  /** Arguments that are the JSON text of a list raise, even when the tool name is unknown. */
  lemma ListArgumentsRaise(name: Json, userId: int, decode: string -> Option<Json>, source: SourceCall -> Json)
    requires decode("[1]") == Some(JList([JInt(1)]))
    ensures ExecuteToolCall([("function", JObject([("name", name), ("arguments", JStr("[1]"))]))], userId, decode, source)
         == Failure("AttributeError")
  {
    var fn := [("name", name), ("arguments", JStr("[1]"))];
    var call := [("function", JObject(fn))];
    IndexOfAt(call, "function", 0);
    assert |fn[0].0| != |"arguments"|;
    IndexOfAt(fn, "arguments", 1);
  }

  /**
   * ExecuteToolCall with the corrected _ParseToolArgs: only a truthy non-dict "function" raises,
   * and arguments that give no dict are read as {}.
   */
  function ExecuteToolCallCorrected(toolCall: seq<(string, Json)>, userId: int, decode: string -> Option<Json>,
                                    source: SourceCall -> Json): (r: Result<ToolReply, string>)
    ensures r.Failure? <==> !FunctionField(toolCall).JObject?
    ensures r.Success? ==> r.value == ExecuteTool(OrElse(Lookup(FunctionField(toolCall).fields, "name"), JStr("")),
                                                  ParseToolArgs(Lookup(FunctionField(toolCall).fields, "arguments"), decode),
                                                  userId, source)
  {
    match FunctionField(toolCall)
    case JObject(fn) =>
      var name := OrElse(Lookup(fn, "name"), JStr(""));
      Success(ExecuteTool(name, ParseToolArgs(Lookup(fn, "arguments"), decode), userId, source))
    case _ => Failure("AttributeError")
  }

  /** Wherever the call as written succeeds, the corrected call gives the same reply. */
  lemma ExecuteToolCallAgrees(toolCall: seq<(string, Json)>, userId: int, decode: string -> Option<Json>,
                              source: SourceCall -> Json)
    ensures ExecuteToolCall(toolCall, userId, decode, source).Success? ==>
              ExecuteToolCallCorrected(toolCall, userId, decode, source) == ExecuteToolCall(toolCall, userId, decode, source)
    ensures ExecuteToolCall(toolCall, userId, decode, source) == Failure("AttributeError")
              && !FunctionField(toolCall).JObject?
            ==> ExecuteToolCallCorrected(toolCall, userId, decode, source).Failure?
  {
    var f := FunctionField(toolCall);
    if f.JObject? {
      ParseToolArgsAgrees(Lookup(f.fields, "arguments"), decode);
    }
  }
}
