/**
 * The Express error middleware: it turns an error thrown by any route into an HTTP status
 * and a message. Seven independent checks each overwrite the reply, so when several match
 * the last one wins; with no match the error keeps its own status code and message.
 */
module ErrorHandler {
  import opened Wrappers
  import Text

  /** `err.code`: absent, a number (MongoDB) or a string (Multer). */
  datatype ErrorCode = NoCode | NumericCode(n: int) | TextCode(s: string)

  /**
   * An error reaching the handler: its `name`, `code` and `type`, its message (absent when
   * the thrower set none), the `statusCode` it carries as an own property, and, for a
   * validation error, the messages of its field errors in order.
   */
  datatype Failure = Failure(
    name: string,
    code: ErrorCode,
    etype: string,
    message: Option<string>,
    statusCode: Option<int>,
    fieldMessages: seq<string>)

  /** The handler's local `error` record: a message and a status code, either possibly absent. */
  datatype Reply = Reply(message: Option<string>, statusCode: Option<int>)

  /** The JSON response: its HTTP status, the `success` flag and the message. */
  datatype Response = Response(status: int, success: bool, message: string)

  const NotFoundMessage := "Resource not found"
  const DuplicateMessage := "Duplicate field value entered"
  const InvalidTokenMessage := "Invalid token"
  const ExpiredTokenMessage := "Token expired"
  const FileTooLargeMessage := "File too large"
  const AiServiceMessage := "AI service error. Please try again later."
  const ServerErrorMessage := "Server Error"
  const DuplicateKeyCode := 11000
  const FileSizeCode := "LIMIT_FILE_SIZE"

  /** The seven checks, named after the error each recognises. */
  datatype Rule = CastRule | DuplicateRule | ValidationRule | InvalidTokenRule | ExpiredTokenRule | FileSizeRule | AiServiceRule

  /** The checks in the order the handler makes them. */
  const Rules: seq<Rule> := [CastRule, DuplicateRule, ValidationRule, InvalidTokenRule, ExpiredTokenRule, FileSizeRule, AiServiceRule]

  predicate Matches(r: Rule, e: Failure) {
    match r
    case CastRule => e.name == "CastError"
    case DuplicateRule => e.code == NumericCode(DuplicateKeyCode)
    case ValidationRule => e.name == "ValidationError"
    case InvalidTokenRule => e.name == "JsonWebTokenError"
    case ExpiredTokenRule => e.name == "TokenExpiredError"
    case FileSizeRule => e.code == TextCode(FileSizeCode)
    case AiServiceRule => e.etype == "OpenAIError"
  }

  /** The record a matching check installs in place of the error's own. */
  function RuleReply(r: Rule, e: Failure): Reply {
    match r
    case CastRule => Reply(Some(NotFoundMessage), Some(404))
    case DuplicateRule => Reply(Some(DuplicateMessage), Some(400))
    case ValidationRule => Reply(Some(Text.Join(e.fieldMessages, ", ")), Some(400))
    case InvalidTokenRule => Reply(Some(InvalidTokenMessage), Some(401))
    case ExpiredTokenRule => Reply(Some(ExpiredTokenMessage), Some(401))
    case FileSizeRule => Reply(Some(FileTooLargeMessage), Some(400))
    case AiServiceRule => Reply(Some(AiServiceMessage), Some(503))
  }

  /** The last rule of `rules[..n]` that matches `e`, if any. */
  function LastMatchBelow(rules: seq<Rule>, e: Failure, n: nat): (m: Option<Rule>)
    requires n <= |rules|
    ensures m.None? <==> forall i :: 0 <= i < n ==> !Matches(rules[i], e)
    ensures m.Some? ==> exists i :: 0 <= i < n && rules[i] == m.value && Matches(m.value, e)
                                    && forall j :: i < j < n ==> !Matches(rules[j], e)
  {
    if n == 0 then None
    else if Matches(rules[n - 1], e) then Some(rules[n - 1])
    else
      var m := LastMatchBelow(rules, e, n - 1);
      if m.Some? then
        var i :| 0 <= i < n - 1 && rules[i] == m.value && Matches(m.value, e)
                 && forall j :: i < j < n - 1 ==> !Matches(rules[j], e);
        assert forall j :: i < j < n ==> !Matches(rules[j], e);
        m
      else
        m
  }

  /** The last rule of `rules` that matches `e`, if any. */
  function LastMatch(rules: seq<Rule>, e: Failure): (m: Option<Rule>)
    ensures m.None? <==> forall i :: 0 <= i < |rules| ==> !Matches(rules[i], e)
    ensures m.Some? ==> exists i :: 0 <= i < |rules| && rules[i] == m.value && Matches(m.value, e)
                                    && forall j :: i < j < |rules| ==> !Matches(rules[j], e)
  {
    LastMatchBelow(rules, e, |rules|)
  }

  /** Reference: the record of the last matching check, or the error's own when none matches. */
  function Classify(e: Failure): Reply {
    match LastMatch(Rules, e)
    case None => Reply(e.message, e.statusCode)
    case Some(r) => RuleReply(r, e)
  }

  /** `res.status(error.statusCode || 500).json({success: false, message: error.message || 'Server Error'})`. */
  function Respond(x: Reply): (resp: Response)
    ensures !resp.success && resp.message != ""
    ensures resp.status != 0
    ensures (x.statusCode.Some? && x.statusCode.value != 0) <==> resp.status == x.statusCode.GetOr(0)
    ensures (x.message.Some? && x.message.value != "") <==> resp.message == x.message.GetOr("")
  {
    Response(
      if x.statusCode.Some? && x.statusCode.value != 0 then x.statusCode.value else 500,
      false,
      if x.message.Some? && x.message.value != "" then x.message.value else ServerErrorMessage)
  }

  /** The handler: the local record is overwritten by each check that matches, in source order. */
  method HandleError(e: Failure) returns (resp: Response)
    ensures resp == Respond(Classify(e))
  {
    var error := Reply(e.message, e.statusCode);
    ghost var expected := error;
    if e.name == "CastError" {
      error := Reply(Some(NotFoundMessage), Some(404));
    }
    expected := Overwrite(expected, CastRule, e);
    assert error == expected;
    if e.code == NumericCode(DuplicateKeyCode) {
      error := Reply(Some(DuplicateMessage), Some(400));
    }
    expected := Overwrite(expected, DuplicateRule, e);
    assert error == expected;
    if e.name == "ValidationError" {
      error := Reply(Some(Text.Join(e.fieldMessages, ", ")), Some(400));
    }
    expected := Overwrite(expected, ValidationRule, e);
    assert error == expected;
    if e.name == "JsonWebTokenError" {
      error := Reply(Some(InvalidTokenMessage), Some(401));
    }
    expected := Overwrite(expected, InvalidTokenRule, e);
    assert error == expected;
    if e.name == "TokenExpiredError" {
      error := Reply(Some(ExpiredTokenMessage), Some(401));
    }
    expected := Overwrite(expected, ExpiredTokenRule, e);
    assert error == expected;
    if e.code == TextCode(FileSizeCode) {
      error := Reply(Some(FileTooLargeMessage), Some(400));
    }
    expected := Overwrite(expected, FileSizeRule, e);
    assert error == expected;
    if e.etype == "OpenAIError" {
      error := Reply(Some(AiServiceMessage), Some(503));
    }
    expected := Overwrite(expected, AiServiceRule, e);
    assert error == expected;
    ClassifyOverwrites(e);
    resp := Respond(error);
  }

  /** The reference written out over the seven checks, last first. */
  lemma {:induction false} LastMatchUnrolled(e: Failure)
    ensures LastMatch(Rules, e) ==
      if Matches(AiServiceRule, e) then Some(AiServiceRule)
      else if Matches(FileSizeRule, e) then Some(FileSizeRule)
      else if Matches(ExpiredTokenRule, e) then Some(ExpiredTokenRule)
      else if Matches(InvalidTokenRule, e) then Some(InvalidTokenRule)
      else if Matches(ValidationRule, e) then Some(ValidationRule)
      else if Matches(DuplicateRule, e) then Some(DuplicateRule)
      else if Matches(CastRule, e) then Some(CastRule)
      else None
  {
    assert Rules[0] == CastRule && Rules[1] == DuplicateRule && Rules[2] == ValidationRule;
    assert Rules[3] == InvalidTokenRule && Rules[4] == ExpiredTokenRule && Rules[5] == FileSizeRule;
    assert Rules[6] == AiServiceRule;
    LastMatchStep(Rules, e, 1);
    LastMatchStep(Rules, e, 2);
    LastMatchStep(Rules, e, 3);
    LastMatchStep(Rules, e, 4);
    LastMatchStep(Rules, e, 5);
    LastMatchStep(Rules, e, 6);
    LastMatchStep(Rules, e, 7);
  }

  /** Extending the searched prefix by one rule: that rule wins if it matches. */
  lemma LastMatchStep(rules: seq<Rule>, e: Failure, n: nat)
    requires 0 < n <= |rules|
    ensures LastMatchBelow(rules, e, n) == if Matches(rules[n - 1], e) then Some(rules[n - 1]) else LastMatchBelow(rules, e, n - 1)
  {
  }

  /** One check: a matching rule replaces the record, otherwise it is kept. */
  function Overwrite(x: Reply, r: Rule, e: Failure): Reply {
    if Matches(r, e) then RuleReply(r, e) else x
  }

  /** The reference as the seven checks applied in source order to the error's own record. */
  lemma {:induction false} ClassifyOverwrites(e: Failure)
    ensures Classify(e) ==
      Overwrite(Overwrite(Overwrite(Overwrite(Overwrite(Overwrite(Overwrite(
        Reply(e.message, e.statusCode), CastRule, e), DuplicateRule, e), ValidationRule, e),
        InvalidTokenRule, e), ExpiredTokenRule, e), FileSizeRule, e), AiServiceRule, e)
  {
    LastMatchUnrolled(e);
  }

  /**
   * Every response is a failure with a non-empty message, and its status is one the
   * checks assign or, when no check matches, the error's own non-zero code or 500.
   */
  lemma ResponseShape(e: Failure)
    ensures !Respond(Classify(e)).success && Respond(Classify(e)).message != ""
    ensures Respond(Classify(e)).status in {400, 401, 404, 500, 503}
            || (LastMatch(Rules, e).None? && Respond(Classify(e)).status == e.statusCode.GetOr(0))
  {
  }

  /** With no matching check the error's own status code (else 500) and message (else "Server Error") are used. */
  lemma {:induction false} UnrecognisedErrorKeepsItsOwn(e: Failure)
    requires e.name !in {"CastError", "ValidationError", "JsonWebTokenError", "TokenExpiredError"}
    requires e.code != NumericCode(DuplicateKeyCode) && e.code != TextCode(FileSizeCode)
    requires e.etype != "OpenAIError"
    ensures Respond(Classify(e)).status == if e.statusCode.Some? && e.statusCode.value != 0 then e.statusCode.value else 500
    ensures Respond(Classify(e)).message == if e.message.Some? && e.message.value != "" then e.message.value else "Server Error"
  {
    ClassifyOverwrites(e);
  }

  /**
   * Precedence among checks that match together: the AI-service type beats everything,
   * a file-size code beats the error's name, and a name beats a duplicate-key code.
   */
  lemma {:induction false} LaterChecksWin(e: Failure)
    ensures e.etype == "OpenAIError" ==> Respond(Classify(e)) == Response(503, false, AiServiceMessage)
    ensures e.etype != "OpenAIError" && e.code == TextCode(FileSizeCode) ==>
              Respond(Classify(e)) == Response(400, false, FileTooLargeMessage)
    ensures e.etype != "OpenAIError" && e.code == NumericCode(DuplicateKeyCode) && e.name == "CastError" ==>
              Respond(Classify(e)) == Response(400, false, DuplicateMessage)
    ensures e.etype != "OpenAIError" && e.code == NumericCode(DuplicateKeyCode) && e.name == "TokenExpiredError" ==>
              Respond(Classify(e)) == Response(401, false, ExpiredTokenMessage)
  {
    ClassifyOverwrites(e);
  }

  /**
   * The named errors, when no later check matches: a cast error is 404, a validation error
   * is 400 with its field messages joined by ", " (or "Server Error" when it has none),
   * and the token errors are 401.
   */
  lemma {:induction false} NamedErrors(e: Failure)
    requires e.etype != "OpenAIError" && e.code != TextCode(FileSizeCode)
    ensures e.name == "CastError" && e.code != NumericCode(DuplicateKeyCode) ==>
              Respond(Classify(e)) == Response(404, false, NotFoundMessage)
    ensures e.name == "ValidationError" && e.fieldMessages != [] && e.fieldMessages[0] != "" ==>
              Respond(Classify(e)) == Response(400, false, Text.Join(e.fieldMessages, ", "))
    ensures e.name == "ValidationError" && e.fieldMessages == [] ==>
              Respond(Classify(e)) == Response(400, false, ServerErrorMessage)
    ensures e.name == "JsonWebTokenError" ==> Respond(Classify(e)) == Response(401, false, InvalidTokenMessage)
    ensures e.name == "TokenExpiredError" ==> Respond(Classify(e)) == Response(401, false, ExpiredTokenMessage)
  {
    ClassifyOverwrites(e);
    if e.name == "ValidationError" && e.fieldMessages != [] && e.fieldMessages[0] != "" {
      JoinStartsWithFirst(e.fieldMessages, ", ");
    }
  }

  /** A join begins with its first part, so it is non-empty when that part is. */
  lemma JoinStartsWithFirst(parts: seq<string>, sep: string)
    requires parts != []
    ensures |Text.Join(parts, sep)| >= |parts[0]|
    ensures Text.Join(parts, sep)[..|parts[0]|] == parts[0]
  {
  }
}
