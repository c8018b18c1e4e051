/**
 * The LLM-response validator (`GPTCommandParser.validate_response`) and the
 * error handling of `GPTCommandParser.parse_command`, in both copies of the
 * bot: the older one under bot/ and the one under deploy/bot_server/bot/.
 *
 * The OpenAI request is not modelled: its outcome (the client raised, the
 * reply was not JSON, or the decoded reply) is an input. Exceptions become
 * an `Error` value that records how each `ParsingError` was built.
 */
module GptParser {
  import opened Wrappers
  import opened Text
  import opened JsonValue

  /** What `parse_command` can raise, and what it wraps. */
  datatype Error =
    | Raised(message: string)                  // ParsingError(message) raised by the parser itself
    | TypeError                                // `in` or `[...]` applied to a value that is not a dict
    | ApiFailure                               // the OpenAI client raised
    | DecodeFailure                            // json.JSONDecodeError
    | Wrapped(prefix: string, cause: Error)    // ParsingError(prefix + str(cause))

  /** The two copies of the parser differ only in their wording and wrapping. */
  datatype Copy = BotCopy | DeployCopy

  /** The Python types `str`, `list` and `bool` that `isinstance` is asked about. */
  datatype Kind = StrKind | ListKind | BoolKind

  predicate IsInstance(v: Json, k: Kind) {
    match k
    case StrKind => v.Str?
    case ListKind => v.Array?
    case BoolKind => v.Bool?
  }

  /** `required_fields`, in the order the loop visits them. */
  const RequiredFields: seq<(string, Kind)> :=
    [("project_name", StrKind), ("sections", ListKind), ("is_create_table_command", BoolKind)]

  function MissingMessage(copy: Copy, field: string): string {
    match copy
    case BotCopy => "В ответе отсутствует поле " + field
    case DeployCopy => "В ответе отсутствует обязательное поле '" + field + "'"
  }

  function WrongTypeMessage(copy: Copy, field: string): string {
    match copy
    case BotCopy => "Поле " + field + " имеет неверный тип"
    case DeployCopy => "Поле '" + field + "' имеет неверный тип"
  }

  function SectionsMessage(copy: Copy): string {
    match copy
    case BotCopy => "Все элементы в sections должны быть строками"
    case DeployCopy => "Все элементы в списке sections должны быть строками"
  }

  const ValidationPrefix := "Ошибка при валидации ответа: "
  const UnexpectedPrefix := "Неожиданная ошибка при обработке команды: "
  const JsonPrefix := "Ошибка при разборе JSON ответа: "
  const ApiPrefix := "Ошибка при обращении к API OpenAI: "
  const EmptyMessage := "Получено пустое или некорректное сообщение"
  const BadJsonMessage := "Получен некорректный JSON от GPT"

  /**
   * Python's `key in v`: a dict tests its keys, a list its elements, a
   * string its substrings; any other JSON value raises TypeError.
   */
  function KeyIn(v: Json, key: string): Result<bool, Error> {
    match v
    case Object(fields) => Ok(key in fields)
    case Array(items) => Ok(Str(key) in items)
    case Str(s) => Ok(Contains(s, key))
    case _ => Err(TypeError)
  }

  /** A field that is present with the right type. */
  predicate FieldOk(response: Json, field: (string, Kind)) {
    response.Object? && field.0 in response.fields && IsInstance(response.fields[field.0], field.1)
  }

  /** The message for a field of a dict that is missing or has the wrong type. */
  function Complaint(copy: Copy, response: Json, field: (string, Kind)): string
    requires response.Object?
  {
    if field.0 !in response.fields then MissingMessage(copy, field.0) else WrongTypeMessage(copy, field.0)
  }

  /**
   * The field loop of `validate_response`: the first field, in order, that is
   * missing or has the wrong type is reported; `None` when all are fine.
   */
  function FieldsError(copy: Copy, response: Json, fields: seq<(string, Kind)>): (r: Option<Error>)
    ensures r.None? <==> forall i :: 0 <= i < |fields| ==> FieldOk(response, fields[i])
    ensures response.Object? && r.Some? ==>
      exists i :: 0 <= i < |fields| && (forall j :: 0 <= j < i ==> FieldOk(response, fields[j]))
        && !FieldOk(response, fields[i]) && r.value == Raised(Complaint(copy, response, fields[i]))
    ensures !response.Object? && r.Some? ==>
      r.value == TypeError || r.value == Raised(MissingMessage(copy, fields[0].0))
  {
    if fields == [] then None
    else
      var (field, kind) := fields[0];
      match KeyIn(response, field)
      case Err(e) => Some(e)
      case Ok(false) => Some(Raised(MissingMessage(copy, field)))
      case Ok(true) =>
        if !response.Object? then Some(TypeError)
        else if !IsInstance(response.fields[field], kind) then Some(Raised(WrongTypeMessage(copy, field)))
        else
          var rest := FieldsError(copy, response, fields[1..]);
          assert rest.Some? ==>
                   exists i :: 0 <= i < |fields| && (forall j :: 0 <= j < i ==> FieldOk(response, fields[j]))
                                 && !FieldOk(response, fields[i]) && rest.value == Raised(Complaint(copy, response, fields[i])) by {
            if rest.Some? {
              var i :| 0 <= i < |fields| - 1 && (forall j :: 0 <= j < i ==> FieldOk(response, fields[1..][j]))
                && !FieldOk(response, fields[1..][i]) && rest.value == Raised(Complaint(copy, response, fields[1..][i]));
              assert forall j :: 0 <= j < i + 1 ==> FieldOk(response, fields[j]) by {
                forall j | 0 <= j < i + 1 ensures FieldOk(response, fields[j]) {
                  if j > 0 {
                    assert fields[j] == fields[1..][j - 1];
                  }
                }
              }
            }
          }
          rest
  }

  /** `response["sections"] and not all(isinstance(s, str) ...)`, on a checked dict. */
  predicate SectionsBad(response: Json)
    requires FieldOk(response, ("sections", ListKind))
  {
    var items := response.fields["sections"].items;
    items != [] && exists i :: 0 <= i < |items| && !items[i].Str?
  }

  /** The responses `validate_response` lets through, stated field by field. */
  predicate WellFormed(response: Json) {
    && response.Object?
    && "project_name" in response.fields && response.fields["project_name"].Str?
    && "sections" in response.fields && response.fields["sections"].Array?
    && "is_create_table_command" in response.fields && response.fields["is_create_table_command"].Bool?
    && forall i :: 0 <= i < |response.fields["sections"].items| ==> response.fields["sections"].items[i].Str?
  }

  /** The checks of `validate_response`, before any wrapping. */
  function ResponseError(copy: Copy, response: Json): (r: Option<Error>)
    ensures r.None? <==> WellFormed(response)
  {
    match FieldsError(copy, response, RequiredFields)
    case Some(e) => Some(e)
    case None =>
      assert FieldOk(response, RequiredFields[0]) && FieldOk(response, RequiredFields[1]) && FieldOk(response, RequiredFields[2]);
      if SectionsBad(response) then Some(Raised(SectionsMessage(copy))) else None
  }

  /**
   * `validate_response`: a well-formed response is returned unchanged; the
   * deploy copy re-raises every failure prefixed "Ошибка при валидации ответа: ".
   */
  function ValidateResponse(copy: Copy, response: Json): (r: Result<Json, Error>)
    ensures r.Ok? <==> WellFormed(response)
    ensures r.Ok? ==> r.value == response
    ensures copy == DeployCopy && r.Err? ==> r.error.Wrapped? && r.error.prefix == ValidationPrefix
  {
    match ResponseError(copy, response)
    case None => Ok(response)
    case Some(e) => if copy == BotCopy then Err(e) else Err(Wrapped(ValidationPrefix, e))
  }

  /** The outcome of the OpenAI request, which the model takes as given. */
  datatype Reply =
    | ApiRaised              // the client raised
    | Undecodable            // the content is not JSON
    | Decoded(value: Json)   // `json.loads` of the content

  /**
   * `parse_command` of the bot/ copy: every failure is re-raised as
   * ParsingError prefixed "Неожиданная ошибка при обработке команды: ".
   */
  function ParseCommandBot(reply: Reply): (r: Result<Json, Error>)
    ensures r.Ok? <==> reply.Decoded? && WellFormed(reply.value)
    ensures r.Ok? ==> r.value == reply.value
    ensures r.Err? ==> r.error.Wrapped? && r.error.prefix == UnexpectedPrefix
  {
    match reply
    case ApiRaised => Err(Wrapped(UnexpectedPrefix, ApiFailure))
    case Undecodable => Err(Wrapped(UnexpectedPrefix, Wrapped(JsonPrefix, DecodeFailure)))
    case Decoded(v) =>
      match ValidateResponse(BotCopy, v)
      case Ok(w) => Ok(w)
      case Err(e) => Err(Wrapped(UnexpectedPrefix, e))
  }

  /**
   * The input guard of the deploy copy: `not message or not
   * isinstance(message, str) or message.strip() == ""` rejects the message.
   */
  predicate UsableMessage(message: Json) {
    Truthy(message) && message.Str? && Strip(message.s) != []
  }

  /** `parse_command` of the deploy copy: the guard runs before the request. */
  function ParseCommandDeploy(message: Json, reply: Reply): (r: Result<Json, Error>)
    ensures r.Ok? <==> UsableMessage(message) && reply.Decoded? && WellFormed(reply.value)
    ensures r.Ok? ==> r.value == reply.value
    ensures r.Err? ==> r.error.Wrapped? && r.error.prefix == UnexpectedPrefix
    ensures !UsableMessage(message) ==> r == Err(Wrapped(UnexpectedPrefix, Raised(EmptyMessage)))
  {
    if !UsableMessage(message) then Err(Wrapped(UnexpectedPrefix, Raised(EmptyMessage)))
    else
      match reply
      case ApiRaised => Err(Wrapped(UnexpectedPrefix, Wrapped(ApiPrefix, ApiFailure)))
      case Undecodable => Err(Wrapped(UnexpectedPrefix, Raised(BadJsonMessage)))
      case Decoded(v) =>
        match ValidateResponse(DeployCopy, v)
        case Ok(w) => Ok(w)
        case Err(e) => Err(Wrapped(UnexpectedPrefix, e))
  }

  /** Both copies accept exactly the same responses. */
  lemma CopiesAgree(response: Json)
    ensures ValidateResponse(BotCopy, response).Ok? <==> ValidateResponse(DeployCopy, response).Ok?
  {
  }

  /** The whitespace-only messages of the deploy tests never reach the API. */
  lemma BlankMessagesRejected(s: string, reply: Reply)
    requires forall i :: 0 <= i < |s| ==> IsSpace(s[i])
    ensures ParseCommandDeploy(Str(s), reply) == Err(Wrapped(UnexpectedPrefix, Raised(EmptyMessage)))
  {
    StripAllSpace(s);
  }

  /* The invalid responses of the validation test, with the error each one gets. */

  lemma EmptyResponse()
    ensures ValidateResponse(BotCopy, Object(map[])) == Err(Raised(MissingMessage(BotCopy, "project_name")))
  {
  }

  lemma NameNotAString()
    ensures ValidateResponse(BotCopy, Object(map["project_name" := Number(123), "sections" := Array([]),
      "is_create_table_command" := Bool(true)])) == Err(Raised(WrongTypeMessage(BotCopy, "project_name")))
  {
  }

  lemma NameOnly()
    ensures ValidateResponse(BotCopy, Object(map["project_name" := Str("Test")]))
      == Err(Raised(MissingMessage(BotCopy, "sections")))
  {
    var r := Object(map["project_name" := Str("Test")]);
    assert FieldsError(BotCopy, r, RequiredFields[1..]) == Some(Raised(MissingMessage(BotCopy, "sections")));
  }

  lemma SectionsNotAList()
    ensures ValidateResponse(BotCopy, Object(map["project_name" := Str("Test"), "sections" := Str("not a list"),
      "is_create_table_command" := Bool(true)])) == Err(Raised(WrongTypeMessage(BotCopy, "sections")))
  {
    var r := Object(map["project_name" := Str("Test"), "sections" := Str("not a list"), "is_create_table_command" := Bool(true)]);
    assert FieldsError(BotCopy, r, RequiredFields[1..]) == Some(Raised(WrongTypeMessage(BotCopy, "sections")));
  }

  lemma FlagAsString()
    ensures ValidateResponse(BotCopy, Object(map["project_name" := Str("Test"), "sections" := Array([]),
      "is_create_table_command" := Str("true")])) == Err(Raised(WrongTypeMessage(BotCopy, "is_create_table_command")))
  {
    var r := Object(map["project_name" := Str("Test"), "sections" := Array([]), "is_create_table_command" := Str("true")]);
    assert RequiredFields[1..][1..] == [("is_create_table_command", BoolKind)];
    assert FieldsError(BotCopy, r, RequiredFields[1..][1..]) == Some(Raised(WrongTypeMessage(BotCopy, "is_create_table_command")));
    assert FieldsError(BotCopy, r, RequiredFields[1..]) == Some(Raised(WrongTypeMessage(BotCopy, "is_create_table_command")));
  }
}
