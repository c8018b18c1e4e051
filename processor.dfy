// The command processor of both bot copies (bot/command_processor.py and
// deploy/bot_server/bot/command_processor.py): the per-chat history that
// `_chat_with_ai` keeps, the checks `_extract_project_info` makes on the
// language model's extraction reply, and the dispatch of `process_command`.
// Every answer of the language model is an input here.

module Processor {
  import opened Wrappers
  import opened JsonValue
  import Intent

  datatype Role = UserRole | AssistantRole

  /** One entry of a chat history: `{"role": ..., "content": ...}`. */
  datatype ChatMessage = ChatMessage(role: Role, content: string)

  const ApologyMessage: string :=
    "К сожалению, произошла ошибка при обработке вашего запроса. Пожалуйста, попробуйте позже."

  // ---------------------------------------------------------------------------
  // Chat history
  // ---------------------------------------------------------------------------

  /** The history after `if len(h) > max: h = h[-max:]`; Python's `h[-0:]` is the whole list. */
  function TrimHistory(history: seq<ChatMessage>, max: nat): (r: seq<ChatMessage>)
    ensures |history| <= max ==> r == history
    ensures 0 < max < |history| ==> |r| == max
    ensures |r| <= |history|
    ensures forall i :: 0 <= i < |r| ==> r[i] == history[|history| - |r| + i]
  {
    if |history| > max && max > 0 then history[|history| - max..] else history
  }

  /** The history once the user's message is appended and the history trimmed. */
  function UserTurn(history: seq<ChatMessage>, message: string, max: nat): seq<ChatMessage> {
    TrimHistory(history + [ChatMessage(UserRole, message)], max)
  }

  /** The history after a whole chat turn: the assistant's reply is stored only when the call succeeded. */
  function ChatTurn(history: seq<ChatMessage>, message: string, reply: Option<string>, max: nat): seq<ChatMessage> {
    UserTurn(history, message, max) + (if reply.Some? then [ChatMessage(AssistantRole, reply.value)] else [])
  }

  /** The trimmed history ends with the user's message, holds at most `max` entries, and what precedes the
    * message is the most recent part of the old history, in order. */
  lemma UserTurnShape(history: seq<ChatMessage>, message: string, max: nat)
    requires max > 0
    ensures var t := UserTurn(history, message, max);
      && 0 < |t| <= max
      && t[|t| - 1] == ChatMessage(UserRole, message)
      && (forall i :: 0 <= i < |t| - 1 ==> t[i] == history[|history| - (|t| - 1) + i])
  {
    var h := history + [ChatMessage(UserRole, message)];
    var t := TrimHistory(h, max);
    assert t[|t| - 1] == h[|h| - 1];
    forall i | 0 <= i < |t| - 1
      ensures t[i] == history[|history| - (|t| - 1) + i]
    {
      assert t[i] == h[|h| - |t| + i];
    }
  }

  /** Nothing is dropped while the history is shorter than `max`. */
  lemma UserTurnKeepsShortHistory(history: seq<ChatMessage>, message: string, max: nat)
    requires |history| < max
    ensures UserTurn(history, message, max) == history + [ChatMessage(UserRole, message)]
  {
  }

  /** A successful turn ends with the user's message followed by the assistant's reply; a failed one ends
    * with the user's message.  Either way the history stays within `max + 1` entries. */
  lemma ChatTurnShape(history: seq<ChatMessage>, message: string, reply: Option<string>, max: nat)
    requires max > 0
    ensures var t := ChatTurn(history, message, reply, max);
      && |t| <= max + 1
      && (reply.Some? ==>
            |t| >= 2 && t[|t| - 1] == ChatMessage(AssistantRole, reply.value)
            && t[|t| - 2] == ChatMessage(UserRole, message))
      && (reply.None? ==> |t| >= 1 && t[|t| - 1] == ChatMessage(UserRole, message))
  {
    UserTurnShape(history, message, max);
  }

  /** The processor's mutable state: `self.chat_histories` and `self.max_history_length`. */
  class CommandProcessor {
    var chatHistories: map<int, seq<ChatMessage>>
    const maxHistoryLength: nat

    /** Every stored history is within one entry of the bound (the assistant's reply may follow a trim). */
    predicate Valid()
      reads this
    {
      && maxHistoryLength > 0
      && forall id :: id in chatHistories ==> |chatHistories[id]| <= maxHistoryLength + 1
    }

    /** The history of `chatId`; a chat never seen has none. */
    function History(chatId: int): seq<ChatMessage>
      reads this
    {
      if chatId in chatHistories then chatHistories[chatId] else []
    }

    constructor ()
      ensures Valid()
      ensures chatHistories == map[] && maxHistoryLength == 5
    {
      chatHistories := map[];
      maxHistoryLength := 5;
    }

    /** `_chat_with_ai`: `reply` is the language model's answer, `None` when the call raised. */
    method ChatWithAi(message: string, chatId: int, reply: Option<string>) returns (answer: string)
      requires Valid()
      modifies this
      ensures Valid()
      ensures chatHistories == old(chatHistories)[chatId := ChatTurn(old(History(chatId)), message, reply, maxHistoryLength)]
      ensures answer == if reply.Some? then reply.value else ApologyMessage
    {
      var histories := chatHistories;
      var history := if chatId in histories then histories[chatId] else [];
      ghost var before := history;
      history := history + [ChatMessage(UserRole, message)];
      if |history| > maxHistoryLength {
        history := history[|history| - maxHistoryLength..];
      }
      assert history == UserTurn(before, message, maxHistoryLength);
      // the user's message is stored before the language model is asked
      chatHistories := histories[chatId := history];
      if reply.Some? {
        chatHistories := histories[chatId := history + [ChatMessage(AssistantRole, reply.value)]];
        answer := reply.value;
      } else {
        assert history + [] == history;
        answer := ApologyMessage;
      }
      ChatTurnShape(old(History(chatId)), message, reply, maxHistoryLength);
    }
  }

  // ---------------------------------------------------------------------------
  // Extraction of the project data
  // ---------------------------------------------------------------------------

  /** What the extraction request to the language model came back with. */
  datatype Completion =
    | CallFailed        // the API call raised
    | NoContent         // no response, no choices or no message
    | NotJson           // the content is not a JSON document
    | Parsed(value: Json)

  /** What is handed to the sheet builder: `{"project_name": ..., "sections": ...}`. */
  datatype ProjectData = ProjectData(projectName: Json, sections: Json)

  /** The deploy copy's acceptance test on the parsed reply. */
  predicate ProjectInfoValid(v: Json) {
    && v.Object?
    && Truthy(Get(v, "project_name"))
    && Truthy(Get(v, "sections"))
    && Get(v, "sections").Array?
  }

  /** Deploy `_extract_project_info`: the parsed reply when it passes every check, `{}` otherwise. */
  function ExtractProjectInfoDeploy(c: Completion): (r: Json)
    ensures r == EmptyObject || (c.Parsed? && r == c.value)
    ensures ProjectInfoValid(r) <==> c.Parsed? && ProjectInfoValid(c.value)
  {
    if c.Parsed? && ProjectInfoValid(c.value) then c.value else EmptyObject
  }

  /** Bot `_extract_project_info`: the pair `(project_name, sections)`, or `(None, None)` on any failure;
    * `result.get` on anything but a dict raises and so also ends in `(None, None)`. */
  function ExtractProjectInfoBot(c: Completion): (r: (Json, Json))
    ensures r == (Null, Null) || (c.Parsed? && c.value.Object?)
    ensures r != (Null, Null) ==> r == (Get(c.value, "project_name"), Get(c.value, "sections"))
  {
    if c.Parsed? && c.value.Object? && Truthy(Get(c.value, "project_name")) && Truthy(Get(c.value, "sections"))
    then (Get(c.value, "project_name"), Get(c.value, "sections"))
    else (Null, Null)
  }

  // ---------------------------------------------------------------------------
  // process_command
  // ---------------------------------------------------------------------------

  /** The reply `process_command` returns. */
  datatype Response =
    | Rephrase                        // "Не удалось извлечь информацию о проекте ... сформулируйте иначе."
    | SheetCreated(projectName: Json, sections: Json, sheetId: Option<string>)
    | BuildStarted                    // the deploy copy answers "" and reports from the background build
    | HelpText
    | ChatAnswer(text: string)
    | CommandFailed                   // "❌ Ошибка при обработке команды: ..."

  /** Whether `', '.join(v)` succeeds: Python joins a list of strings, the characters of a string or
    * the keys of a dict, and raises `TypeError` on anything else. */
  predicate Joinable(v: Json) {
    match v
    case Array(items) => forall i :: 0 <= i < |items| ==> items[i].Str?
    case Str(_) => true
    case Object(_) => true
    case _ => false
  }

  /** The guard of the deploy `process_command`: `not project_data or not project_data.get(...)`. */
  predicate Incomplete(data: Json)
    requires data.Object?
  {
    !Truthy(data) || !Truthy(Get(data, "project_name")) || !Truthy(Get(data, "sections"))
  }

  /** The create branch of the bot copy: the reply and the request handed to `create_project_sheet`,
    * whose answer is `built`. */
  function CreateTableBot(c: Completion, built: Option<string>): (Response, Option<ProjectData>) {
    var (name, sections) := ExtractProjectInfoBot(c);
    if !Truthy(name) || !Truthy(sections) then (Rephrase, None)
    else
      var request := Some(ProjectData(name, sections));
      if Joinable(sections) then (SheetCreated(name, sections, built), request)
      else (CommandFailed, request)
  }

  /** The create branch of the deploy copy: the reply and the project data handed to the background
    * build.  The join for the progress message comes first, so a failing join starts nothing. */
  function CreateTableDeploy(c: Completion): (Response, Option<ProjectData>) {
    var data := ExtractProjectInfoDeploy(c);
    if Incomplete(data) then (Rephrase, None)
    else if !Joinable(Get(data, "sections")) then (CommandFailed, None)
    else (BuildStarted, Some(ProjectData(Get(data, "project_name"), Get(data, "sections"))))
  }

  /** Bot: a sheet is requested exactly when the extraction gave a truthy name and truthy sections,
    * the request carries them unchanged, and otherwise the user is asked to rephrase. */
  lemma BotRequestsSheetOnlyForProject(c: Completion, built: Option<string>)
    ensures var (response, request) := CreateTableBot(c, built);
      && (request.None? <==> response == Rephrase)
      && (request.None? <==>
            !(c.Parsed? && c.value.Object?
              && Truthy(Get(c.value, "project_name")) && Truthy(Get(c.value, "sections"))))
      && (request.Some? ==>
            request.value == ProjectData(Get(c.value, "project_name"), Get(c.value, "sections")))
  {
  }

  /** Bot: whether success is reported does not depend on what the builder returned, so a build that
    * returned `None` is still announced as a created sheet (with id `None`). */
  lemma BotReportIgnoresBuildResult(c: Completion, built1: Option<string>, built2: Option<string>)
    ensures CreateTableBot(c, built1).0.SheetCreated? == CreateTableBot(c, built2).0.SheetCreated?
    ensures CreateTableBot(c, built1).1 == CreateTableBot(c, built2).1
  {
  }

  /** Bot: a section value that cannot be joined fails the command only after the sheet was requested. */
  lemma BotFailsAfterRequest(c: Completion, built: Option<string>)
    requires CreateTableBot(c, built).0 == CommandFailed
    ensures CreateTableBot(c, built).1.Some?
    ensures !Joinable(CreateTableBot(c, built).1.value.sections)
  {
  }

  /** Deploy: the guard of `process_command` rejects exactly what the validator refused, so the rephrase
    * message and the validator's `{}` coincide. */
  lemma DeployGuardMatchesValidator(c: Completion)
    ensures Incomplete(ExtractProjectInfoDeploy(c)) <==> !(c.Parsed? && ProjectInfoValid(c.value))
  {
  }

  /** Deploy: a build starts only for a validated reply whose sections are a list of strings, and it is
    * handed that reply's name and sections. */
  lemma DeployBuildsOnlyValidProjects(c: Completion)
    ensures var (response, request) := CreateTableDeploy(c);
      && (request.Some? <==> response == BuildStarted)
      && (request.Some? <==>
            c.Parsed? && ProjectInfoValid(c.value) && Joinable(Get(c.value, "sections")))
      && (request.Some? ==>
            && request.value == ProjectData(Get(c.value, "project_name"), Get(c.value, "sections"))
            && request.value.sections.Array?
            && forall i :: 0 <= i < |request.value.sections.items| ==> request.value.sections.items[i].Str?)
      && (response == Rephrase <==> !(c.Parsed? && ProjectInfoValid(c.value)))
  {
    DeployGuardMatchesValidator(c);
  }

  /** `process_command` of the bot copy.  `extraction` is the extraction reply, `built` what
    * `create_project_sheet` returns and `reply` the chat answer; each is used only on its own branch. */
  method ProcessCommandBot(p: CommandProcessor, message: string, chatId: int,
                           extraction: Completion, built: Option<string>, reply: Option<string>)
    returns (response: Response, request: Option<ProjectData>)
    requires p.Valid()
    modifies p
    ensures p.Valid()
    ensures Intent.DetermineIntentBot(message) == Intent.CreateTable ==>
      (response, request) == CreateTableBot(extraction, built) && p.chatHistories == old(p.chatHistories)
    ensures Intent.DetermineIntentBot(message) == Intent.Help ==>
      response == HelpText && request.None? && p.chatHistories == old(p.chatHistories)
    ensures Intent.DetermineIntentBot(message) == Intent.Chat ==>
      && response == ChatAnswer(if reply.Some? then reply.value else ApologyMessage)
      && request.None?
      && p.chatHistories == old(p.chatHistories)[chatId := ChatTurn(old(p.History(chatId)), message, reply, p.maxHistoryLength)]
  {
    var intent := Intent.DetermineIntentBot(message);
    if intent == Intent.CreateTable {
      response, request := CreateTableBot(extraction, built).0, CreateTableBot(extraction, built).1;
    } else if intent == Intent.Help {
      response, request := HelpText, None;
    } else {
      var answer := p.ChatWithAi(message, chatId, reply);
      response, request := ChatAnswer(answer), None;
    }
  }

  /** `process_command` of the deploy copy; `request` is the project data of the background build. */
  method ProcessCommandDeploy(p: CommandProcessor, message: string, chatId: int,
                              extraction: Completion, reply: Option<string>)
    returns (response: Response, request: Option<ProjectData>)
    requires p.Valid()
    modifies p
    ensures p.Valid()
    ensures Intent.DetermineIntentDeploy(message) == Intent.CreateTable ==>
      (response, request) == CreateTableDeploy(extraction) && p.chatHistories == old(p.chatHistories)
    ensures Intent.DetermineIntentDeploy(message) == Intent.Help ==>
      response == HelpText && request.None? && p.chatHistories == old(p.chatHistories)
    ensures Intent.DetermineIntentDeploy(message) == Intent.Chat ==>
      && response == ChatAnswer(if reply.Some? then reply.value else ApologyMessage)
      && request.None?
      && p.chatHistories == old(p.chatHistories)[chatId := ChatTurn(old(p.History(chatId)), message, reply, p.maxHistoryLength)]
  {
    var intent := Intent.DetermineIntentDeploy(message);
    if intent == Intent.CreateTable {
      response, request := CreateTableDeploy(extraction).0, CreateTableDeploy(extraction).1;
    } else if intent == Intent.Help {
      response, request := HelpText, None;
    } else {
      var answer := p.ChatWithAi(message, chatId, reply);
      response, request := ChatAnswer(answer), None;
    }
  }
}
