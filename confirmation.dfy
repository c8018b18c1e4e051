// The confirmation dialogue of the deploy bot (deploy/bot_server/bot/main.py,
// `handle_message`): a create command is parsed by the language model, the
// project is kept per user until the user answers yes or no, and every other
// message is answered without touching the pending projects.

module Confirmation {
  import opened Wrappers
  import opened Text
  import opened JsonValue
  import GptParser

  /** The value stored in `user_context[user_id]`. */
  datatype PendingProject = PendingProject(projectName: string, sections: seq<Json>, awaitingConfirmation: bool)

  /** The reply `handle_message` sends, if any. */
  datatype Answer =
    | AskConfirmation(projectName: string, sections: seq<Json>)  // "📋 Я понял, что вы хотите создать проект: ..."
    | CannotExtract                                              // "❌ Извините, я не смог определить название ..."
    | Created(projectName: string, sections: seq<Json>)          // "✅ Отлично! Я создал проект ..."
    | TryAgain                                                   // "🔄 Хорошо, давайте попробуем снова. ..."
    | NoAnswer                                                   // a pending user wrote neither yes nor no
    | NotUnderstood                                              // "🤔 Извините, я не совсем понял, ..."
    | ParsingFailed(error: GptParser.Error)                      // "❌ Произошла ошибка при обработке команды: ..."

  const YesWords: seq<string> := ["да", "yes", "конечно", "верно"]
  const NoWords: seq<string> := ["нет", "no", "неверно", "неправильно"]

  /** Every stored project awaits confirmation and has a name and at least one section. */
  predicate ContextValid(context: map<int, PendingProject>) {
    forall id :: id in context ==>
      && context[id].awaitingConfirmation
      && context[id].projectName != []
      && context[id].sections != []
  }

  /** A reply that `parse_command` accepted, read field by field. */
  datatype Command = Command(isCreate: bool, projectName: string, sections: seq<Json>)

  /** The fields of a well-formed parse result. */
  function ToCommand(result: Json): (c: Command)
    requires GptParser.WellFormed(result)
    ensures c.isCreate == (result.fields["is_create_table_command"] == Bool(true))
    ensures Str(c.projectName) == result.fields["project_name"]
    ensures Array(c.sections) == result.fields["sections"]
  {
    Command(result.fields["is_create_table_command"].b, result.fields["project_name"].s, result.fields["sections"].items)
  }

  /** What `parse_command` makes of the message, as `handle_message` sees it. */
  function Parse(message: string, reply: GptParser.Reply): (r: Result<Command, GptParser.Error>)
    ensures r.Ok? <==> GptParser.ParseCommandDeploy(Str(message), reply).Ok?
    ensures r.Err? ==> r == Err(GptParser.ParseCommandDeploy(Str(message), reply).error)
    ensures r.Ok? ==> reply.Decoded? && GptParser.WellFormed(reply.value) && r.value == ToCommand(reply.value)
  {
    match GptParser.ParseCommandDeploy(Str(message), reply)
    case Err(e) => Err(e)
    case Ok(result) => Ok(ToCommand(result))
  }

  /**
   * One call of `handle_message` as a value: the new `user_context` and the answer, for the message
   * `message` from `userId` which `parse_command` turned into `parsed`.
   */
  function Step(context: map<int, PendingProject>, userId: int, message: string,
                parsed: Result<Command, GptParser.Error>): (map<int, PendingProject>, Answer)
  {
    match parsed
    case Err(e) => (context, ParsingFailed(e))
    case Ok(command) =>
      if command.isCreate then
        if command.projectName != [] && command.sections != [] then
          (context[userId := PendingProject(command.projectName, command.sections, true)],
           AskConfirmation(command.projectName, command.sections))
        else
          (context, CannotExtract)
      else if userId in context && context[userId].awaitingConfirmation then
        if Lower(message) in YesWords then
          (context - {userId}, Created(context[userId].projectName, context[userId].sections))
        else if Lower(message) in NoWords then
          (context - {userId}, TryAgain)
        else
          (context, NoAnswer)
      else
        (context, NotUnderstood)
  }

  /** The bot's module-level state. */
  class Bot {
    var userContext: map<int, PendingProject>

    constructor ()
      ensures userContext == map[]
    {
      userContext := map[];
    }

    /** `handle_message` for a text message from `userId`; `reply` is the language model's answer. */
    method HandleMessage(userId: int, message: string, reply: GptParser.Reply) returns (answer: Answer)
      modifies this
      ensures (userContext, answer) == Step(old(userContext), userId, message, Parse(message, reply))
    {
      var parsed := Parse(message, reply);
      if parsed.Err? {
        answer := ParsingFailed(parsed.error);
        return;
      }
      var command := parsed.value;
      if command.isCreate {
        if command.projectName != [] && command.sections != [] {
          userContext := userContext[userId := PendingProject(command.projectName, command.sections, true)];
          answer := AskConfirmation(command.projectName, command.sections);
        } else {
          answer := CannotExtract;
        }
      } else if userId in userContext && userContext[userId].awaitingConfirmation {
        var pending := userContext[userId];
        var lowered := Lower(message);
        if lowered in YesWords {
          answer := Created(pending.projectName, pending.sections);
          userContext := userContext - {userId};
        } else if lowered in NoWords {
          answer := TryAgain;
          userContext := userContext - {userId};
        } else {
          answer := NoAnswer;
        }
      } else {
        answer := NotUnderstood;
      }
    }
  }

  /** Only the sender's entry is ever written or deleted. */
  lemma OnlySenderChanges(context: map<int, PendingProject>, userId: int, message: string,
                          parsed: Result<Command, GptParser.Error>)
    ensures var next := Step(context, userId, message, parsed).0;
      forall id :: id != userId ==> (id in next <==> id in context) && (id in next ==> next[id] == context[id])
  {
  }

  /** Every step keeps the stored projects complete and awaiting confirmation. */
  lemma StepKeepsContextValid(context: map<int, PendingProject>, userId: int, message: string,
                              parsed: Result<Command, GptParser.Error>)
    requires ContextValid(context)
    ensures ContextValid(Step(context, userId, message, parsed).0)
  {
  }

  /** A parsing error leaves the context untouched. */
  lemma ParsingErrorKeepsContext(context: map<int, PendingProject>, userId: int, message: string, reply: GptParser.Reply)
    requires GptParser.ParseCommandDeploy(Str(message), reply).Err?
    ensures Step(context, userId, message, Parse(message, reply)).0 == context
    ensures Step(context, userId, message, Parse(message, reply)).1
         == ParsingFailed(GptParser.ParseCommandDeploy(Str(message), reply).error)
  {
  }

  /** A create command is handled before any pending confirmation: its outcome does not depend on
    * what was stored for the user, and a complete one replaces the stored entry. */
  lemma CreateCommandComesFirst(context1: map<int, PendingProject>, context2: map<int, PendingProject>,
                                userId: int, message: string, command: Command)
    requires command.isCreate
    ensures Step(context1, userId, message, Ok(command)).1 == Step(context2, userId, message, Ok(command)).1
    ensures if command.projectName != [] && command.sections != [] then
        Step(context1, userId, message, Ok(command)).0
          == context1[userId := PendingProject(command.projectName, command.sections, true)]
      else
        Step(context1, userId, message, Ok(command)).0 == context1
  {
  }

  /** With a confirmation pending and a message that is not a create command: yes confirms the stored
    * project, no drops it, and anything else keeps it and sends nothing. */
  lemma PendingAnswers(context: map<int, PendingProject>, userId: int, message: string, command: Command)
    requires userId in context && context[userId].awaitingConfirmation
    requires !command.isCreate
    ensures var (next, answer) := Step(context, userId, message, Ok(command));
      && (Lower(message) in YesWords ==>
            next == context - {userId} && answer == Created(context[userId].projectName, context[userId].sections))
      && (Lower(message) in NoWords ==> next == context - {userId} && answer == TryAgain)
      && (Lower(message) !in YesWords && Lower(message) !in NoWords ==> next == context && answer == NoAnswer)
  {
  }

  /** Without a pending confirmation, a message that is not a create command is not understood and
    * changes nothing. */
  lemma NothingPending(context: map<int, PendingProject>, userId: int, message: string, command: Command)
    requires userId !in context
    requires !command.isCreate
    ensures Step(context, userId, message, Ok(command)) == (context, NotUnderstood)
  {
  }

  /** Storing a project and then answering yes reports exactly that project and forgets it. */
  lemma StoreThenConfirm(context: map<int, PendingProject>, userId: int,
                         command: string, create: Command, yes: string, answer: Command)
    requires Step(context, userId, command, Ok(create)).1.AskConfirmation?
    requires !answer.isCreate
    requires Lower(yes) in YesWords
    ensures var (stored, asked) := Step(context, userId, command, Ok(create));
      var (final, confirmed) := Step(stored, userId, yes, Ok(answer));
      && confirmed == Created(create.projectName, create.sections)
      && final == context - {userId}
  {
    var (stored, asked) := Step(context, userId, command, Ok(create));
    assert stored == context[userId := PendingProject(create.projectName, create.sections, true)];
    PendingAnswers(stored, userId, yes, answer);
    assert stored - {userId} == context - {userId};
  }
}
