/**
 * `CommandProcessor._determine_intent` in both copies of the bot: an ordered
 * keyword search over the lower-cased message that answers "create_table",
 * "help" or "chat".
 */
module Intent {
  import opened Wrappers
  import opened Text

  datatype Intent = CreateTable | Help | Chat

  const CreateKeywords: seq<string> := [
    "создай таблицу", "сделай таблицу", "новая таблица",
    "создать таблицу", "сделать таблицу", "создай лист", "сделай лист"
  ]

  /** The deploy copy checks these after `CreateKeywords`, in this order. */
  const MoreCreateKeywords: seq<string> := [
    "подготовь таблицу", "подготовить таблицу", "сформируй таблицу",
    "организуй таблицу", "составь таблицу", "составить таблицу",
    "таблицу к проекту", "таблицу для проекта", "проект с разделами",
    "добавь таблицу", "добавить таблицу"
  ]

  const ExtendedCreateKeywords: seq<string> := CreateKeywords + MoreCreateKeywords

  const HelpKeywords: seq<string> := [
    "помощь", "справка", "как использовать", "что ты умеешь",
    "как работает", "команды", "инструкция"
  ]

  const QuestionMarkers: seq<string> := ["что такое", "что ты знаешь", "расскажи о", "что значит"]

  /** Some keyword of the list occurs in the text. */
  predicate AnyFound(keywords: seq<string>, text: string) {
    exists k :: 0 <= k < |keywords| && Contains(text, keywords[k])
  }

  /**
   * The loop `for keyword in keywords: if keyword in text: return ...`: the
   * index of the first keyword that occurs, if any.
   */
  function FirstFound(keywords: seq<string>, text: string): (r: Option<nat>)
    ensures r.Some? ==> r.value < |keywords| && Contains(text, keywords[r.value])
    ensures r.Some? ==> forall j :: 0 <= j < r.value ==> !Contains(text, keywords[j])
    ensures r.None? <==> !AnyFound(keywords, text)
  {
    if keywords == [] then None
    else if Contains(text, keywords[0]) then Some(0)
    else
      match FirstFound(keywords[1..], text)
      case None =>
        assert forall k :: 1 <= k < |keywords| ==> keywords[k] == keywords[1..][k - 1];
        None
      case Some(i) => Some(i + 1)
  }

  /** `_determine_intent` of the bot/ copy. */
  function DetermineIntentBot(message: string): (r: Intent)
    ensures r == CreateTable <==> AnyFound(CreateKeywords, Lower(message))
    ensures r == Help <==> !AnyFound(CreateKeywords, Lower(message)) && AnyFound(HelpKeywords, Lower(message))
  {
    var text := Lower(message);
    if FirstFound(CreateKeywords, text).Some? then CreateTable
    else if FirstFound(HelpKeywords, text).Some? then Help
    else Chat
  }

  /** The three extra create rules of the deploy copy, tried in this order. */
  predicate TableAndSections(text: string) {
    Contains(text, "таблиц") && (Contains(text, "раздел") || Contains(text, "секци"))
  }

  predicate ProjectAndSections(text: string) {
    Contains(text, "проект") && (Contains(text, "раздел") || Contains(text, "секци"))
  }

  predicate MisspeltProjectAndSections(text: string) {
    (Contains(text, "прект") || Contains(text, "праект")) && Contains(text, "раздел")
  }

  /** A question about projects or tables, which the deploy copy answers in chat. */
  predicate QuestionAboutProject(text: string) {
    FirstFound(QuestionMarkers, text).Some? && (Contains(text, "проект") || Contains(text, "таблиц"))
  }

  /** Some create rule of the deploy copy fires. */
  predicate CreateRuleDeploy(text: string) {
    AnyFound(ExtendedCreateKeywords, text) || TableAndSections(text)
    || ProjectAndSections(text) || MisspeltProjectAndSections(text)
  }

  /** `_determine_intent` of the deploy copy. */
  function DetermineIntentDeploy(message: string): (r: Intent)
    ensures r == CreateTable <==> CreateRuleDeploy(Lower(message))
    ensures r == Help <==>
      !CreateRuleDeploy(Lower(message)) && !QuestionAboutProject(Lower(message)) && AnyFound(HelpKeywords, Lower(message))
  {
    var text := Lower(message);
    if FirstFound(ExtendedCreateKeywords, text).Some? then CreateTable
    else if TableAndSections(text) then CreateTable
    else if ProjectAndSections(text) then CreateTable
    else if MisspeltProjectAndSections(text) then CreateTable
    else if QuestionAboutProject(text) then Chat
    else if FirstFound(HelpKeywords, text).Some? then Help
    else Chat
  }

  /** Every create keyword of the bot/ copy is one of the deploy copy. */
  lemma CreateKeywordsExtended(text: string)
    requires AnyFound(CreateKeywords, text)
    ensures AnyFound(ExtendedCreateKeywords, text)
  {
    var k :| 0 <= k < |CreateKeywords| && Contains(text, CreateKeywords[k]);
    assert ExtendedCreateKeywords[k] == CreateKeywords[k];
  }

  /** Whatever the bot/ copy takes for a create command, the deploy copy does too. */
  lemma DeployExtendsBot(message: string)
    requires DetermineIntentBot(message) == CreateTable
    ensures DetermineIntentDeploy(message) == CreateTable
  {
    CreateKeywordsExtended(Lower(message));
  }

  /** A message the bot/ copy answers in chat is never answered with help by the deploy copy. */
  lemma BotChatNeverDeployHelp(message: string)
    requires DetermineIntentBot(message) == Chat
    ensures DetermineIntentDeploy(message) != Help
  {
  }

  /** Classification ignores case: a message and its lower-cased form get the same intent. */
  lemma CaseInsensitive(message: string)
    ensures DetermineIntentBot(Lower(message)) == DetermineIntentBot(message)
    ensures DetermineIntentDeploy(Lower(message)) == DetermineIntentDeploy(message)
  {
    LowerIdempotent(message);
  }

  /** Every substring of the lower-cased message is one of the lower-cased longer message. */
  lemma LowerExtendContains(left: string, message: string, right: string)
    ensures forall w :: Contains(Lower(message), w) ==> Contains(Lower(left + message + right), w)
  {
    var t := Lower(message);
    assert Lower(left + message + right) == Lower(left) + t + Lower(right) by {
      LowerAppend(left, message);
      LowerAppend(left + message, right);
    }
    forall w | Contains(t, w) ensures Contains(Lower(left) + t + Lower(right), w) {
      ContainsExtend(t, w, Lower(left), Lower(right));
    }
  }

  /** Keyword rules only ask for words to be present, so a text with more substrings keeps them. */
  lemma AnyFoundMonotone(keywords: seq<string>, t: string, u: string)
    requires forall w :: Contains(t, w) ==> Contains(u, w)
    ensures AnyFound(keywords, t) ==> AnyFound(keywords, u)
  {
    if AnyFound(keywords, t) {
      var k :| 0 <= k < |keywords| && Contains(t, keywords[k]);
      assert Contains(u, keywords[k]);
    }
  }

  lemma CreateRuleMonotone(t: string, u: string)
    requires forall w :: Contains(t, w) ==> Contains(u, w)
    ensures CreateRuleDeploy(t) ==> CreateRuleDeploy(u)
  {
    AnyFoundMonotone(ExtendedCreateKeywords, t, u);
  }

  /**
   * Create commands stay create commands whatever else the user writes
   * around them.
   */
  lemma CreateMonotone(left: string, message: string, right: string)
    ensures DetermineIntentBot(message) == CreateTable ==> DetermineIntentBot(left + message + right) == CreateTable
    ensures DetermineIntentDeploy(message) == CreateTable ==> DetermineIntentDeploy(left + message + right) == CreateTable
  {
    LowerExtendContains(left, message, right);
    AnyFoundMonotone(CreateKeywords, Lower(message), Lower(left + message + right));
    CreateRuleMonotone(Lower(message), Lower(left + message + right));
  }
}
