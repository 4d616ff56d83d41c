/** The conversation-history store, the keyword fallback responder and the
    network-free demo branch of `chatWithAI`.

    Message ids (`crypto.randomUUID()`), the clock and `Math.random()` are
    inputs. The request to the chat-completion service is not modelled: on a
    real API key `ChatWithAI` stops where that request would begin. */
module Conversation {
  import opened Common
  import opened Strings
  import opened UserStore
  import opened Analysis

  datatype Role = SystemRole | UserRole | AssistantRole

  datatype Rating = Positive | Negative

  /** A chat message. `feedback` is absent (None), explicitly null
      (Some(None)), or a rating. */
  datatype ChatMessage = ChatMessage(role: Role, content: string, id: Option<string>, feedback: Option<Option<Rating>>)

  /** A message as callers build it: no id, no feedback. */
  function NewMessage(role: Role, content: string): ChatMessage {
    ChatMessage(role, content, None, None)
  }

  /** The history after `updateMessageFeedback(index, feedback)`: inside the
      bounds only the feedback of entry `index` changes, outside them nothing
      does. */
  function WithFeedback(history: seq<ChatMessage>, index: int, feedback: Option<Rating>): (r: seq<ChatMessage>)
    ensures |r| == |history|
    ensures forall k :: 0 <= k < |history| ==>
      r[k].role == history[k].role && r[k].content == history[k].content && r[k].id == history[k].id
    ensures forall k :: 0 <= k < |history| && k != index ==> r[k] == history[k]
    ensures 0 <= index < |history| ==> r[index].feedback == Some(feedback)
    ensures !(0 <= index < |history|) ==> r == history
  {
    if 0 <= index && index < |history| then history[index := history[index].(feedback := Some(feedback))]
    else history
  }

  /** The default of `getRecentMessages`' count. */
  const DefaultRecentCount: int := 10

  /** `history.slice(-count)`. For a positive count it is the last
      min(count, |history|) messages in order; for 0 it is, by `slice(-0)`,
      the whole history; a negative count drops the first -count messages. */
  function Recent(history: seq<ChatMessage>, count: int): (r: seq<ChatMessage>)
    ensures |r| <= |history|
    ensures count >= 1 ==> |r| == (if count <= |history| then count else |history|)
    ensures count >= 0 ==> r == history[|history| - |r|..]
    ensures count == 0 ==> r == history
    ensures count < 0 ==> r == history[(if -count <= |history| then -count else |history|)..]
  {
    SliceFromNegative(history, if count >= 0 then count else 0);
    SliceFrom(history, -count)
  }

  class ConversationStore {
    var history: seq<ChatMessage>

    /** The store starts with an empty history. */
    constructor ()
      ensures history == []
    {
      history := [];
    }

    /** `addMessage(message)`: appends the message with a fresh id `freshId`. */
    method AddMessage(message: ChatMessage, freshId: string)
      modifies this`history
      ensures history == old(history) + [message.(id := Some(freshId))]
    {
      history := history + [message.(id := Some(freshId))];
    }

    /** `updateMessageFeedback(index, feedback)`: copies the history and
        writes the entry when the index is in bounds. */
    method UpdateMessageFeedback(index: int, feedback: Option<Rating>)
      modifies this`history
      ensures history == WithFeedback(old(history), index, feedback)
    {
      var newHistory := history;
      if index >= 0 && index < |newHistory| {
        newHistory := newHistory[index := newHistory[index].(feedback := Some(feedback))];
      }
      history := newHistory;
    }

    /** `clearHistory()`. */
    method ClearHistory()
      modifies this`history
      ensures history == []
    {
      history := [];
    }

    /** `getRecentMessages(count = 10)`; None stands for an omitted count. */
    function GetRecentMessages(count: Option<int>): (r: seq<ChatMessage>)
      reads this
      ensures count.None? ==> |r| == (if |history| < 10 then |history| else 10)
      ensures count.None? ==> r == history[|history| - |r|..]
    {
      Recent(history, match count case None => DefaultRecentCount case Some(n) => n)
    }
  }

  // ---------------------------------------------------------------------
  // getFallbackResponse

  const DemoReplies: seq<string> := [
    "Merhaba! Size nasıl yardımcı olabilirim?",
    "Bu konuda daha fazla bilgi verebilir misiniz?",
    "İlginç bir bakış açısı. Bunu daha önce düşünmemiştim.",
    "Tabii, bunu araştıralım beraber.",
    "Sorunuzu anlıyorum. Size yardımcı olmaktan memnuniyet duyarım.",
    "Bu konuda uzman değilim ama elimden geleni yapacağım.",
    "İlgi alanlarınız gerçekten çok ilginç!",
    "Daha önce bunun hakkında konuşmuştuk, hatırlıyor musunuz?",
    "Bu konu hakkında bir makale okumuştum, çok enteresan bulgular vardı.",
    "Belki de bu duruma farklı bir açıdan bakmalıyız.",
    "Evet, kesinlikle katılıyorum. Çok iyi bir nokta.",
    "Hayır, bence burada bir yanlış anlaşılma var."
  ]

  const HowAreYouReply: string := "Ben iyiyim, teşekkür ederim! Seninle konuşmak güzel."
  const ThanksReply: string := "Rica ederim! Başka bir konuda yardıma ihtiyacın olursa buradayım."
  const QuestionReply: string := "İlginç bir soru. Bunu biraz düşünmem gerekiyor."

  /** The greeting, naming the user or "dostum". */
  function GreetingReply(userName: string): string {
    "Merhaba " + OrElse(userName, "dostum") + "! Nasılsın bugün?"
  }

  /** `getFallbackResponse(userMessage, userName)` with the draw `rand`. */
  function FallbackResponse(userMessage: string, userName: string, lower: CaseMap, rand: real): (r: string)
    requires 0.0 <= rand < 1.0
    ensures r == GreetingReply(userName) || r == HowAreYouReply || r == ThanksReply
            || r == QuestionReply || r in DemoReplies
  {
    var m := lower(userMessage);
    if Contains(m, "merhaba") || Contains(m, "selam") then GreetingReply(userName)
    else if Contains(m, "nasılsın") then HowAreYouReply
    else if Contains(m, "teşekkür") then ThanksReply
    else if Contains(userMessage, "?") then QuestionReply
    else Pick(DemoReplies, rand)
  }

  /** The keyword rules of the fallback responder, in priority order. */
  datatype FallbackRule = GreetRule | HowAreYouRule | ThanksRule | QuestionRule

  const FallbackRules: seq<FallbackRule> := [GreetRule, HowAreYouRule, ThanksRule, QuestionRule]

  /** When a rule applies: the first three look at the lowercased message,
      the question rule at the message as typed. */
  predicate RuleFires(rule: FallbackRule, userMessage: string, lower: CaseMap) {
    match rule
    case GreetRule => Contains(lower(userMessage), "merhaba") || Contains(lower(userMessage), "selam")
    case HowAreYouRule => Contains(lower(userMessage), "nasılsın")
    case ThanksRule => Contains(lower(userMessage), "teşekkür")
    case QuestionRule => Contains(userMessage, "?")
  }

  function RuleReply(rule: FallbackRule, userName: string): string {
    match rule
    case GreetRule => GreetingReply(userName)
    case HowAreYouRule => HowAreYouReply
    case ThanksRule => ThanksReply
    case QuestionRule => QuestionReply
  }

  /** The responder answers with the reply of the first rule, in priority
      order, that fires; when none fires, with one of the demo replies. */
  lemma FallbackFirstMatch(userMessage: string, userName: string, lower: CaseMap, rand: real)
    requires 0.0 <= rand < 1.0
    ensures var hit := FirstMatch(FallbackRules, rule => RuleFires(rule, userMessage, lower));
      && (hit.Some? ==> FallbackResponse(userMessage, userName, lower, rand) == RuleReply(FallbackRules[hit.value], userName))
      && (hit.None? ==> FallbackResponse(userMessage, userName, lower, rand) in DemoReplies)
  {
    var fires := rule => RuleFires(rule, userMessage, lower);
    var hit := FirstMatch(FallbackRules, fires);
    if hit.Some? {
      var i := hit.value;
      assert fires(FallbackRules[i]);
      assert forall k :: 0 <= k < i ==> !fires(FallbackRules[k]);
      if i == 0 {
      } else if i == 1 {
        assert !fires(FallbackRules[0]);
      } else if i == 2 {
        assert !fires(FallbackRules[0]) && !fires(FallbackRules[1]);
      } else {
        assert !fires(FallbackRules[0]) && !fires(FallbackRules[1]) && !fires(FallbackRules[2]);
      }
    } else {
      assert !fires(FallbackRules[0]) && !fires(FallbackRules[1]);
      assert !fires(FallbackRules[2]) && !fires(FallbackRules[3]);
    }
  }

  /** A greeting word wins over every other rule, and the greeting names the
      user or, without a name, "dostum". */
  lemma FallbackGreetingWins(userMessage: string, userName: string, lower: CaseMap, rand: real)
    requires 0.0 <= rand < 1.0
    requires Contains(lower(userMessage), "merhaba") || Contains(lower(userMessage), "selam")
    ensures FallbackResponse(userMessage, userName, lower, rand) == GreetingReply(userName)
    ensures Contains(GreetingReply(userName), if userName == "" then "dostum" else userName)
  {
    ContainsMiddle("Merhaba ", OrElse(userName, "dostum"), "! Nasılsın bugün?");
  }

  // ---------------------------------------------------------------------
  // chatWithAI, demo branch

  /** `!apiKey || apiKey.trim() === "" || apiKey === "demo"`. */
  predicate IsDemoKey(apiKey: string) {
    apiKey == "" || Trim(apiKey) == "" || apiKey == "demo"
  }

  /** The demo branch is taken exactly for a blank key (only white space, or
      nothing) and for "demo". */
  lemma IsDemoKeyIff(apiKey: string)
    ensures IsDemoKey(apiKey) <==> AllWhite(apiKey) || apiKey == "demo"
  {
    TrimEmptyIffAllWhite(apiKey);
  }

  /** What `chatWithAI` resolves to in the model: the demo reply, or the
      point where the network request would start. */
  datatype ChatOutcome = Replied(reply: string) | NetworkRequest

  /** The steps of `chatWithAI` that every key goes through: analyse the
      message into the user store, append the user message, and count the
      conversation. */
  method RecordUserTurn(users: UserStore, conversation: ConversationStore, userMessage: string,
                        lower: CaseMap, likeCaptures: seq<seq<string>>, dislikeCaptures: seq<seq<string>>,
                        nameMatches: seq<string>, now: Timestamp, userMessageId: string)
    modifies users`userMemory, users`conversationCount, conversation`history
    ensures users.userMemory
            == ApplyCalls(old(users.userMemory), old(users.conversationCount), now,
                          AnalysisCalls(userMessage, lower, likeCaptures, dislikeCaptures, nameMatches))
    ensures users.conversationCount == old(users.conversationCount) + 1
    ensures conversation.history == old(conversation.history) + [ChatMessage(UserRole, userMessage, Some(userMessageId), None)]
  {
    AnalyzeUserMessage(users, userMessage, lower, likeCaptures, dislikeCaptures, nameMatches, now);
    conversation.AddMessage(NewMessage(UserRole, userMessage), userMessageId);
    users.UpdateConversationCount();
  }

  /** `chatWithAI(userMessage, apiKey)` up to the network request: the user
      turn is recorded, and with a demo key the fallback reply is appended and
      returned. The regex matches, the two fresh ids, the clock and the random
      draw are inputs. */
  method ChatWithAI(users: UserStore, conversation: ConversationStore, userMessage: string, apiKey: string,
                    lower: CaseMap, likeCaptures: seq<seq<string>>, dislikeCaptures: seq<seq<string>>,
                    nameMatches: seq<string>, now: Timestamp, userMessageId: string, replyId: string,
                    rand: real)
    returns (outcome: ChatOutcome)
    requires 0.0 <= rand < 1.0
    modifies users`userMemory, users`conversationCount, conversation`history
    ensures users.userMemory
            == ApplyCalls(old(users.userMemory), old(users.conversationCount), now,
                          AnalysisCalls(userMessage, lower, likeCaptures, dislikeCaptures, nameMatches))
    ensures users.conversationCount == old(users.conversationCount) + 1
    ensures IsDemoKey(apiKey) ==>
      var reply := FallbackResponse(userMessage, users.name, lower, rand);
      && outcome == Replied(reply)
      && conversation.history == old(conversation.history)
           + [ChatMessage(UserRole, userMessage, Some(userMessageId), None),
              ChatMessage(AssistantRole, reply, Some(replyId), None)]
    ensures !IsDemoKey(apiKey) ==>
      && outcome == NetworkRequest
      && conversation.history == old(conversation.history) + [ChatMessage(UserRole, userMessage, Some(userMessageId), None)]
  {
    RecordUserTurn(users, conversation, userMessage, lower, likeCaptures, dislikeCaptures, nameMatches, now, userMessageId);
    if IsDemoKey(apiKey) {
      var fallbackResponse := FallbackResponse(userMessage, users.name, lower, rand);
      conversation.AddMessage(NewMessage(AssistantRole, fallbackResponse), replyId);
      return Replied(fallbackResponse);
    }
    outcome := NetworkRequest;
  }
}
