/** The offline demo responder: a ladder of keyword tests on the lowercased
    message, tried in a fixed order, with a search through the user's
    comma-separated interests as its second rung. The first rung that
    applies picks the reply; the joke rung and the final rung pick one of a
    fixed list with a random draw, which is an input here. */
module DemoAI {
  import opened Common
  import opened Strings
  import Analysis
  import Conversation

  // ---------------------------------------------------------------------
  // interests

  /** `interests.split(',').map(item => item.trim().toLowerCase())`. */
  function InterestList(interests: string, lower: CaseMap): (r: seq<string>)
    ensures |r| == |Split(interests, ',')|
    ensures forall k :: 0 <= k < |r| ==> r[k] == lower(Trim(Split(interests, ',')[k]))
  {
    var pieces := Split(interests, ',');
    seq(|pieces|, k requires 0 <= k < |pieces| => lower(Trim(pieces[k])))
  }

  /** The position of the first interest, in list order, that occurs in the
      message. */
  function FirstInterest(list: seq<string>, m: string): (r: Option<nat>)
    ensures r.Some? ==> r.value < |list| && Contains(m, list[r.value])
    ensures r.Some? ==> forall k :: 0 <= k < r.value ==> !Contains(m, list[k])
    ensures r.None? <==> forall k :: 0 <= k < |list| ==> !Contains(m, list[k])
  {
    FirstMatch(list, w => Contains(m, w))
  }

  /** `interest.charAt(0).toUpperCase() + interest.slice(1)`; `charAt(0)` of
      the empty string is the empty string. */
  function Capitalize(w: string, upper: CaseMap): (r: string)
    ensures w != "" ==> r == upper(w[..1]) + w[1..]
    ensures w == "" ==> r == upper("")
  {
    upper(w[..if w == "" then 0 else 1]) + SliceFrom(w, 1)
  }

  // ---------------------------------------------------------------------
  // the ladder

  /** The rungs of `getDemoResponse`, each with what its reply needs. */
  datatype Branch =
    | Greeting
    | InterestTalk(interest: string)
    | HowAreYou
    | Thanks
    | Abilities
    | Identity
    | Weather
    | Joke
    | Sad
    | Happy
    | SmallTalk

  const GreetingWords: seq<string> := ["merhaba", "selam", "sa"]
  const HowAreYouWords: seq<string> := ["nasılsın", "naber", "ne haber"]
  const ThanksWords: seq<string> := ["teşekkür", "sağol"]
  const AbilityWords: seq<string> := ["ne yapabilirsin", "neler yapabilirsin", "özellik"]
  const IdentityWords: seq<string> := ["kimsin", "adın ne", "sen nesin"]
  const WeatherQuestionWords: seq<string> := ["nasıl", "durumu"]
  const JokeWords: seq<string> := ["şaka", "fıkra", "espri"]
  const SadWords: seq<string> := ["üzgün", "mutsuz", "kötü hissediyorum"]
  const HappyWords: seq<string> := ["mutlu", "sevinçli", "iyi hissediyorum"]

  /** The rung `getDemoResponse` takes for the lowercased message `m`; a
      chain of `includes` tests joined by `||` is `Mentions` of their words
      (`MentionsTwo`, `MentionsThree`). */
  function SelectBranch(m: string, interests: string, lower: CaseMap): (r: Branch)
    ensures r == Greeting <==> Analysis.Mentions(m, GreetingWords)
    ensures r.InterestTalk? ==>
      interests != "" && r.interest in InterestList(interests, lower) && Contains(m, r.interest)
  {
    if Analysis.Mentions(m, GreetingWords) then Greeting
    else if interests != "" && FirstInterest(InterestList(interests, lower), m).Some? then
      InterestTalk(InterestList(interests, lower)[FirstInterest(InterestList(interests, lower), m).value])
    else KeywordBranch(m)
  }

  /** The rungs after the interest search. */
  function KeywordBranch(m: string): Branch {
    if Analysis.Mentions(m, HowAreYouWords) then HowAreYou
    else if Analysis.Mentions(m, ThanksWords) then Thanks
    else if Analysis.Mentions(m, AbilityWords) then Abilities
    else if Analysis.Mentions(m, IdentityWords) then Identity
    else if Contains(m, "hava") && Analysis.Mentions(m, WeatherQuestionWords) then Weather
    else if Analysis.Mentions(m, JokeWords) then Joke
    else if Analysis.Mentions(m, SadWords) then Sad
    else if Analysis.Mentions(m, HappyWords) then Happy
    else SmallTalk
  }

  const Jokes: seq<string> := [
    "İngilizler çay içer, Japonlar sakura toplar, Türkler: ÇAYKUR RIZESPOR!",
    "Yazın söylediğim şarkılar tutmuyor, çünkü mevsim geçiyor...",
    "Geçen gün bir matematik problemi çözüyordum, birden ayıya çarptım!",
    "Bu öküzü niye aldın? - Bakkala GİTMESİN diye!"
  ]

  /** A reply that addresses the user between two fixed texts. */
  datatype Template = Template(before: string, after: string)

  function Fill(t: Template, n: string): string {
    t.before + n + t.after
  }

  /** A filled template contains the address. */
  lemma FillAddresses(t: Template, n: string)
    ensures Contains(Fill(t, n), n)
  {
    ContainsMiddle(t.before, n, t.after);
  }

  const InterestTail: Template :=
    Template(" hakkında konuşmayı ben de çok seviyorum ", "! Bu konuda daha çok sohbet etmek isterim.")
  const HowAreYouTemplate: Template := Template("Ben iyiyim ", ", teşekkür ederim! Sen nasılsın?")
  const ThanksTemplate: Template := Template("Rica ederim ", "! Yardımcı olabildiysem ne mutlu bana.")
  const AbilitiesTemplate: Template :=
    Template("Seninle sohbet edebilir, sorularını yanıtlayabilirim. İlgi alanların hakkında konuşmayı özellikle seviyorum ", ".")
  const IdentityTemplate: Template :=
    Template("Ben AIVA, senin kişisel dijital asistanınım ", ". Seninle sohbet etmek için buradayım!")
  const WeatherTemplate: Template :=
    Template("Üzgünüm ", ", şu anda hava durumu verilerine erişemiyorum. Ama umarım havan güzeldir!")
  const SadTemplate: Template :=
    Template("Bunu duyduğuma üzüldüm ", ". Kendine iyi bakmayı unutma. Belki sevdiğin bir şey yaparak moralini yükseltebilirsin?")
  const HappyTemplate: Template := Template("Bunu duymak harika ", "! Bu güzel duyguyu gün boyu yaşamanı dilerim.")

  /** The closing replies. */
  const SmallTalkTemplates: seq<Template> := [
    Template("Hmm, ilginç bir konu ", ". Daha fazla anlatır mısın?"),
    Template("Seninle sohbet etmek çok keyifli ", "."),
    Template("Bu konuda düşünmem gerek. Sen ne düşünüyorsun ", "?"),
    Template("Anladım ", ". Başka nelerden bahsetmek istersin?"),
    Template("Bunu bilmiyordum. Teşekkür ederim paylaştığın için ", ".")
  ]

  /** The closing replies, addressing `n`. */
  function SmallTalkReplies(n: string): (r: seq<string>)
    ensures |r| == |SmallTalkTemplates| == 5
    ensures forall k :: 0 <= k < |r| ==> Contains(r[k], n)
  {
    var r := seq(|SmallTalkTemplates|, k requires 0 <= k < |SmallTalkTemplates| => Fill(SmallTalkTemplates[k], n));
    forall k | 0 <= k < |r| ensures Contains(r[k], n) {
      FillAddresses(SmallTalkTemplates[k], n);
    }
    r
  }

  /** The reply of a rung, addressing `name || 'dostum'`. */
  function BranchReply(b: Branch, name: string, upper: CaseMap, rand: real): (r: string)
    requires 0.0 <= rand < 1.0
    ensures b.Joke? ==> r in Jokes
    ensures b.SmallTalk? ==> r in SmallTalkReplies(OrElse(name, "dostum"))
  {
    var n := OrElse(name, "dostum");
    match b
    case Greeting => Conversation.GreetingReply(name)
    case InterestTalk(w) => Capitalize(w, upper) + Fill(InterestTail, n)
    case HowAreYou => Fill(HowAreYouTemplate, n)
    case Thanks => Fill(ThanksTemplate, n)
    case Abilities => Fill(AbilitiesTemplate, n)
    case Identity => Fill(IdentityTemplate, n)
    case Weather => Fill(WeatherTemplate, n)
    case Joke => Pick(Jokes, rand)
    case Sad => Fill(SadTemplate, n)
    case Happy => Fill(HappyTemplate, n)
    case SmallTalk => Pick(SmallTalkReplies(n), rand)
  }

  /** `getDemoResponse(userMessage)` for the stored `name` and `interests`:
      a joke when the joke rung is taken, and otherwise a reply addressing
      the user by name, or as "dostum". */
  function DemoResponse(userMessage: string, name: string, interests: string,
                        lower: CaseMap, upper: CaseMap, rand: real): (r: string)
    requires 0.0 <= rand < 1.0
    ensures SelectBranch(lower(userMessage), interests, lower).Joke? ==> r in Jokes
    ensures !SelectBranch(lower(userMessage), interests, lower).Joke? ==> Contains(r, OrElse(name, "dostum"))
  {
    var b := SelectBranch(lower(userMessage), interests, lower);
    if b.Joke? then BranchReply(b, name, upper, rand)
    else RepliesAddressUser(b, name, upper, rand); BranchReply(b, name, upper, rand)
  }

  /** `getDemoResponse`, with its early returns. */
  method GetDemoResponse(userMessage: string, name: string, interests: string,
                         lower: CaseMap, upper: CaseMap, rand: real)
    returns (reply: string)
    requires 0.0 <= rand < 1.0
    ensures reply == DemoResponse(userMessage, name, interests, lower, upper, rand)
  {
    var m := lower(userMessage);
    if Analysis.Mentions(m, GreetingWords) {
      ReplyOfBranch(userMessage, name, interests, lower, upper, rand, Greeting);
      return BranchReply(Greeting, name, upper, rand);
    }
    if interests != "" {
      var interestList := InterestList(interests, lower);
      var found := FindInterest(interestList, m);
      if found.Some? {
        ReplyOfBranch(userMessage, name, interests, lower, upper, rand, InterestTalk(interestList[found.value]));
        return BranchReply(InterestTalk(interestList[found.value]), name, upper, rand);
      }
    }
    ReplyOfBranch(userMessage, name, interests, lower, upper, rand, KeywordBranch(m));
    reply := BranchReply(KeywordBranch(m), name, upper, rand);
  }

  /** The `for ... of` walk of `getDemoResponse` over the interest list,
      stopping at the first interest the message contains. */
  method FindInterest(list: seq<string>, m: string) returns (found: Option<nat>)
    ensures found == FirstInterest(list, m)
  {
    for i := 0 to |list|
      invariant forall k :: 0 <= k < i ==> !Contains(m, list[k])
    {
      if Contains(m, list[i]) {
        return Some(i);
      }
    }
    return None;
  }

  /** The demo reply is the reply of the rung the ladder takes. */
  lemma ReplyOfBranch(userMessage: string, name: string, interests: string,
                      lower: CaseMap, upper: CaseMap, rand: real, b: Branch)
    requires 0.0 <= rand < 1.0 && SelectBranch(lower(userMessage), interests, lower) == b
    ensures DemoResponse(userMessage, name, interests, lower, upper, rand) == BranchReply(b, name, upper, rand)
  {
  }

  // ---------------------------------------------------------------------
  // the ladder as a rule table

  /** The rungs as rules, in the order they are tried. */
  datatype Rule =
    | GreetingRule | InterestRule | HowAreYouRule | ThanksRule | AbilitiesRule
    | IdentityRule | WeatherRule | JokeRule | SadRule | HappyRule

  const Rules: seq<Rule> :=
    [GreetingRule, InterestRule, HowAreYouRule, ThanksRule, AbilitiesRule,
     IdentityRule, WeatherRule, JokeRule, SadRule, HappyRule]

  /** When a rule applies to the lowercased message `m`: some word of its
      list occurs in `m`; the interest rule needs a nonempty interest string
      and a listed interest occurring in `m` (`FirstInterest`); the weather rule needs "hava"
      and a question word. */
  predicate Fires(rule: Rule, m: string, interests: string, lower: CaseMap) {
    match rule
    case GreetingRule => Analysis.Mentions(m, GreetingWords)
    case InterestRule => interests != "" && FirstInterest(InterestList(interests, lower), m).Some?
    case HowAreYouRule => Analysis.Mentions(m, HowAreYouWords)
    case ThanksRule => Analysis.Mentions(m, ThanksWords)
    case AbilitiesRule => Analysis.Mentions(m, AbilityWords)
    case IdentityRule => Analysis.Mentions(m, IdentityWords)
    case WeatherRule => Contains(m, "hava") && Analysis.Mentions(m, WeatherQuestionWords)
    case JokeRule => Analysis.Mentions(m, JokeWords)
    case SadRule => Analysis.Mentions(m, SadWords)
    case HappyRule => Analysis.Mentions(m, HappyWords)
  }

  /** The rung a rule leads to. */
  function RuleBranch(rule: Rule, m: string, interests: string, lower: CaseMap): Branch {
    match rule
    case GreetingRule => Greeting
    case InterestRule =>
      var list := InterestList(interests, lower);
      var first := FirstInterest(list, m);
      if first.Some? then InterestTalk(list[first.value]) else SmallTalk
    case HowAreYouRule => HowAreYou
    case ThanksRule => Thanks
    case AbilitiesRule => Abilities
    case IdentityRule => Identity
    case WeatherRule => Weather
    case JokeRule => Joke
    case SadRule => Sad
    case HappyRule => Happy
  }

  /** A chain of two `includes` tests joined by `||`. */
  lemma MentionsTwo(m: string, words: seq<string>)
    requires |words| == 2
    ensures Analysis.Mentions(m, words) <==> Contains(m, words[0]) || Contains(m, words[1])
  {
    if Contains(m, words[0]) { assert words[0] in words; }
    if Contains(m, words[1]) { assert words[1] in words; }
  }

  /** A chain of three `includes` tests joined by `||`. */
  lemma MentionsThree(m: string, words: seq<string>)
    requires |words| == 3
    ensures Analysis.Mentions(m, words) <==> Contains(m, words[0]) || Contains(m, words[1]) || Contains(m, words[2])
  {
    if Contains(m, words[0]) { assert words[0] in words; }
    if Contains(m, words[1]) { assert words[1] in words; }
    if Contains(m, words[2]) { assert words[2] in words; }
  }

  /** When no rule applies, the ladder reaches its closing rung. */
  lemma NoRuleFires(m: string, interests: string, lower: CaseMap)
    requires forall k :: 0 <= k < |Rules| ==> !Fires(Rules[k], m, interests, lower)
    ensures SelectBranch(m, interests, lower) == SmallTalk
  {
    RulesInOrder();
    assert !Fires(GreetingRule, m, interests, lower);
    assert !Fires(InterestRule, m, interests, lower);
    assert !Fires(HowAreYouRule, m, interests, lower);
    assert !Fires(ThanksRule, m, interests, lower);
    assert !Fires(AbilitiesRule, m, interests, lower);
    assert !Fires(IdentityRule, m, interests, lower);
    assert !Fires(WeatherRule, m, interests, lower);
    assert !Fires(JokeRule, m, interests, lower);
    assert !Fires(SadRule, m, interests, lower);
    assert !Fires(HappyRule, m, interests, lower);
  }

  /** The ladder is a first match over the rule table: when rule `i` is the
      first that applies, the ladder takes its rung. */
  lemma FirstFiringRule(m: string, interests: string, lower: CaseMap, i: nat)
    requires i < |Rules| && Fires(Rules[i], m, interests, lower)
    requires forall k :: 0 <= k < i ==> !Fires(Rules[k], m, interests, lower)
    ensures SelectBranch(m, interests, lower) == RuleBranch(Rules[i], m, interests, lower)
  {
    RulesInOrder();
    if i > 0 { assert !Fires(GreetingRule, m, interests, lower); }
    if i > 1 { assert !Fires(InterestRule, m, interests, lower); }
    if i > 2 { assert !Fires(HowAreYouRule, m, interests, lower); }
    if i > 3 { assert !Fires(ThanksRule, m, interests, lower); }
    if i > 4 { assert !Fires(AbilitiesRule, m, interests, lower); }
    if i > 5 { assert !Fires(IdentityRule, m, interests, lower); }
    if i > 6 { assert !Fires(WeatherRule, m, interests, lower); }
    if i > 7 { assert !Fires(JokeRule, m, interests, lower); }
    if i > 8 { assert !Fires(SadRule, m, interests, lower); }
  }

  /** The rule table, position by position. */
  lemma RulesInOrder()
    ensures |Rules| == 10
    ensures Rules[0] == GreetingRule
    ensures Rules[1] == InterestRule
    ensures Rules[2] == HowAreYouRule
    ensures Rules[3] == ThanksRule
    ensures Rules[4] == AbilitiesRule
    ensures Rules[5] == IdentityRule
    ensures Rules[6] == WeatherRule
    ensures Rules[7] == JokeRule
    ensures Rules[8] == SadRule
    ensures Rules[9] == HappyRule
  {
  }

  // ---------------------------------------------------------------------
  // properties

  /** Any greeting word wins, whatever else the message holds. */
  lemma GreetingWins(userMessage: string, name: string, interests: string,
                     lower: CaseMap, upper: CaseMap, rand: real)
    requires 0.0 <= rand < 1.0
    requires var m := lower(userMessage); Contains(m, "merhaba") || Contains(m, "selam") || Contains(m, "sa")
    ensures DemoResponse(userMessage, name, interests, lower, upper, rand) == Conversation.GreetingReply(name)
  {
    MentionsThree(lower(userMessage), GreetingWords);
  }

  /** "sağol" contains "sa", so a thank-you written that way is greeted:
      only "teşekkür" reaches the thanks rung. */
  lemma SagolIsGreeted(m: string, interests: string, lower: CaseMap)
    requires Contains(m, "sağol")
    ensures SelectBranch(m, interests, lower) == Greeting
  {
    assert OccursAt("sağol", "sa", 0);
    ContainsTransitive(m, "sağol", "sa");
    assert GreetingWords[2] == "sa";
  }

  /** The interest rung names the first interest, in list order, that the
      message contains; it is taken exactly when no greeting word occurs,
      the interest string is nonempty and some listed interest occurs. */
  lemma InterestRung(m: string, interests: string, lower: CaseMap)
    ensures SelectBranch(m, interests, lower).InterestTalk? <==>
      && !(Contains(m, "merhaba") || Contains(m, "selam") || Contains(m, "sa"))
      && interests != ""
      && exists k | 0 <= k < |InterestList(interests, lower)| :: Contains(m, InterestList(interests, lower)[k])
    ensures SelectBranch(m, interests, lower).InterestTalk? ==>
      exists i | 0 <= i < |InterestList(interests, lower)| ::
        && SelectBranch(m, interests, lower).interest == InterestList(interests, lower)[i]
        && Contains(m, InterestList(interests, lower)[i])
        && forall k :: 0 <= k < i ==> !Contains(m, InterestList(interests, lower)[k])
  {
    MentionsThree(m, GreetingWords);
    var list := InterestList(interests, lower);
    var first := FirstInterest(list, m);
    if SelectBranch(m, interests, lower).InterestTalk? {
      var i := first.value;
      assert SelectBranch(m, interests, lower).interest == list[i];
    }
  }

  /** An interest piece that is empty once trimmed and lowercased occurs in
      every message, so with no greeting word the interest rung is taken. */
  lemma EmptyInterestMatchesAll(m: string, interests: string, lower: CaseMap)
    requires !(Contains(m, "merhaba") || Contains(m, "selam") || Contains(m, "sa"))
    requires interests != "" && "" in InterestList(interests, lower)
    ensures SelectBranch(m, interests, lower).InterestTalk?
  {
    var list := InterestList(interests, lower);
    var k :| 0 <= k < |list| && list[k] == "";
    ContainsEmpty(m);
    InterestRung(m, interests, lower);
  }

  /** The weather rung needs "hava" together with "nasıl" or "durumu". */
  lemma WeatherNeedsBoth(m: string, interests: string, lower: CaseMap)
    ensures SelectBranch(m, interests, lower) == Weather ==>
      Contains(m, "hava") && (Contains(m, "nasıl") || Contains(m, "durumu"))
    ensures !Contains(m, "hava") ==> SelectBranch(m, interests, lower) != Weather
  {
    KeywordWeather(m);
    assert SelectBranch(m, interests, lower) == Weather ==> KeywordBranch(m) == Weather;
  }

  /** The weather rung among the keyword rungs. */
  lemma KeywordWeather(m: string)
    ensures KeywordBranch(m) == Weather ==>
      Contains(m, "hava") && (Contains(m, "nasıl") || Contains(m, "durumu"))
  {
    MentionsTwo(m, WeatherQuestionWords);
  }

  /** The interest reply opens with the interest, first character
      uppercased. */
  lemma InterestReplyOpens(w: string, name: string, upper: CaseMap, rand: real)
    requires 0.0 <= rand < 1.0
    ensures var r := BranchReply(InterestTalk(w), name, upper, rand);
      |Capitalize(w, upper)| <= |r| && r[..|Capitalize(w, upper)|] == Capitalize(w, upper)
  {
  }

  /** Every reply except a joke addresses the user by name, or as "dostum"
      when the name is empty. */
  lemma RepliesAddressUser(b: Branch, name: string, upper: CaseMap, rand: real)
    requires 0.0 <= rand < 1.0 && !b.Joke?
    ensures Contains(BranchReply(b, name, upper, rand), OrElse(name, "dostum"))
  {
    var n := OrElse(name, "dostum");
    match b
    case Greeting => ContainsMiddle("Merhaba ", n, "! Nasılsın bugün?");
    case InterestTalk(w) => InterestReplyAddresses(w, n, upper);
    case HowAreYou => FillAddresses(HowAreYouTemplate, n);
    case Thanks => FillAddresses(ThanksTemplate, n);
    case Abilities => FillAddresses(AbilitiesTemplate, n);
    case Identity => FillAddresses(IdentityTemplate, n);
    case Weather => FillAddresses(WeatherTemplate, n);
    case Sad => FillAddresses(SadTemplate, n);
    case Happy => FillAddresses(HappyTemplate, n);
    case SmallTalk =>
  }

  /** The interest reply contains the address after the interest. */
  lemma InterestReplyAddresses(w: string, n: string, upper: CaseMap)
    ensures Contains(Capitalize(w, upper) + Fill(InterestTail, n), n)
  {
    PrefixedFillAddresses(Capitalize(w, upper), InterestTail, n);
  }

  /** A filled template after any prefix still contains the address. */
  lemma PrefixedFillAddresses(c: string, t: Template, n: string)
    ensures Contains(c + Fill(t, n), n)
  {
    assert c + Fill(t, n) == (c + t.before) + n + t.after;
    ContainsMiddle(c + t.before, n, t.after);
  }
}
