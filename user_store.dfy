/** The persisted user-memory store: the user's profile, a conversation
    counter, and a memory record of topic counts, recent interaction
    timestamps, liked and disliked things, mentioned names, the running
    conversation style and free-form preferences.

    Each action of the store replaces fields of the state; here that is a
    class whose methods assign exactly the fields the action replaces. What
    an action does to the memory record is a function on `UserMemory`. */
module UserStore {
  import opened Common
  import opened Strings

  /** An ISO-8601 timestamp (`new Date().toISOString()`); supplied by the caller. */
  type Timestamp = string

  /** One entry of the `topics` record. */
  datatype TopicCount = TopicCount(topic: string, count: int)

  /** The topic names of a `topics` record, in insertion order. */
  function TopicNames(ts: seq<TopicCount>): (r: seq<string>)
    ensures |r| == |ts| && forall k :: 0 <= k < |ts| ==> r[k] == ts[k].topic
  {
    if ts == [] then [] else [ts[0].topic] + TopicNames(ts[1..])
  }

  /** An object's keys are distinct. */
  predicate DistinctTopics(ts: seq<TopicCount>) {
    forall i, j :: 0 <= i < j < |ts| ==> ts[i].topic != ts[j].topic
  }

  /** A `Record<string, number>` of topic counts, kept as its entries in
      insertion order (the order `Object.entries` reports for these keys). */
  type TopicTable = ts: seq<TopicCount> | DistinctTopics(ts) witness []

  /** `topics[t]`, or None when the key is absent. */
  function Lookup(ts: seq<TopicCount>, t: string): Option<int> {
    if ts == [] then None
    else if ts[0].topic == t then Some(ts[0].count)
    else Lookup(ts[1..], t)
  }

  /** A key is found exactly when it is one of the record's names, and what
      is found is that key's entry. */
  lemma {:induction false} LookupSpec(ts: seq<TopicCount>, t: string)
    ensures Lookup(ts, t).None? <==> t !in TopicNames(ts)
    ensures Lookup(ts, t).Some? ==> TopicCount(t, Lookup(ts, t).value) in ts
  {
    if ts != [] {
      LookupSpec(ts[1..], t);
      assert TopicNames(ts) == [ts[0].topic] + TopicNames(ts[1..]);
    }
  }

  /** `topics[t] || 0` (a stored 0 and an absent key both give 0). */
  function CountOf(ts: seq<TopicCount>, t: string): int {
    match Lookup(ts, t)
    case None => 0
    case Some(n) => n
  }

  /** Looking up in a record with one more entry in front. */
  lemma LookupCons(x: TopicCount, rest: seq<TopicCount>, u: string)
    ensures Lookup([x] + rest, u) == if x.topic == u then Some(x.count) else Lookup(rest, u)
  {
    assert ([x] + rest)[1..] == rest;
  }

  /** Names of a record with one more entry in front. */
  lemma TopicNamesCons(x: TopicCount, rest: seq<TopicCount>)
    ensures TopicNames([x] + rest) == [x.topic] + TopicNames(rest)
  {
    assert ([x] + rest)[1..] == rest;
  }

  /** A new key in front of a record with distinct keys keeps them distinct. */
  lemma ConsDistinct(x: TopicCount, rest: seq<TopicCount>)
    requires DistinctTopics(rest) && x.topic !in TopicNames(rest)
    ensures DistinctTopics([x] + rest)
  {
    var r := [x] + rest;
    forall i, j | 0 <= i < j < |r| ensures r[i].topic != r[j].topic {
      if i == 0 { assert r[j].topic == TopicNames(rest)[j - 1]; }
    }
  }

  /** Splitting a record into its first entry and the rest. */
  lemma TopicTableHead(ts: TopicTable)
    requires ts != []
    ensures DistinctTopics(ts[1..]) && ts[0].topic !in TopicNames(ts[1..])
    ensures TopicNames(ts) == [ts[0].topic] + TopicNames(ts[1..])
  {
    TopicNamesCons(ts[0], ts[1..]);
    assert ts == [ts[0]] + ts[1..];
  }

  /** Replacing the first entry by one with the same key. */
  lemma ReplaceHead(ts: TopicTable, y: TopicCount)
    requires ts != [] && y.topic == ts[0].topic
    ensures DistinctTopics([y] + ts[1..]) && TopicNames([y] + ts[1..]) == TopicNames(ts)
  {
    TopicTableHead(ts);
    TopicNamesCons(y, ts[1..]);
    ConsDistinct(y, ts[1..]);
  }

  /** Keeping the first entry, of another key, in front of the bumped rest. */
  lemma KeepHead(ts: TopicTable, rest: TopicTable, t: string)
    requires ts != [] && ts[0].topic != t
    requires TopicNames(rest) == if t in TopicNames(ts[1..]) then TopicNames(ts[1..]) else TopicNames(ts[1..]) + [t]
    ensures DistinctTopics([ts[0]] + rest)
    ensures TopicNames([ts[0]] + rest) == if t in TopicNames(ts) then TopicNames(ts) else TopicNames(ts) + [t]
  {
    TopicTableHead(ts);
    TopicNamesCons(ts[0], rest);
    ConsDistinct(ts[0], rest);
  }

  /** `topics[t] = (topics[t] || 0) + 1` on a copy of the record: an
      existing key keeps its place and a new key goes at the end. */
  function BumpTopic(ts: TopicTable, t: string): (r: TopicTable)
    ensures TopicNames(r) == if t in TopicNames(ts) then TopicNames(ts) else TopicNames(ts) + [t]
    decreases |ts|
  {
    if ts == [] then [TopicCount(t, 1)]
    else if ts[0].topic == t then
      ReplaceHead(ts, TopicCount(t, ts[0].count + 1));
      [TopicCount(t, ts[0].count + 1)] + ts[1..]
    else
      TopicTableHead(ts);
      var rest := BumpTopic(ts[1..], t);
      KeepHead(ts, rest, t);
      [ts[0]] + rest
  }

  /** One step of `BumpTopic`: the first entry is either the key, counted
      once more, or kept in front of the bumped rest. */
  lemma BumpTopicStep(ts: TopicTable, t: string)
    requires ts != []
    ensures BumpTopic(ts, t) ==
      if ts[0].topic == t then [TopicCount(t, ts[0].count + 1)] + ts[1..]
      else [ts[0]] + BumpTopic(ts[1..], t)
  {
  }

  /** After `BumpTopic(ts, t)`, `t` is counted once more, starting from 0
      when it was absent. */
  lemma {:induction false} BumpTopicCounts(ts: TopicTable, t: string)
    ensures Lookup(BumpTopic(ts, t), t) == Some(CountOf(ts, t) + 1)
    decreases |ts|
  {
    if ts == [] {
      assert BumpTopic(ts, t) == [TopicCount(t, 1)];
      LookupCons(TopicCount(t, 1), [], t);
      assert CountOf(ts, t) == 0;
    } else {
      var x := ts[0];
      BumpTopicStep(ts, t);
      TopicTableHead(ts);
      if x.topic == t {
        LookupCons(TopicCount(t, x.count + 1), ts[1..], t);
        assert CountOf(ts, t) == x.count;
      } else {
        assert CountOf(ts, t) == CountOf(ts[1..], t);
        BumpTopicCounts(ts[1..], t);
        LookupCons(x, BumpTopic(ts[1..], t), t);
      }
    }
  }

  /** `BumpTopic(ts, t)` leaves the count of every other key as it was, or
      the key absent. */
  lemma {:induction false} BumpTopicKeepsOthers(ts: TopicTable, t: string, u: string)
    requires u != t
    ensures Lookup(BumpTopic(ts, t), u) == Lookup(ts, u)
    decreases |ts|
  {
    if ts != [] {
      var x := ts[0];
      BumpTopicStep(ts, t);
      if x.topic == t {
        LookupCons(TopicCount(t, x.count + 1), ts[1..], u);
      } else {
        BumpTopicKeepsOthers(ts[1..], t, u);
        LookupCons(x, BumpTopic(ts[1..], t), u);
      }
    }
  }

  /** How many interaction timestamps `addTopic` keeps. */
  const MaxInteractions: nat := 10

  /** `[...log, now].slice(-10)`: the log with `now` appended, cut to its
      last ten entries. */
  function RecordInteraction(log: seq<Timestamp>, now: Timestamp): (r: seq<Timestamp>)
    ensures |r| == if |log| + 1 <= MaxInteractions then |log| + 1 else MaxInteractions
    ensures r == (log + [now])[|log| + 1 - |r|..]
    ensures r[|r| - 1] == now
  {
    var all := log + [now];
    SliceFromNegative(all, MaxInteractions);
    var r := SliceFrom(all, -(MaxInteractions as int));
    assert r[|r| - 1] == all[|all| - 1];
    r
  }

  /** `includes(x) ? list : [...list, x]`. */
  function AppendUnique(list: seq<string>, x: string): (r: seq<string>)
    ensures x in r && forall y :: y in list ==> y in r
    ensures x in list ==> r == list
    ensures x !in list ==> r == list + [x]
    ensures NoDup(list) ==> NoDup(r)
  {
    if x in list then list else list + [x]
  }

  datatype ConversationStyle = ConversationStyle(avgLength: real, usesEmoji: bool, formal: bool)

  datatype UserMemory = UserMemory(
    topics: TopicTable,
    lastInteractions: seq<Timestamp>,
    likedThings: seq<string>,
    dislikedThings: seq<string>,
    mentionedNames: seq<string>,
    conversationStyle: ConversationStyle,
    preferences: map<string, bool>)

  /** `initialMemory`. */
  const InitialMemory: UserMemory :=
    UserMemory([], [], [], [], [], ConversationStyle(0.0, false, false), map[])

  /** The three lists the `add*` actions extend are duplicate-free. */
  predicate ListsDistinct(m: UserMemory) {
    NoDup(m.likedThings) && NoDup(m.dislikedThings) && NoDup(m.mentionedNames)
  }

  lemma InitialMemoryShape()
    ensures ListsDistinct(InitialMemory) && |InitialMemory.lastInteractions| <= MaxInteractions
    ensures InitialMemory.topics == [] && !InitialMemory.conversationStyle.usesEmoji
    ensures !InitialMemory.conversationStyle.formal
  {
  }

  /** The memory after `addTopic(t)` at time `now`: only `topics` and
      `lastInteractions` change. */
  function MemAddTopic(m: UserMemory, t: string, now: Timestamp): (r: UserMemory)
    ensures r.topics == BumpTopic(m.topics, t)
    ensures r.lastInteractions == RecordInteraction(m.lastInteractions, now)
    ensures r.likedThings == m.likedThings && r.dislikedThings == m.dislikedThings
    ensures r.mentionedNames == m.mentionedNames && r.conversationStyle == m.conversationStyle
    ensures r.preferences == m.preferences
  {
    m.(topics := BumpTopic(m.topics, t), lastInteractions := RecordInteraction(m.lastInteractions, now))
  }

  /** The memory after `addLikedThing(x)`: only `likedThings` may change. */
  function MemAddLiked(m: UserMemory, x: string): (r: UserMemory)
    ensures r.likedThings == AppendUnique(m.likedThings, x)
    ensures r == m.(likedThings := r.likedThings)
    ensures x in m.likedThings ==> r == m
    ensures ListsDistinct(m) ==> ListsDistinct(r)
  {
    m.(likedThings := AppendUnique(m.likedThings, x))
  }

  /** The memory after `addDislikedThing(x)`: only `dislikedThings` may change. */
  function MemAddDisliked(m: UserMemory, x: string): (r: UserMemory)
    ensures r.dislikedThings == AppendUnique(m.dislikedThings, x)
    ensures r == m.(dislikedThings := r.dislikedThings)
    ensures x in m.dislikedThings ==> r == m
    ensures ListsDistinct(m) ==> ListsDistinct(r)
  {
    m.(dislikedThings := AppendUnique(m.dislikedThings, x))
  }

  /** The memory after `addMentionedName(x)`: only `mentionedNames` may change. */
  function MemAddName(m: UserMemory, x: string): (r: UserMemory)
    ensures r.mentionedNames == AppendUnique(m.mentionedNames, x)
    ensures r == m.(mentionedNames := r.mentionedNames)
    ensures x in m.mentionedNames ==> r == m
    ensures ListsDistinct(m) ==> ListsDistinct(r)
  {
    m.(mentionedNames := AppendUnique(m.mentionedNames, x))
  }

  // ---------------------------------------------------------------------
  // conversation style

  /** The running mean after one more message of length `len`, given the mean
      `avg` over `count` earlier messages. */
  function NextAverage(avg: real, count: nat, len: nat): (r: real)
    ensures count == 0 ==> r == len as real
    ensures count > 0 ==> r * (count + 1) as real == avg * count as real + len as real
  {
    if count > 0 then (avg * count as real + len as real) / (count + 1) as real
    else len as real
  }

  function Sum(lengths: seq<nat>): nat {
    if lengths == [] then 0 else Sum(lengths[..|lengths| - 1]) + lengths[|lengths| - 1]
  }

  /** The arithmetic mean of message lengths (0 for none, like the initial `avgLength`). */
  function Mean(lengths: seq<nat>): real {
    if lengths == [] then 0.0 else Sum(lengths) as real / |lengths| as real
  }

  /** When `avg` is the mean of the `count` earlier lengths, the update gives
      the mean of all of them including the new one. */
  lemma {:induction false} NextAverageIsMean(lengths: seq<nat>, avg: real, len: nat)
    requires avg == Mean(lengths)
    ensures NextAverage(avg, |lengths|, len) == Mean(lengths + [len])
  {
    var all := lengths + [len];
    assert all[..|all| - 1] == lengths;
    assert Sum(all) == Sum(lengths) + len;
    if lengths != [] {
      var n := |lengths| as real;
      assert avg * n == Sum(lengths) as real;
      var r := NextAverage(avg, |lengths|, len);
      assert r * (n + 1.0) == Sum(all) as real;
    }
  }

  /** The emoji test `/[\u{1F300}-\u{1F6FF}]/u`: some character lies in
      that block. The block is astral, so such a message is longer by
      `message.length` than by its character count. */
  predicate HasEmoji(message: string)
    ensures HasEmoji(message) ==> Utf16Length(message) > |message|
  {
    EmojiIsAstral(message);
    exists k | 0 <= k < |message| :: '\U{1F300}' <= message[k] <= '\U{1F6FF}'
  }

  lemma EmojiIsAstral(message: string)
    ensures (exists k | 0 <= k < |message| :: '\U{1F300}' <= message[k] <= '\U{1F6FF}')
            ==> Utf16Length(message) > |message|
  {
    if exists k | 0 <= k < |message| :: '\U{1F300}' <= message[k] <= '\U{1F6FF}' {
      var k :| 0 <= k < |message| && '\U{1F300}' <= message[k] <= '\U{1F6FF}';
      AstralCountsTwice(message, k);
    }
  }

  /** The formality test: one of four fixed phrases occurs, case-sensitively;
      the shortest of them, "rica ederim", has 11 characters. */
  predicate IsFormal(message: string)
    ensures IsFormal(message) ==> |message| >= 11
  {
    Contains(message, "rica ederim") || Contains(message, "teşekkür ederim")
    || Contains(message, "memnun oldum") || Contains(message, "saygılarımla")
  }

  /** The style after `updateConversationStyle(message)` with `count`
      conversations so far; the length averaged is `message.length`, in
      UTF-16 code units. */
  function NextStyle(style: ConversationStyle, count: nat, message: string): (r: ConversationStyle)
    ensures r.avgLength == NextAverage(style.avgLength, count, Utf16Length(message))
    ensures r.usesEmoji <==> style.usesEmoji || HasEmoji(message)
    ensures r.formal <==> style.formal || IsFormal(message)
  {
    ConversationStyle(NextAverage(style.avgLength, count, Utf16Length(message)),
                      style.usesEmoji || HasEmoji(message),
                      style.formal || IsFormal(message))
  }

  /** Styles after a run of messages, the count growing by one per message
      as it does when each message is followed by `updateConversationCount`. */
  function StyleAfter(style: ConversationStyle, count: nat, messages: seq<string>): ConversationStyle
    decreases |messages|
  {
    if messages == [] then style
    else StyleAfter(NextStyle(style, count, messages[0]), count + 1, messages[1..])
  }

  /** The two flags are sticky: after any run of messages a flag is set
      exactly when it was set before or some message triggered it; and the
      average is the mean of all lengths when it started as the mean. */
  lemma {:induction false} StyleAfterFlags(style: ConversationStyle, earlier: seq<nat>, messages: seq<string>)
    requires style.avgLength == Mean(earlier)
    ensures StyleAfter(style, |earlier|, messages).usesEmoji
            <==> style.usesEmoji || exists k | 0 <= k < |messages| :: HasEmoji(messages[k])
    ensures StyleAfter(style, |earlier|, messages).formal
            <==> style.formal || exists k | 0 <= k < |messages| :: IsFormal(messages[k])
    ensures StyleAfter(style, |earlier|, messages).avgLength
            == Mean(earlier + seq(|messages|, k requires 0 <= k < |messages| => Utf16Length(messages[k])))
    decreases |messages|
  {
    var lens := seq(|messages|, k requires 0 <= k < |messages| => Utf16Length(messages[k]));
    if messages == [] {
      assert earlier + lens == earlier;
    } else {
      var next := NextStyle(style, |earlier|, messages[0]);
      NextAverageIsMean(earlier, style.avgLength, Utf16Length(messages[0]));
      var earlier' := earlier + [Utf16Length(messages[0])];
      StyleAfterFlags(next, earlier', messages[1..]);
      var lens' := seq(|messages[1..]|, k requires 0 <= k < |messages[1..]| => Utf16Length(messages[1..][k]));
      assert earlier' + lens' == earlier + lens;
      forall k | 0 < k < |messages| ensures messages[k] == messages[1..][k - 1] { }
      if HasEmoji(messages[0]) { assert exists k | 0 <= k < |messages| :: HasEmoji(messages[k]) ; }
      if exists k | 0 <= k < |messages[1..]| :: HasEmoji(messages[1..][k]) {
        var k :| 0 <= k < |messages[1..]| && HasEmoji(messages[1..][k]);
        assert HasEmoji(messages[k + 1]);
      }
      if IsFormal(messages[0]) { assert exists k | 0 <= k < |messages| :: IsFormal(messages[k]); }
      if exists k | 0 <= k < |messages[1..]| :: IsFormal(messages[1..][k]) {
        var k :| 0 <= k < |messages[1..]| && IsFormal(messages[1..][k]);
        assert IsFormal(messages[k + 1]);
      }
    }
  }

  /** The memory after `updateConversationStyle(message)`: only the style changes. */
  function MemUpdateStyle(m: UserMemory, count: nat, message: string): (r: UserMemory)
    ensures r.conversationStyle == NextStyle(m.conversationStyle, count, message)
    ensures r == m.(conversationStyle := r.conversationStyle)
  {
    m.(conversationStyle := NextStyle(m.conversationStyle, count, message))
  }

  // ---------------------------------------------------------------------
  // updateMemory

  /** A `Partial<UserMemory>`: the fields present in the update. */
  datatype MemoryPatch = MemoryPatch(
    topics: Option<TopicTable>,
    lastInteractions: Option<seq<Timestamp>>,
    likedThings: Option<seq<string>>,
    dislikedThings: Option<seq<string>>,
    mentionedNames: Option<seq<string>>,
    conversationStyle: Option<ConversationStyle>,
    preferences: Option<map<string, bool>>)

  function Override<T>(old_: T, update: Option<T>): T {
    match update
    case Some(v) => v
    case None => old_
  }

  /** `{...memory, ...patch}`: every field the patch has replaces the memory's
      field wholesale (the style record included), the rest are kept. */
  function Merge(m: UserMemory, p: MemoryPatch): (r: UserMemory)
    ensures p.topics.Some? ==> r.topics == p.topics.value
    ensures p.topics.None? ==> r.topics == m.topics
    ensures p.lastInteractions.Some? ==> r.lastInteractions == p.lastInteractions.value
    ensures p.lastInteractions.None? ==> r.lastInteractions == m.lastInteractions
    ensures p.likedThings.Some? ==> r.likedThings == p.likedThings.value
    ensures p.likedThings.None? ==> r.likedThings == m.likedThings
    ensures p.dislikedThings.Some? ==> r.dislikedThings == p.dislikedThings.value
    ensures p.dislikedThings.None? ==> r.dislikedThings == m.dislikedThings
    ensures p.mentionedNames.Some? ==> r.mentionedNames == p.mentionedNames.value
    ensures p.mentionedNames.None? ==> r.mentionedNames == m.mentionedNames
    ensures p.conversationStyle.Some? ==> r.conversationStyle == p.conversationStyle.value
    ensures p.conversationStyle.None? ==> r.conversationStyle == m.conversationStyle
    ensures p.preferences.Some? ==> r.preferences == p.preferences.value
    ensures p.preferences.None? ==> r.preferences == m.preferences
  {
    UserMemory(
      Override(m.topics, p.topics),
      Override(m.lastInteractions, p.lastInteractions),
      Override(m.likedThings, p.likedThings),
      Override(m.dislikedThings, p.dislikedThings),
      Override(m.mentionedNames, p.mentionedNames),
      Override(m.conversationStyle, p.conversationStyle),
      Override(m.preferences, p.preferences))
  }

  /** An empty patch changes nothing. */
  lemma MergeEmpty(m: UserMemory)
    ensures Merge(m, MemoryPatch(None, None, None, None, None, None, None)) == m
  {
  }

  // ---------------------------------------------------------------------
  // the store

  class UserStore {
    var name: string
    var interests: string
    var age: string
    var lastLogin: Option<Timestamp>
    var conversationCount: nat
    var favoriteTopic: string
    var userMemory: UserMemory

    /** The store's initial state. */
    constructor ()
      ensures name == "" && interests == "" && age == "" && lastLogin == None
      ensures conversationCount == 0 && favoriteTopic == "" && userMemory == InitialMemory
    {
      name := "";
      interests := "";
      age := "";
      lastLogin := None;
      conversationCount := 0;
      favoriteTopic := "";
      userMemory := InitialMemory;
    }

    /** `setUserInfo(name, interests, age = '')`, stamping the login time. */
    method SetUserInfo(newName: string, newInterests: string, newAge: Option<string>, now: Timestamp)
      modifies this`name, this`interests, this`age, this`lastLogin
      ensures name == newName && interests == newInterests && lastLogin == Some(now)
      ensures age == Override("", newAge)
    {
      name := newName;
      interests := newInterests;
      age := Override("", newAge);
      lastLogin := Some(now);
    }

    /** `updateConversationCount`. */
    method UpdateConversationCount()
      modifies this`conversationCount
      ensures conversationCount == old(conversationCount) + 1
    {
      conversationCount := conversationCount + 1;
    }

    /** `setFavoriteTopic`. */
    method SetFavoriteTopic(topic: string)
      modifies this`favoriteTopic
      ensures favoriteTopic == topic
    {
      favoriteTopic := topic;
    }

    /** `updateMemory`. */
    method UpdateMemory(patch: MemoryPatch)
      modifies this`userMemory
      ensures userMemory == Merge(old(userMemory), patch)
    {
      userMemory := Merge(userMemory, patch);
    }

    /** `addTopic`. */
    method AddTopic(topic: string, now: Timestamp)
      modifies this`userMemory
      ensures userMemory == MemAddTopic(old(userMemory), topic, now)
    {
      userMemory := MemAddTopic(userMemory, topic, now);
    }

    /** `addLikedThing`. */
    method AddLikedThing(thing: string)
      modifies this`userMemory
      ensures userMemory == MemAddLiked(old(userMemory), thing)
    {
      userMemory := MemAddLiked(userMemory, thing);
    }

    /** `addDislikedThing`. */
    method AddDislikedThing(thing: string)
      modifies this`userMemory
      ensures userMemory == MemAddDisliked(old(userMemory), thing)
    {
      userMemory := MemAddDisliked(userMemory, thing);
    }

    /** `addMentionedName`. */
    method AddMentionedName(mentioned: string)
      modifies this`userMemory
      ensures userMemory == MemAddName(old(userMemory), mentioned)
    {
      userMemory := MemAddName(userMemory, mentioned);
    }

    /** `updateConversationStyle`, reading the current conversation count. */
    method UpdateConversationStyle(message: string)
      modifies this`userMemory
      ensures userMemory == MemUpdateStyle(old(userMemory), conversationCount, message)
    {
      userMemory := MemUpdateStyle(userMemory, conversationCount, message);
    }
  }
}
