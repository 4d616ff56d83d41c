/** Message analysis: topic detection over a fixed keyword table, the
    clean-up of preference matches, the last word of each name match, the
    personalised system prompt, and `analyzeUserMessage`, which feeds all of
    these into the user-memory store in a fixed order.

    The regular expressions that find preference phrases and name phrases
    are not modelled: their matches are inputs. */
module Analysis {
  import opened Common
  import opened Strings
  import opened UserStore

  /** One category of the keyword table and its keywords. */
  datatype TopicEntry = TopicEntry(topic: string, keywords: seq<string>)

  // The categories of `topicKeywords`, in the order they are listed.
  const Technology: TopicEntry := TopicEntry("teknoloji", ["bilgisayar", "yazılım", "kod", "program", "uygulama", "teknoloji", "internet", "web", "mobil", "yapay zeka", "ai", "robot", "elektronik"])
  const Sports: TopicEntry := TopicEntry("spor", ["futbol", "basketbol", "voleybol", "koşu", "antrenman", "maç", "spor", "fitness", "egzersiz", "yüzme", "tenis", "bisiklet"])
  const Music: TopicEntry := TopicEntry("müzik", ["şarkı", "müzik", "konser", "melodi", "nota", "enstrüman", "gitar", "piyano", "albüm", "playlist", "spotify", "dinlemek"])
  const Film: TopicEntry := TopicEntry("film", ["film", "sinema", "dizi", "netflix", "izlemek", "oyuncu", "yönetmen", "senaryo", "hollywood", "oscar", "televizyon", "belgesel"])
  const Travel: TopicEntry := TopicEntry("seyahat", ["seyahat", "gezi", "tatil", "turizm", "otel", "plaj", "uçak", "bilet", "ülke", "şehir", "yurt dışı", "gezgin"])
  const Food: TopicEntry := TopicEntry("yemek", ["yemek", "tarif", "mutfak", "pişirmek", "lezzet", "restoran", "cafe", "şef", "tatlı", "kahve", "çay", "içecek"])
  const Education: TopicEntry := TopicEntry("eğitim", ["okul", "üniversite", "öğrenmek", "eğitim", "kurs", "sınav", "kitap", "ders", "öğretmen", "akademik", "ödev", "proje"])
  const Art: TopicEntry := TopicEntry("sanat", ["sanat", "resim", "çizim", "tasarım", "fotoğraf", "sergi", "galeri", "heykel", "mimari", "görsel", "grafik", "illüstrasyon"])
  const Health: TopicEntry := TopicEntry("sağlık", ["sağlık", "hastalık", "doktor", "hastane", "ilaç", "tedavi", "spor", "diyet", "beslenme", "uyku", "stres", "psikoloji"])
  const Work: TopicEntry := TopicEntry("iş", ["iş", "kariyer", "şirket", "ofis", "toplantı", "yönetici", "çalışmak", "maaş", "işveren", "müşteri", "pazarlama", "proje"])
  const Games: TopicEntry := TopicEntry("oyun", ["oyun", "gamer", "konsol", "playstation", "xbox", "pc", "steam", "minecraft", "fps", "moba", "rpg", "strateji"])
  const Science: TopicEntry := TopicEntry("bilim", ["bilim", "fizik", "kimya", "biyoloji", "matematik", "astronomi", "uzay", "deney", "araştırma", "teori", "laboratuvar", "atom"])
  const Nature: TopicEntry := TopicEntry("doğa", ["doğa", "çevre", "hayvan", "bitki", "ağaç", "çiçek", "orman", "dağ", "deniz", "göl", "nehir", "ekoloji", "iklim"])
  const Family: TopicEntry := TopicEntry("aile", ["aile", "anne", "baba", "kardeş", "çocuk", "bebek", "ebeveyn", "evlilik", "nişan", "akraba", "ev", "yuva"])
  const Fashion: TopicEntry := TopicEntry("moda", ["moda", "giyim", "kıyafet", "stil", "tasarım", "marka", "ayakkabı", "çanta", "aksesuar", "takı", "alışveriş", "trend"])

  /** `topicKeywords`: the categories in listing order. */
  const TopicKeywords: seq<TopicEntry> :=
    [Technology, Sports, Music, Film, Travel, Food, Education, Art,
     Health, Work, Games, Science, Nature, Family, Fashion]

  /** `keywords.some(word => messageLower.includes(word))`. */
  predicate Mentions(message: string, keywords: seq<string>) {
    exists w | w in keywords :: Contains(message, w)
  }

  /** The topics of `table` whose keywords occur in `message`, in table order. */
  function TopicsIn(table: seq<TopicEntry>, message: string): (r: seq<string>)
    ensures |r| <= |table|
    decreases |table|
  {
    if table == [] then []
    else
      var last := table[|table| - 1];
      TopicsIn(table[..|table| - 1], message) + (if Mentions(message, last.keywords) then [last.topic] else [])
  }

  /** The topic names of a table are pairwise different. */
  predicate DistinctEntries(table: seq<TopicEntry>) {
    forall i, j :: 0 <= i < j < |table| ==> table[i].topic != table[j].topic
  }

  /** `TopicsIn` picks exactly the mentioned entries of `table`, in table
      order: `idx` lists their positions, strictly increasing, and a position
      is listed if and only if its entry is mentioned. */
  lemma {:induction false} TopicsInIndices(table: seq<TopicEntry>, message: string) returns (idx: seq<nat>)
    ensures |idx| == |TopicsIn(table, message)|
    ensures forall k :: 0 <= k < |idx| ==> idx[k] < |table| && TopicsIn(table, message)[k] == table[idx[k]].topic
    ensures forall k, l :: 0 <= k < l < |idx| ==> idx[k] < idx[l]
    ensures forall j :: 0 <= j < |table| ==> (j in idx <==> Mentions(message, table[j].keywords))
    decreases |table|
  {
    if table == [] {
      idx := [];
    } else {
      var n := |table| - 1;
      var pre := table[..n];
      var idx0 := TopicsInIndices(pre, message);
      assert forall j :: 0 <= j < n ==> pre[j] == table[j];
      if Mentions(message, table[n].keywords) {
        idx := idx0 + [n];
      } else {
        idx := idx0;
      }
    }
  }

  /** With distinct topic names in the table, no topic is reported twice. */
  lemma TopicsInDistinct(table: seq<TopicEntry>, message: string)
    requires DistinctEntries(table)
    ensures NoDup(TopicsIn(table, message))
  {
    var idx := TopicsInIndices(table, message);
  }

  /** A topic is reported exactly when some entry with that name is mentioned. */
  lemma TopicsInMembership(table: seq<TopicEntry>, message: string, t: string)
    ensures t in TopicsIn(table, message)
            <==> exists j | 0 <= j < |table| :: table[j].topic == t && Mentions(message, table[j].keywords)
  {
    var r := TopicsIn(table, message);
    var idx := TopicsInIndices(table, message);
    if t in r {
      var k :| 0 <= k < |r| && r[k] == t;
      assert idx[k] in idx;
    }
    if exists j | 0 <= j < |table| :: table[j].topic == t && Mentions(message, table[j].keywords) {
      var j :| 0 <= j < |table| && table[j].topic == t && Mentions(message, table[j].keywords);
      var k :| 0 <= k < |idx| && idx[k] == j;
      assert r[k] == t;
    }
  }

  /** No keyword of the entry is the empty string. */
  predicate NoEmptyKeyword(e: TopicEntry) {
    "" !in e.keywords
  }

  /** The table's category names are distinct and none of its keywords is empty. */
  lemma TopicKeywordsWellFormed()
    ensures |TopicKeywords| == 15
    ensures DistinctEntries(TopicKeywords)
    ensures forall j :: 0 <= j < |TopicKeywords| ==> NoEmptyKeyword(TopicKeywords[j])
  {
    TopicNamesDistinct();
    NoEmptyKeywords();
  }

  lemma TopicNamesDistinct()
    ensures DistinctEntries(TopicKeywords)
  {
  }

  lemma NoEmptyKeywords()
    ensures forall j :: 0 <= j < |TopicKeywords| ==> NoEmptyKeyword(TopicKeywords[j])
  {
    NoEmptyKeywords1();
    NoEmptyKeywords2();
    NoEmptyKeywords3();
    NoEmptyKeywords4();
    NoEmptyKeywords5();
  }

  lemma NoEmptyKeywords1()
    ensures NoEmptyKeyword(Technology) && NoEmptyKeyword(Sports) && NoEmptyKeyword(Music)
  {
  }

  lemma NoEmptyKeywords2()
    ensures NoEmptyKeyword(Film) && NoEmptyKeyword(Travel) && NoEmptyKeyword(Food)
  {
  }

  lemma NoEmptyKeywords3()
    ensures NoEmptyKeyword(Education) && NoEmptyKeyword(Art) && NoEmptyKeyword(Health)
  {
  }

  lemma NoEmptyKeywords4()
    ensures NoEmptyKeyword(Work) && NoEmptyKeyword(Games) && NoEmptyKeyword(Science)
  {
  }

  lemma NoEmptyKeywords5()
    ensures NoEmptyKeyword(Nature) && NoEmptyKeyword(Family) && NoEmptyKeyword(Fashion)
  {
  }

  /** `extractTopics(message)` on the lowercased message. */
  method ExtractTopics(message: string, lower: CaseMap) returns (foundTopics: seq<string>)
    ensures foundTopics == TopicsIn(TopicKeywords, lower(message))
    ensures NoDup(foundTopics)
  {
    var messageLower := lower(message);
    foundTopics := [];
    for i := 0 to |TopicKeywords|
      invariant foundTopics == TopicsIn(TopicKeywords[..i], messageLower)
    {
      var entry := TopicKeywords[i];
      assert TopicKeywords[..i + 1][..i] == TopicKeywords[..i];
      if Mentions(messageLower, entry.keywords) {
        foundTopics := foundTopics + [entry.topic];
      }
    }
    assert TopicKeywords[..|TopicKeywords|] == TopicKeywords;
    TopicKeywordsWellFormed();
    TopicsInDistinct(TopicKeywords, messageLower);
  }

  /** A message with no table keyword in it has no topics. */
  lemma NoKeywordNoTopics(message: string)
    requires forall j, w :: 0 <= j < |TopicKeywords| && w in TopicKeywords[j].keywords ==> !Contains(message, w)
    ensures TopicsIn(TopicKeywords, message) == []
  {
    NothingMentionedNoTopics(TopicKeywords, message);
  }

  lemma {:induction false} NothingMentionedNoTopics(table: seq<TopicEntry>, message: string)
    requires forall j :: 0 <= j < |table| ==> !Mentions(message, table[j].keywords)
    ensures TopicsIn(table, message) == []
    decreases |table|
  {
    if table != [] {
      NothingMentionedNoTopics(table[..|table| - 1], message);
    }
  }

  /** The empty message has no topics, since no keyword is empty. */
  lemma EmptyMessageNoTopics()
    ensures TopicsIn(TopicKeywords, "") == []
  {
    TopicKeywordsWellFormed();
    NoKeywordNoTopics("");
  }

  /** A keyword listed under the two categories at positions `i` and `j`
      reports both. */
  lemma SharedKeyword(message: string, w: string, i: nat, j: nat)
    requires i < |TopicKeywords| && j < |TopicKeywords|
    requires w in TopicKeywords[i].keywords && w in TopicKeywords[j].keywords
    requires Contains(message, w)
    ensures TopicKeywords[i].topic in TopicsIn(TopicKeywords, message)
    ensures TopicKeywords[j].topic in TopicsIn(TopicKeywords, message)
  {
    TopicsInMembership(TopicKeywords, message, TopicKeywords[i].topic);
    TopicsInMembership(TopicKeywords, message, TopicKeywords[j].topic);
  }

  /** "spor" gives both spor and sağlık. */
  lemma SharedKeywordSpor(message: string)
    requires Contains(message, "spor")
    ensures "spor" in TopicsIn(TopicKeywords, message) && "sağlık" in TopicsIn(TopicKeywords, message)
  {
    assert Sports.keywords[6] == "spor" && Health.keywords[6] == "spor";
    SharedKeyword(message, "spor", 1, 8);
  }

  /** "proje" gives both eğitim and iş. */
  lemma SharedKeywordProje(message: string)
    requires Contains(message, "proje")
    ensures "eğitim" in TopicsIn(TopicKeywords, message) && "iş" in TopicsIn(TopicKeywords, message)
  {
    assert Education.keywords[11] == "proje" && Work.keywords[11] == "proje";
    SharedKeyword(message, "proje", 6, 9);
  }

  /** "tasarım" gives both sanat and moda. */
  lemma SharedKeywordTasarim(message: string)
    requires Contains(message, "tasarım")
    ensures "sanat" in TopicsIn(TopicKeywords, message) && "moda" in TopicsIn(TopicKeywords, message)
  {
    assert Art.keywords[3] == "tasarım" && Fashion.keywords[4] == "tasarım";
    SharedKeyword(message, "tasarım", 7, 14);
  }

  // ---------------------------------------------------------------------
  // extractPreferences

  /** What `extractPreferences` keeps of the capture groups of a pattern's
      matches: every nonempty capture, trimmed, in match order. */
  function Captured(captures: seq<string>): seq<string> {
    Concat(captures, Keep)
  }

  /** `if (match[1]) push(match[1].trim())` for one capture. */
  function Keep(c: string): seq<string> {
    if c != "" then [Trim(c)] else []
  }

  /** Every kept phrase is the trim of some nonempty capture, and every
      nonempty capture contributes its trim. */
  lemma CapturedMembership(captures: seq<string>, x: string)
    ensures x in Captured(captures) <==> exists c | c in captures :: c != "" && x == Trim(c)
  {
    ConcatMembership(captures, Keep, x);
    if exists c | c in captures :: c != "" && x == Trim(c) {
      var c :| c in captures && c != "" && x == Trim(c);
      var i :| 0 <= i < |captures| && captures[i] == c;
      assert x in Keep(captures[i]);
    }
  }

  /** Every kept phrase is already trimmed. */
  lemma CapturedTrimmed(captures: seq<string>, x: string)
    requires x in Captured(captures)
    ensures Trim(x) == x
  {
    CapturedMembership(captures, x);
    var c :| c in captures && c != "" && x == Trim(c);
    TrimIdempotent(c);
  }

  /** One `matches.forEach` of `extractPreferences`: push the trim of every
      nonempty capture onto `found`. */
  method PushCaptures(found: seq<string>, captures: seq<string>) returns (r: seq<string>)
    ensures r == found + Captured(captures)
  {
    r := found;
    for i := 0 to |captures|
      invariant r == found + Captured(captures[..i])
    {
      ConcatStep(captures, Keep, i);
      if captures[i] != "" {
        r := r + [Trim(captures[i])];
      } else {
        assert Keep(captures[i]) == [];
      }
    }
    assert captures[..|captures|] == captures;
  }

  /** The liked and disliked phrases of one message. */
  datatype Preferences = Preferences(liked: seq<string>, disliked: seq<string>)

  /** `extractPreferences`, given the capture groups of the matches of each
      like pattern and of each dislike pattern, in pattern order. */
  method ExtractPreferences(likeCaptures: seq<seq<string>>, dislikeCaptures: seq<seq<string>>)
    returns (p: Preferences)
    ensures p.liked == CapturedAll(likeCaptures)
    ensures p.disliked == CapturedAll(dislikeCaptures)
  {
    var liked := [];
    for i := 0 to |likeCaptures|
      invariant liked == CapturedAll(likeCaptures[..i])
    {
      ConcatStep(likeCaptures, Captured, i);
      liked := PushCaptures(liked, likeCaptures[i]);
    }
    var disliked := [];
    for i := 0 to |dislikeCaptures|
      invariant disliked == CapturedAll(dislikeCaptures[..i])
    {
      ConcatStep(dislikeCaptures, Captured, i);
      disliked := PushCaptures(disliked, dislikeCaptures[i]);
    }
    assert likeCaptures[..|likeCaptures|] == likeCaptures;
    assert dislikeCaptures[..|dislikeCaptures|] == dislikeCaptures;
    p := Preferences(liked, disliked);
  }

  /** What `extractPreferences` keeps of the captures of several patterns,
      one pattern after the other. */
  function CapturedAll(groups: seq<seq<string>>): seq<string> {
    Concat(groups, Captured)
  }

  /** A phrase is kept exactly when the captures of some pattern keep it. */
  lemma CapturedAllMembership(groups: seq<seq<string>>, x: string)
    ensures x in CapturedAll(groups) <==> exists i | 0 <= i < |groups| :: x in Captured(groups[i])
  {
    ConcatMembership(groups, Captured, x);
  }

  // ---------------------------------------------------------------------
  // extractNames

  /** `parts[parts.length - 1]` of `m.split(' ')`: the part of `m` after its
      last space, or all of `m` when it has none. */
  function LastWord(m: string): (w: string)
    ensures ' ' !in w
    ensures |w| <= |m| && w == m[|m| - |w|..]
    ensures |w| == |m| || m[|m| - |w| - 1] == ' '
  {
    var parts := Split(m, ' ');
    JoinSplit(m, ' ');
    if |parts| >= 2 then
      JoinLast(parts, [' ']);
      parts[|parts| - 1]
    else
      parts[0]
  }

  /** `extractNames`, given the matches of the name pattern; each name is the
      maximal space-free tail of its match. */
  function ExtractNames(matches: seq<string>): (names: seq<string>)
    ensures |names| == |matches|
    ensures forall k :: 0 <= k < |matches| ==>
      ' ' !in names[k] && |names[k]| <= |matches[k]| && names[k] == matches[k][|matches[k]| - |names[k]|..]
      && (|names[k]| == |matches[k]| || matches[k][|matches[k]| - |names[k]| - 1] == ' ')
  {
    seq(|matches|, k requires 0 <= k < |matches| => LastWord(matches[k]))
  }

  /** The name after the last space of a match is the whole word after it:
      a match "arkadaşım Ali" gives "Ali". */
  lemma NameAfterSpace(prefix: string, name: string)
    requires ' ' !in name
    ensures LastWord(prefix + " " + name) == name
  {
    var m := prefix + " " + name;
    var w := LastWord(m);
    var p := |m| - |name| - 1;
    assert m[p] == ' ';
    assert m[|m| - |name|..] == name;
  }

  // ---------------------------------------------------------------------
  // top topics

  /** Counts never increase along `s`. */
  predicate SortedByCount(s: seq<TopicCount>) {
    forall i, j :: 0 <= i < j < |s| ==> s[i].count >= s[j].count
  }

  /** Inserts `x` after every entry whose count is at least its own. */
  function InsertByCount(x: TopicCount, s: seq<TopicCount>): (r: seq<TopicCount>)
    ensures multiset(r) == multiset(s) + multiset{x}
    decreases |s|
  {
    if s == [] then [x]
    else if s[0].count >= x.count then
      assert s == [s[0]] + s[1..];
      [s[0]] + InsertByCount(x, s[1..])
    else [x] + s
  }

  /** An entry with a count at least that of every entry of a sorted
      sequence can go in front of it. */
  lemma PrependSorted(h: TopicCount, rest: seq<TopicCount>)
    requires SortedByCount(rest)
    requires forall y | y in rest :: y.count <= h.count
    ensures SortedByCount([h] + rest)
  {
    var r := [h] + rest;
    forall i, j | 0 <= i < j < |r|
      ensures r[i].count >= r[j].count
    {
      if i > 0 {
        assert r[i] == rest[i - 1] && r[j] == rest[j - 1];
      } else {
        assert r[j] in rest;
      }
    }
  }

  /** A bound on the counts of `s` and on that of `x` bounds every entry of a
      permutation of `s` with `x` added. */
  lemma BoundedPermutation(rest: seq<TopicCount>, s: seq<TopicCount>, x: TopicCount, c: int)
    requires multiset(rest) == multiset(s) + multiset{x}
    requires forall y | y in s :: y.count <= c
    requires x.count <= c
    ensures forall y | y in rest :: y.count <= c
  {
    forall y | y in rest
      ensures y.count <= c
    {
      assert y in multiset(rest);
      if y != x {
        assert y in multiset(s);
      }
    }
  }

  /** Inserting into a sorted sequence keeps it sorted. */
  lemma {:induction false} InsertByCountSorted(x: TopicCount, s: seq<TopicCount>)
    requires SortedByCount(s)
    ensures SortedByCount(InsertByCount(x, s))
    decreases |s|
  {
    if s != [] && s[0].count >= x.count {
      var tail := s[1..];
      var rest := InsertByCount(x, tail);
      InsertByCountSorted(x, tail);
      assert forall y | y in tail :: y.count <= s[0].count by {
        forall y | y in tail ensures y.count <= s[0].count {
          var j :| 0 <= j < |tail| && tail[j] == y;
          assert s[j + 1] == y;
        }
      }
      BoundedPermutation(rest, tail, x, s[0].count);
      PrependSorted(s[0], rest);
    }
  }

  /** The stable sort `sort((a, b) => b[1] - a[1])` of the entries: each
      entry, taken in insertion order, goes after the entries already placed
      with a count at least as high. */
  function SortByCount(ts: seq<TopicCount>): (r: seq<TopicCount>)
    ensures multiset(r) == multiset(ts)
    decreases |ts|
  {
    if ts == [] then []
    else
      var n := |ts| - 1;
      assert ts == ts[..n] + [ts[n]];
      InsertByCount(ts[n], SortByCount(ts[..n]))
  }

  /** The sort orders by non-increasing count. */
  lemma {:induction false} SortByCountSorted(ts: seq<TopicCount>)
    ensures SortedByCount(SortByCount(ts))
    decreases |ts|
  {
    if ts != [] {
      var n := |ts| - 1;
      SortByCountSorted(ts[..n]);
      InsertByCountSorted(ts[n], SortByCount(ts[..n]));
    }
  }

  /** `.slice(0, 3)` of the sorted entries: at most three, and all of them
      when there are fewer. */
  function TopEntries(ts: seq<TopicCount>): (r: seq<TopicCount>)
    ensures |r| <= 3
    ensures |r| < 3 ==> multiset(r) == multiset(ts)
  {
    var s := SortByCount(ts);
    assert s[..|s|] == s;
    s[..if |s| < 3 then |s| else 3]
  }

  /** A prefix of a sorted permutation of `ts` is sorted, is part of `ts`,
      and no entry left out outranks one kept. */
  lemma SortedPrefix(ts: seq<TopicCount>, s: seq<TopicCount>, k: nat)
    requires SortedByCount(s) && multiset(s) == multiset(ts) && k <= |s|
    ensures SortedByCount(s[..k])
    ensures multiset(s[..k]) <= multiset(ts)
    ensures forall x, i :: x in multiset(ts) - multiset(s[..k]) && 0 <= i < k ==> x.count <= s[..k][i].count
  {
    var e := s[..k];
    assert s == e + s[k..];
    assert multiset(s) == multiset(e) + multiset(s[k..]);
    forall x, i | x in multiset(ts) - multiset(e) && 0 <= i < k
      ensures x.count <= e[i].count
    {
      assert x in multiset(s[k..]);
      var j :| 0 <= j < |s[k..]| && s[k..][j] == x;
      assert s[k + j] == x && e[i] == s[i];
    }
  }

  /** The top entries are at most three of the entries, in descending count
      order, and no entry left out has a higher count than one kept. */
  lemma TopEntriesSpec(ts: seq<TopicCount>)
    ensures |TopEntries(ts)| == if |ts| < 3 then |ts| else 3
    ensures SortedByCount(TopEntries(ts))
    ensures multiset(TopEntries(ts)) <= multiset(ts)
    ensures forall x, i :: x in multiset(ts) - multiset(TopEntries(ts)) && 0 <= i < |TopEntries(ts)|
              ==> x.count <= TopEntries(ts)[i].count
  {
    var s := SortByCount(ts);
    SortByCountSorted(ts);
    assert |s| == |ts| by {
      assert |multiset(s)| == |multiset(ts)|;
    }
    SortedPrefix(ts, s, if |s| < 3 then |s| else 3);
  }

  /** The "most discussed topics" line: the top names joined by ", ";
      empty for a record with no topics. */
  function TopTopics(ts: seq<TopicCount>): (r: string)
    ensures ts == [] ==> r == ""
  {
    Join(TopicNames(TopEntries(ts)), ", ")
  }

  // ---------------------------------------------------------------------
  // generatePersonalizedSystemMessage

  const LongStyle: string := "detaylı ve uzun cümleler kurmayı seven"
  const ShortStyle: string := "kısa ve öz konuşmayı tercih eden"
  const EmojiLover: string := "emoji kullanmayı seven"
  const NoEmoji: string := "genellikle emoji kullanmayan"
  const FormalTone: string := "resmi bir dil kullanan"
  const CasualTone: string := "samimi ve rahat konuşan"
  const Unknown: string := "Bilinmiyor"
  const NoTopicsYet: string := "Henüz tespit edilmedi"
  const NothingKnownYet: string := "Henüz bilmiyoruz"
  const NoNamesYet: string := "Henüz kimseyi anmadı"

  /** The values interpolated into the system prompt. */
  datatype PromptSlots = PromptSlots(
    userName: string, interests: string, topTopics: string,
    liked: string, disliked: string, mentioned: string,
    messageStyle: string, emojis: string, tone: string)

  /** The slots for a user: none is ever empty, since each empty value is
      replaced by its placeholder. */
  function SlotsFor(name: string, interests: string, memory: UserMemory): (p: PromptSlots)
    ensures p.userName != "" && p.interests != "" && p.topTopics != ""
    ensures p.liked != "" && p.disliked != "" && p.mentioned != ""
  {
    var style := memory.conversationStyle;
    PromptSlots(
      OrElse(name, Unknown), OrElse(interests, Unknown),
      OrElse(TopTopics(memory.topics), NoTopicsYet),
      OrElse(Join(memory.likedThings, ", "), NothingKnownYet),
      OrElse(Join(memory.dislikedThings, ", "), NothingKnownYet),
      OrElse(Join(memory.mentionedNames, ", "), NoNamesYet),
      if style.avgLength > 100.0 then LongStyle else ShortStyle,
      if style.usesEmoji then EmojiLover else NoEmoji,
      if style.formal then FormalTone else CasualTone)
  }

  /** How the memory shows in the prompt: the long-message wording exactly
      when the running average exceeds 100 characters, the emoji and formal
      wordings exactly when those flags are set; a missing name, interest
      list or topic list shows as its placeholder. */
  lemma SlotsForSpec(name: string, interests: string, memory: UserMemory)
    ensures SlotsFor(name, interests, memory).messageStyle == LongStyle
            <==> memory.conversationStyle.avgLength > 100.0
    ensures SlotsFor(name, interests, memory).emojis == EmojiLover <==> memory.conversationStyle.usesEmoji
    ensures SlotsFor(name, interests, memory).tone == FormalTone <==> memory.conversationStyle.formal
    ensures SlotsFor(name, interests, memory).messageStyle
            == if memory.conversationStyle.avgLength > 100.0 then LongStyle else ShortStyle
    ensures SlotsFor(name, interests, memory).emojis
            == if memory.conversationStyle.usesEmoji then EmojiLover else NoEmoji
    ensures SlotsFor(name, interests, memory).tone
            == if memory.conversationStyle.formal then FormalTone else CasualTone
    ensures SlotsFor(name, interests, memory).userName == (if name == "" then Unknown else name)
    ensures SlotsFor(name, interests, memory).interests == (if interests == "" then Unknown else interests)
    ensures memory.topics == [] ==> SlotsFor(name, interests, memory).topTopics == NoTopicsYet
    ensures memory.likedThings == [] ==> SlotsFor(name, interests, memory).liked == NothingKnownYet
    ensures memory.dislikedThings == [] ==> SlotsFor(name, interests, memory).disliked == NothingKnownYet
    ensures memory.mentionedNames == [] ==> SlotsFor(name, interests, memory).mentioned == NoNamesYet
  {
    assert LongStyle != ShortStyle;
    assert EmojiLover != NoEmoji;
    assert FormalTone != CasualTone;
  }

  const PromptIntro: string :=
    "Sen AIVA adında Türkçe konuşan yardımcı ve cana yakın bir yapay zekasın.\n\nKULLANICI BİLGİLERİ:\nKullanıcının adı: "

  const PromptRules: string :=
    " bir kullanıcı ile konuşuyorsun.\n\nYANITLAMA TARZI:\n1. Sohbeti doğal ve samimi tut. Gerçek bir arkadaş gibi davran.\n2. Kullanıcının ilgi alanlarına ve sık konuştuğu konulara atıfta bulun.\n3. Bahsettiği kişileri hatırla ve sohbette kullan.\n4. Kullanıcının tarzına uygun yanıtlar ver ("

  const PromptClosing: string :=
    ").\n5. Cevaplarını kısa (1-3 cümle) ve Türkçe olarak ver.\n6. Arada kullanıcının adını kullanarak hitap et.\n7. Önceki konuşmalardan öğrendiğin bilgileri kullan.\n\nKullanıcının yazdıklarını doğru anladığını göster ve empati kur. Her zaman yardımsever, bilgilendirici ve arkadaşça ol."

  /** The fixed text of the prompt around its slots. */
  datatype Wording = Wording(intro: string, styleHeader: string, rules: string, closing: string)

  const PromptWording: Wording := Wording(PromptIntro, "\n\nKONUŞMA TARZI:\n", PromptRules, PromptClosing)

  /** The three style phrases, comma separated. */
  function StyleSummary(p: PromptSlots): string {
    p.messageStyle + ", " + p.emojis + ", " + p.tone
  }

  /** The profile lines after the user's name. */
  function ProfileLines(p: PromptSlots): string {
    "\nİlgi alanları: " + p.interests
    + "\nEn çok konuştuğu konular: " + p.topTopics
    + "\nSevdiği şeyler: " + p.liked
    + "\nSevmediği şeyler: " + p.disliked
    + "\nBahsettiği kişiler: " + p.mentioned
  }

  /** The style section, which names the style summary twice. */
  function StyleLines(w: Wording, p: PromptSlots): string {
    w.styleHeader + StyleSummary(p) + w.rules + StyleSummary(p) + w.closing
  }

  /** The prompt with its slots filled in: it opens with the introduction
      and the user's name, and it states the style summary. */
  function RenderPrompt(w: Wording, p: PromptSlots): (r: string)
    ensures |w.intro| + |p.userName| <= |r|
    ensures r[..|w.intro| + |p.userName|] == w.intro + p.userName
    ensures Contains(r, StyleSummary(p))
  {
    RenderPromptShape(w, p, w.intro + p.userName + ProfileLines(p));
    w.intro + p.userName + ProfileLines(p) + StyleLines(w, p)
  }

  lemma RenderPromptShape(w: Wording, p: PromptSlots, head: string)
    requires head == w.intro + p.userName + ProfileLines(p)
    ensures |w.intro| + |p.userName| <= |head + StyleLines(w, p)|
    ensures (head + StyleLines(w, p))[..|w.intro| + |p.userName|] == w.intro + p.userName
    ensures Contains(head + StyleLines(w, p), StyleSummary(p))
  {
    var r := head + StyleLines(w, p);
    StyleLinesShape(w, p);
    ContainsMiddle(head, StyleLines(w, p), "");
    assert r + "" == r;
    ContainsTransitive(r, StyleLines(w, p), StyleSummary(p));
    assert r[..|w.intro| + |p.userName|] == head[..|w.intro| + |p.userName|];
  }

  /** The style section contains the style summary. */
  lemma StyleLinesShape(w: Wording, p: PromptSlots)
    ensures Contains(StyleLines(w, p), StyleSummary(p))
  {
    var x := StyleSummary(p);
    ContainsMiddle(w.styleHeader, x, "");
    assert w.styleHeader + x + "" == w.styleHeader + x;
    ContainsExtend(w.styleHeader + x, x, w.rules);
    ContainsExtend(w.styleHeader + x + w.rules, x, x);
    ContainsExtend(w.styleHeader + x + w.rules + x, x, w.closing);
  }

  /** The style summary names each of its three phrases. */
  lemma StyleSummaryNames(p: PromptSlots)
    ensures Contains(StyleSummary(p), p.messageStyle)
    ensures Contains(StyleSummary(p), p.emojis)
    ensures Contains(StyleSummary(p), p.tone)
  {
    var s := StyleSummary(p);
    ContainsMiddle("", p.messageStyle, ", " + p.emojis + ", " + p.tone);
    assert "" + p.messageStyle + (", " + p.emojis + ", " + p.tone) == s;
    ContainsMiddle(p.messageStyle + ", ", p.emojis, ", " + p.tone);
    assert p.messageStyle + ", " + p.emojis + (", " + p.tone) == s;
    ContainsMiddle(p.messageStyle + ", " + p.emojis + ", ", p.tone, "");
    assert p.messageStyle + ", " + p.emojis + ", " + p.tone + "" == s;
  }

  /** The rendered prompt contains the user's name and each style phrase. */
  lemma PromptShows(w: Wording, p: PromptSlots)
    ensures Contains(RenderPrompt(w, p), p.userName)
    ensures Contains(RenderPrompt(w, p), p.messageStyle)
    ensures Contains(RenderPrompt(w, p), p.emojis)
    ensures Contains(RenderPrompt(w, p), p.tone)
  {
    var r := RenderPrompt(w, p);
    PrefixOccurs(r, w.intro, p.userName);
    StyleSummaryNames(p);
    ContainsTransitive(r, StyleSummary(p), p.messageStyle);
    ContainsTransitive(r, StyleSummary(p), p.emojis);
    ContainsTransitive(r, StyleSummary(p), p.tone);
  }

  /** `generatePersonalizedSystemMessage(name, interests, memory, history)`;
      the history argument is not read. The prompt names the user, or
      "Bilinmiyor", and states the three style phrases chosen by the
      memory. */
  function PersonalizedSystemMessage(name: string, interests: string, memory: UserMemory): (r: string)
    ensures Contains(r, if name == "" then Unknown else name)
    ensures Contains(r, if memory.conversationStyle.avgLength > 100.0 then LongStyle else ShortStyle)
    ensures Contains(r, if memory.conversationStyle.usesEmoji then EmojiLover else NoEmoji)
    ensures Contains(r, if memory.conversationStyle.formal then FormalTone else CasualTone)
  {
    var p := SlotsFor(name, interests, memory);
    SlotsForSpec(name, interests, memory);
    PromptShows(PromptWording, p);
    RenderPrompt(PromptWording, p)
  }

  // ---------------------------------------------------------------------
  // analyzeUserMessage

  /** The list actions `analyzeUserMessage` calls. */
  datatype ListKind = TopicKind | LikedKind | DislikedKind | NameKind

  /** One call into the memory store. */
  datatype MemoryCall = StyleCall(message: string) | ListCall(kind: ListKind, item: string)

  /** The memory after one call, with `count` conversations recorded and the
      clock reading `now`. */
  function ApplyCall(m: UserMemory, count: nat, now: Timestamp, c: MemoryCall): UserMemory {
    match c
    case StyleCall(msg) => MemUpdateStyle(m, count, msg)
    case ListCall(TopicKind, t) => MemAddTopic(m, t, now)
    case ListCall(LikedKind, x) => MemAddLiked(m, x)
    case ListCall(DislikedKind, x) => MemAddDisliked(m, x)
    case ListCall(NameKind, x) => MemAddName(m, x)
  }

  /** The memory after a run of calls, first to last. */
  function ApplyCalls(m: UserMemory, count: nat, now: Timestamp, cs: seq<MemoryCall>): UserMemory
    decreases |cs|
  {
    if cs == [] then m
    else ApplyCall(ApplyCalls(m, count, now, cs[..|cs| - 1]), count, now, cs[|cs| - 1])
  }

  /** One list action per item, in order. */
  function ListCalls(kind: ListKind, items: seq<string>): (cs: seq<MemoryCall>)
    ensures |cs| == |items| && forall k :: 0 <= k < |items| ==> cs[k] == ListCall(kind, items[k])
  {
    seq(|items|, k requires 0 <= k < |items| => ListCall(kind, items[k]))
  }

  /** The calls `analyzeUserMessage` makes: the style first, then every
      topic, every liked thing, every disliked thing, and every name. */
  function AnalysisCalls(message: string, lower: CaseMap, likeCaptures: seq<seq<string>>,
                         dislikeCaptures: seq<seq<string>>, nameMatches: seq<string>): seq<MemoryCall>
  {
    [StyleCall(message)]
    + ListCalls(TopicKind, TopicsIn(TopicKeywords, lower(message)))
    + ListCalls(LikedKind, CapturedAll(likeCaptures))
    + ListCalls(DislikedKind, CapturedAll(dislikeCaptures))
    + ListCalls(NameKind, ExtractNames(nameMatches))
  }

  lemma ApplyCallsSnoc(m: UserMemory, count: nat, now: Timestamp, cs: seq<MemoryCall>, c: MemoryCall)
    ensures ApplyCalls(m, count, now, cs + [c]) == ApplyCall(ApplyCalls(m, count, now, cs), count, now, c)
  {
    assert (cs + [c])[..|cs|] == cs;
  }

  lemma ListCallsSnoc(kind: ListKind, items: seq<string>, i: nat)
    requires i < |items|
    ensures ListCalls(kind, items[..i + 1]) == ListCalls(kind, items[..i]) + [ListCall(kind, items[i])]
  {
  }

  /** The calls of a list, one store action per item, appended to `done`. */
  method ApplyList(store: UserStore, kind: ListKind, items: seq<string>, now: Timestamp,
                   ghost m0: UserMemory, ghost done: seq<MemoryCall>)
    requires store.userMemory == ApplyCalls(m0, store.conversationCount, now, done)
    modifies store`userMemory
    ensures store.userMemory == ApplyCalls(m0, store.conversationCount, now, done + ListCalls(kind, items))
  {
    assert done + ListCalls(kind, items[..0]) == done;
    for i := 0 to |items|
      invariant store.userMemory == ApplyCalls(m0, store.conversationCount, now, done + ListCalls(kind, items[..i]))
    {
      var item := items[i];
      ListCallsSnoc(kind, items, i);
      assert done + ListCalls(kind, items[..i + 1]) == (done + ListCalls(kind, items[..i])) + [ListCall(kind, item)];
      ApplyCallsSnoc(m0, store.conversationCount, now, done + ListCalls(kind, items[..i]), ListCall(kind, item));
      ApplyListCall(store, kind, item, now);
    }
    assert items[..|items|] == items;
  }

  /** The one store action a list call makes. */
  method ApplyListCall(store: UserStore, kind: ListKind, item: string, now: Timestamp)
    modifies store`userMemory
    ensures store.userMemory == ApplyCall(old(store.userMemory), store.conversationCount, now, ListCall(kind, item))
  {
    match kind
    case TopicKind => store.AddTopic(item, now);
    case LikedKind => store.AddLikedThing(item);
    case DislikedKind => store.AddDislikedThing(item);
    case NameKind => store.AddMentionedName(item);
  }

  /** `analyzeUserMessage(message, store)`: update the style, then add each
      extracted topic, liked thing, disliked thing and name, in that order.
      The regex matches are inputs and every action uses the same clock
      reading `now`. */
  method AnalyzeUserMessage(store: UserStore, message: string, lower: CaseMap,
                            likeCaptures: seq<seq<string>>, dislikeCaptures: seq<seq<string>>,
                            nameMatches: seq<string>, now: Timestamp)
    modifies store`userMemory
    ensures store.userMemory
            == ApplyCalls(old(store.userMemory), store.conversationCount, now,
                          AnalysisCalls(message, lower, likeCaptures, dislikeCaptures, nameMatches))
  {
    ghost var m0 := store.userMemory;
    store.UpdateConversationStyle(message);
    ghost var done := [StyleCall(message)];
    assert done == [] + [StyleCall(message)];
    ApplyCallsSnoc(m0, store.conversationCount, now, [], StyleCall(message));

    var topics := ExtractTopics(message, lower);
    ApplyList(store, TopicKind, topics, now, m0, done);
    done := done + ListCalls(TopicKind, topics);

    var prefs := ExtractPreferences(likeCaptures, dislikeCaptures);
    ApplyList(store, LikedKind, prefs.liked, now, m0, done);
    done := done + ListCalls(LikedKind, prefs.liked);
    ApplyList(store, DislikedKind, prefs.disliked, now, m0, done);
    done := done + ListCalls(DislikedKind, prefs.disliked);

    var names := ExtractNames(nameMatches);
    ApplyList(store, NameKind, names, now, m0, done);
  }

  // ---------------------------------------------------------------------
  // what one analysis does to the memory

  lemma {:induction false} ApplyCallsConcat(m: UserMemory, count: nat, now: Timestamp, a: seq<MemoryCall>, b: seq<MemoryCall>)
    ensures ApplyCalls(m, count, now, a + b) == ApplyCalls(ApplyCalls(m, count, now, a), count, now, b)
    decreases |b|
  {
    if b == [] {
      assert a + b == a;
    } else {
      var n := |b| - 1;
      var ab := a + b;
      ApplyCallsConcat(m, count, now, a, b[..n]);
      assert ab[..|ab| - 1] == a + b[..n];
      assert ab[|ab| - 1] == b[n];
    }
  }

  /** Liked, disliked and name actions leave the topics and the style alone. */
  lemma {:induction false} OtherListsKeep(m: UserMemory, count: nat, now: Timestamp, kind: ListKind, items: seq<string>)
    requires kind != TopicKind
    ensures ApplyCalls(m, count, now, ListCalls(kind, items)).topics == m.topics
    ensures ApplyCalls(m, count, now, ListCalls(kind, items)).conversationStyle == m.conversationStyle
    decreases |items|
  {
    if items != [] {
      var n := |items| - 1;
      OtherListsKeep(m, count, now, kind, items[..n]);
      ListCallsSnoc(kind, items, n);
      ApplyCallsSnoc(m, count, now, ListCalls(kind, items[..n]), ListCall(kind, items[n]));
      assert items[..n + 1] == items;
    }
  }

  /** Adding distinct topics one by one raises each of their counts by one
      and leaves every other count and the style alone. */
  lemma {:induction false} TopicCallsCount(m: UserMemory, count: nat, now: Timestamp, topics: seq<string>, u: string)
    requires NoDup(topics)
    ensures CountOf(ApplyCalls(m, count, now, ListCalls(TopicKind, topics)).topics, u)
            == CountOf(m.topics, u) + (if u in topics then 1 else 0)
    ensures ApplyCalls(m, count, now, ListCalls(TopicKind, topics)).conversationStyle == m.conversationStyle
    decreases |topics|
  {
    if topics != [] {
      var n := |topics| - 1;
      var pre := topics[..n];
      TopicCallsCount(m, count, now, pre, u);
      ListCallsSnoc(TopicKind, topics, n);
      assert topics[..n + 1] == topics;
      ApplyCallsSnoc(m, count, now, ListCalls(TopicKind, pre), ListCall(TopicKind, topics[n]));
      var before := ApplyCalls(m, count, now, ListCalls(TopicKind, pre));
      assert u in topics <==> u in pre || u == topics[n];
      if u == topics[n] {
        assert u !in pre;
        BumpTopicCounts(before.topics, u);
      } else {
        BumpTopicKeepsOthers(before.topics, topics[n], u);
      }
    }
  }

  /** One analysis raises the count of every topic the message mentions by
      one, leaves all other counts alone, and advances the style exactly once
      with the message. */
  lemma AnalysisEffect(m: UserMemory, count: nat, now: Timestamp, message: string, lower: CaseMap,
                       likeCaptures: seq<seq<string>>, dislikeCaptures: seq<seq<string>>, nameMatches: seq<string>, u: string)
    ensures var after := ApplyCalls(m, count, now, AnalysisCalls(message, lower, likeCaptures, dislikeCaptures, nameMatches));
      && CountOf(after.topics, u) == CountOf(m.topics, u) + (if u in TopicsIn(TopicKeywords, lower(message)) then 1 else 0)
      && after.conversationStyle == NextStyle(m.conversationStyle, count, message)
  {
    var topics := TopicsIn(TopicKeywords, lower(message));
    var liked := CapturedAll(likeCaptures);
    var disliked := CapturedAll(dislikeCaptures);
    var c0 := [StyleCall(message)];
    var c1 := ListCalls(TopicKind, topics);
    var c2 := ListCalls(LikedKind, liked);
    var c3 := ListCalls(DislikedKind, disliked);
    var c4 := ListCalls(NameKind, ExtractNames(nameMatches));
    assert AnalysisCalls(message, lower, likeCaptures, dislikeCaptures, nameMatches) == c0 + c1 + c2 + c3 + c4;
    ApplyCallsConcat(m, count, now, c0 + c1 + c2 + c3, c4);
    ApplyCallsConcat(m, count, now, c0 + c1 + c2, c3);
    ApplyCallsConcat(m, count, now, c0 + c1, c2);
    ApplyCallsConcat(m, count, now, c0, c1);
    ApplyCallsSnoc(m, count, now, [], StyleCall(message));
    assert c0 == [] + [StyleCall(message)];
    var m0 := ApplyCalls(m, count, now, c0);
    assert m0 == MemUpdateStyle(m, count, message);
    TopicKeywordsWellFormed();
    TopicsInDistinct(TopicKeywords, lower(message));
    TopicCallsCount(m0, count, now, topics, u);
    var m1 := ApplyCalls(m0, count, now, c1);
    OtherListsKeep(m1, count, now, LikedKind, liked);
    var m2 := ApplyCalls(m1, count, now, c2);
    OtherListsKeep(m2, count, now, DislikedKind, disliked);
    var m3 := ApplyCalls(m2, count, now, c3);
    OtherListsKeep(m3, count, now, NameKind, ExtractNames(nameMatches));
  }
}
