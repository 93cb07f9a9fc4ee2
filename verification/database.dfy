/**
 * The conversation store: the `conversations` and `messages` tables of the
 * SQLite database, modelled as a map of conversation rows keyed by id and a
 * sequence of message rows in insertion (rowid) order.
 *
 * Timestamps are abstract integers ordered like the stored
 * "%Y-%m-%d %H:%M:%S" text; the clock reading is a parameter of every
 * operation that stamps a row. Costs are natural numbers in a fixed small
 * currency unit instead of SQLite REAL values, so sums are exact.
 */
module Database {
  import opened Wrappers
  import opened Sorting

  /** The name, system prompt and model of one bot, as stored in a conversation row. */
  datatype BotConfig = BotConfig(name: string, systemPrompt: string, model: string)

  /** A row of the `conversations` table. */
  datatype Conversation = Conversation(
    id: nat,
    timestamp: int,
    bot1: BotConfig,
    bot2: BotConfig,
    totalTokens: nat,
    totalCost: nat)

  /** A row of the `messages` table. */
  datatype Message = Message(
    id: nat,
    conversationId: nat,
    timestamp: int,
    botName: string,
    content: string,
    promptTokens: nat,
    completionTokens: nat,
    totalTokens: nat,
    cost: nat)

  /**
   * Both tables. `nextConversationId` and `nextMessageId` play the part of
   * SQLite's AUTOINCREMENT counters: a new row gets the counter's value and
   * ids are never handed out twice, even after deletion.
   */
  datatype Store = Store(
    conversations: map<nat, Conversation>,
    messages: seq<Message>,
    nextConversationId: nat,
    nextMessageId: nat)

  /** The numeric columns of a message row that get summed. */
  datatype Column = PromptTokens | CompletionTokens | TotalTokens | Cost

  function Get(m: Message, c: Column): nat {
    match c
    case PromptTokens => m.promptTokens
    case CompletionTokens => m.completionTokens
    case TotalTokens => m.totalTokens
    case Cost => m.cost
  }

  /** The sum of column `c` over the messages of conversation `cid`. */
  function Sum(ms: seq<Message>, cid: nat, c: Column): nat {
    if |ms| == 0 then 0
    else Sum(ms[..|ms| - 1], cid, c) + (if ms[|ms| - 1].conversationId == cid then Get(ms[|ms| - 1], c) else 0)
  }

  /** The sum of column `c` over the messages of conversation `cid` spoken by `name`. */
  function BotSum(ms: seq<Message>, cid: nat, name: string, c: Column): nat {
    if |ms| == 0 then 0
    else
      var m := ms[|ms| - 1];
      BotSum(ms[..|ms| - 1], cid, name, c) + (if m.conversationId == cid && m.botName == name then Get(m, c) else 0)
  }

  /** A conversation's stored totals equal the sums over its messages. */
  ghost predicate TotalsAgree(db: Store, id: nat)
    requires id in db.conversations
  {
    && db.conversations[id].totalTokens == Sum(db.messages, id, TotalTokens)
    && db.conversations[id].totalCost == Sum(db.messages, id, Cost)
  }

  /**
   * The store invariant: keys agree with ids, ids lie below the
   * AUTOINCREMENT counters, every message belongs to an existing
   * conversation, and every conversation's totals equal its message sums.
   */
  ghost predicate Valid(db: Store) {
    && IdsBelowCounter(db)
    && (forall i :: 0 <= i < |db.messages| ==>
          db.messages[i].conversationId in db.conversations && db.messages[i].id < db.nextMessageId)
    && (forall id :: id in db.conversations ==> TotalsAgree(db, id))
  }

  /**
   * The part of the invariant that AUTOINCREMENT keeps by itself, orphan
   * messages or not: keys agree with ids, and every id lies below the counter.
   */
  ghost predicate IdsBelowCounter(db: Store) {
    && 0 < db.nextConversationId
    && (forall id :: id in db.conversations ==> db.conversations[id].id == id && 0 < id < db.nextConversationId)
  }

  /** The empty database right after the tables are created. */
  function InitDb(): (db: Store)
    ensures Valid(db)
    ensures |db.conversations| == 0 && |db.messages| == 0
  {
    Store(map[], [], 1, 1)
  }

  // ---------------------------------------------------------------- create

  datatype Created = Created(db: Store, id: nat)

  /** Inserts a conversation row with zero totals and returns its id. */
  function CreateConversation(db: Store, bot1: BotConfig, bot2: BotConfig, now: int): (r: Created)
    ensures r.id in r.db.conversations
    ensures r.db.conversations[r.id] == Conversation(r.id, now, bot1, bot2, 0, 0)
    ensures r.db.messages == db.messages
    ensures r.id == db.nextConversationId < r.db.nextConversationId && r.db.nextMessageId == db.nextMessageId
    ensures r.db.conversations.Keys == db.conversations.Keys + {r.id}
    ensures IdsBelowCounter(db) ==> r.id !in db.conversations && IdsBelowCounter(r.db)
    ensures IdsBelowCounter(db) ==> forall id :: id in db.conversations ==> r.db.conversations[id] == db.conversations[id]
    ensures Valid(db) ==> Valid(r.db)
    ensures Valid(db) ==> MessagesOf(r.db.messages, r.id) == []
  {
    var id := db.nextConversationId;
    var db' := db.(conversations := db.conversations[id := Conversation(id, now, bot1, bot2, 0, 0)],
                   nextConversationId := id + 1);
    CreatePreservesValid(db, db', id, bot1, bot2, now);
    Created(db', id)
  }

  // ---------------------------------------------------------------- messages

  /** The messages of conversation `cid`, in insertion order. */
  function MessagesOf(ms: seq<Message>, cid: nat): (r: seq<Message>)
    ensures forall m :: m in r <==> m in ms && m.conversationId == cid
    ensures |r| <= |ms|
  {
    if |ms| == 0 then []
    else
      var m := ms[|ms| - 1];
      assert ms == ms[..|ms| - 1] + [m];
      MessagesOf(ms[..|ms| - 1], cid) + (if m.conversationId == cid then [m] else [])
  }

  /** Appends a row stamped `now`; the conversation table is not touched. */
  function AppendRow(db: Store, cid: nat, botName: string, content: string,
                     promptTokens: nat, completionTokens: nat, totalTokens: nat, cost: nat, now: int): Store
  {
    db.(messages := db.messages + [Message(db.nextMessageId, cid, now, botName, content,
                                           promptTokens, completionTokens, totalTokens, cost)],
        nextMessageId := db.nextMessageId + 1)
  }

  /**
   * `add_message` as written: stores a row with all token and cost columns
   * at their zero defaults. The foreign key is not enforced, so an unknown
   * conversation id is stored as well.
   */
  function AddMessage(db: Store, cid: nat, botName: string, content: string, now: int): (r: Store)
    ensures |r.messages| == |db.messages| + 1 && r.messages[..|db.messages|] == db.messages
    ensures var m := r.messages[|db.messages|];
      m.conversationId == cid && m.botName == botName && m.content == content && m.timestamp == now
      && m.promptTokens == 0 && m.completionTokens == 0 && m.totalTokens == 0 && m.cost == 0
    ensures r.messages[|db.messages|].id == db.nextMessageId < r.nextMessageId
    ensures r.conversations == db.conversations && r.nextConversationId == db.nextConversationId
    ensures IdsBelowCounter(db) ==> IdsBelowCounter(r)
    ensures cid in db.conversations && Valid(db) ==> Valid(r)
  {
    var r := AppendRow(db, cid, botName, content, 0, 0, 0, 0, now);
    assert r.messages[..|db.messages|] == db.messages;
    AppendPreservesValid(db, cid, botName, content, 0, 0, 0, 0, now);
    r
  }

  /**
   * `add_message_with_tokens` as written: stores a row whose total is the
   * sum of prompt and completion tokens and adds total and cost to the
   * conversation row, if there is one (an UPDATE that matches no row
   * changes nothing, and the message row is stored regardless).
   */
  function AddMessageWithTokens(db: Store, cid: nat, botName: string, content: string,
                                promptTokens: nat, completionTokens: nat, cost: nat, now: int): (r: Store)
    ensures |r.messages| == |db.messages| + 1 && r.messages[..|db.messages|] == db.messages
    ensures var m := r.messages[|db.messages|];
      m.conversationId == cid && m.botName == botName && m.content == content && m.timestamp == now
      && m.promptTokens == promptTokens && m.completionTokens == completionTokens
      && m.totalTokens == promptTokens + completionTokens && m.cost == cost
    ensures r.messages[|db.messages|].id == db.nextMessageId < r.nextMessageId
    ensures r.nextConversationId == db.nextConversationId
    ensures IdsBelowCounter(db) ==> IdsBelowCounter(r)
    ensures r.conversations.Keys == db.conversations.Keys
    ensures forall id :: id in db.conversations && id != cid ==> r.conversations[id] == db.conversations[id]
    ensures cid in db.conversations ==>
      var (c, c') := (db.conversations[cid], r.conversations[cid]);
      c' == c.(totalTokens := c.totalTokens + promptTokens + completionTokens, totalCost := c.totalCost + cost)
    ensures cid in db.conversations && Valid(db) ==> Valid(r)
  {
    var total := promptTokens + completionTokens;
    var appended := AppendRow(db, cid, botName, content, promptTokens, completionTokens, total, cost, now);
    assert appended.messages[..|db.messages|] == db.messages;
    if cid in db.conversations then
      var c := db.conversations[cid];
      var r := appended.(conversations := db.conversations[cid := c.(totalTokens := c.totalTokens + total,
                                                                      totalCost := c.totalCost + cost)]);
      AppendPreservesValid(db, cid, botName, content, promptTokens, completionTokens, total, cost, now);
      r
    else
      appended
  }

  /** `add_message` restricted to existing conversations; `None` leaves the store untouched. */
  function AddMessageChecked(db: Store, cid: nat, botName: string, content: string, now: int): (r: Option<Store>)
    ensures r.None? <==> cid !in db.conversations
    ensures r.Some? ==> r.value == AddMessage(db, cid, botName, content, now)
    ensures r.Some? && Valid(db) ==> Valid(r.value)
  {
    if cid in db.conversations then Some(AddMessage(db, cid, botName, content, now)) else None
  }

  /** `add_message_with_tokens` restricted to existing conversations. */
  function AddMessageWithTokensChecked(db: Store, cid: nat, botName: string, content: string,
                                       promptTokens: nat, completionTokens: nat, cost: nat, now: int): (r: Option<Store>)
    ensures r.None? <==> cid !in db.conversations
    ensures r.Some? ==> r.value == AddMessageWithTokens(db, cid, botName, content, promptTokens, completionTokens, cost, now)
    ensures r.Some? && Valid(db) ==> Valid(r.value)
  {
    if cid in db.conversations
    then Some(AddMessageWithTokens(db, cid, botName, content, promptTokens, completionTokens, cost, now))
    else None
  }

  /**
   * Tokens recorded against an id that no conversation holds yet stay in the
   * message table; the conversation that later receives that id starts with
   * zero totals while its messages already sum to seven tokens.
   */
  lemma OrphanTokensBreakTotals()
    ensures var db := AddMessageWithTokens(InitDb(), 1, "Bot 1", "hi", 3, 4, 5, 0);
      var c := CreateConversation(db, BotConfig("Bot 1", "", ""), BotConfig("Bot 2", "", ""), 1);
      && c.id == 1
      && c.db.conversations[c.id].totalTokens == 0
      && Sum(c.db.messages, c.id, TotalTokens) == 7
      && !TotalsAgree(c.db, c.id)
  {
  }

  /**
   * A message stored for an id that no conversation holds yet is listed
   * under the conversation that later receives that id, so that
   * conversation does not start empty.
   */
  lemma OrphanMessageAdoptedByNewConversation()
    ensures var db := AddMessage(InitDb(), 1, "Bot 1", "hi", 0);
      var c := CreateConversation(db, BotConfig("Bot 1", "", ""), BotConfig("Bot 2", "", ""), 1);
      c.id == 1 && |GetMessages(c.db, c.id)| == 1
  {
  }

  // ---------------------------------------------------------------- queries

  /** `get_conversation_by_id`: the row, or `None` when no row has that id. */
  function GetConversationById(db: Store, cid: nat): (r: Option<Conversation>)
    ensures r.Some? <==> cid in db.conversations
    ensures r.Some? ==> r.value == db.conversations[cid]
    ensures IdsBelowCounter(db) && r.Some? ==> r.value.id == cid
  {
    if cid in db.conversations then Some(db.conversations[cid]) else None
  }

  function MessageTime(m: Message): int { m.timestamp }

  /** `get_messages_by_conversation_id`: the conversation's messages, oldest first. */
  function GetMessages(db: Store, cid: nat): (r: seq<Message>)
    ensures forall m :: m in r <==> m in db.messages && m.conversationId == cid
    ensures multiset(r) == multiset(MessagesOf(db.messages, cid))
    ensures forall i, j :: 0 <= i < j < |r| ==> r[i].timestamp <= r[j].timestamp
  {
    var r := SortBy(MessagesOf(db.messages, cid), MessageTime);
    assert forall m :: m in r <==> m in multiset(r);
    assert forall m :: m in MessagesOf(db.messages, cid) <==> m in multiset(MessagesOf(db.messages, cid));
    assert forall i, j :: 0 <= i < j < |r| ==> MessageTime(r[i]) <= MessageTime(r[j]);
    r
  }

  /**
   * When the clock never ran backwards while a conversation's messages were
   * stored, the listing returns them in the order they were stored.
   */
  lemma GetMessagesInStoredOrder(db: Store, cid: nat)
    requires forall i, j :: 0 <= i < j < |db.messages| ==> db.messages[i].timestamp <= db.messages[j].timestamp
    ensures GetMessages(db, cid) == MessagesOf(db.messages, cid)
  {
    MessagesOfKeepsOrder(db.messages, cid);
    SortBySorted(MessagesOf(db.messages, cid), MessageTime);
  }

  lemma {:induction false} MessagesOfKeepsOrder(ms: seq<Message>, cid: nat)
    requires forall i, j :: 0 <= i < j < |ms| ==> ms[i].timestamp <= ms[j].timestamp
    ensures SortedBy(MessagesOf(ms, cid), MessageTime)
  {
    if |ms| > 0 {
      var prefix := ms[..|ms| - 1];
      var m := ms[|ms| - 1];
      MessagesOfKeepsOrder(prefix, cid);
      var r := MessagesOf(prefix, cid);
      if m.conversationId == cid {
        forall x | x in r ensures x.timestamp <= m.timestamp {
          var k :| 0 <= k < |prefix| && prefix[k] == x;
        }
        assert forall i :: 0 <= i < |r| ==> r[i] in r;
      }
    }
  }

  /** The conversation rows with ids in [lo, hi), in id order. */
  function RowsFrom(convs: map<nat, Conversation>, lo: nat, hi: nat): (r: seq<Conversation>)
    ensures forall id :: lo <= id < hi && id in convs ==> convs[id] in r
    ensures forall c :: c in r ==> exists id :: lo <= id < hi && id in convs && convs[id] == c
    decreases hi - lo
  {
    if lo >= hi then []
    else
      var rest := RowsFrom(convs, lo + 1, hi);
      if lo in convs then [convs[lo]] + rest else rest
  }

  function NegatedTime(c: Conversation): int { -c.timestamp }

  /** `get_all_conversations`: every conversation row, newest first. */
  function GetAllConversations(db: Store): (r: seq<Conversation>)
    ensures forall c :: c in r ==> exists id :: id in db.conversations && db.conversations[id] == c
    ensures IdsBelowCounter(db) ==> forall id :: id in db.conversations ==> db.conversations[id] in r
    ensures forall i, j :: 0 <= i < j < |r| ==> r[i].timestamp >= r[j].timestamp
  {
    var rows := RowsFrom(db.conversations, 0, db.nextConversationId);
    var r := SortBy(rows, NegatedTime);
    SortByKeepsMembers(rows, NegatedTime);
    assert forall i, j :: 0 <= i < j < |r| ==> NegatedTime(r[i]) <= NegatedTime(r[j]);
    r
  }

  // ---------------------------------------------------------------- token stats

  datatype BotTotals = BotTotals(promptTokens: nat, completionTokens: nat, totalTokens: nat, cost: nat)

  /** Column `c` of a bot's totals. */
  function Of(t: BotTotals, c: Column): nat {
    match c
    case PromptTokens => t.promptTokens
    case CompletionTokens => t.completionTokens
    case TotalTokens => t.totalTokens
    case Cost => t.cost
  }

  datatype TokenStats = TokenStats(totalTokens: nat, totalCost: nat, botStats: map<string, BotTotals>)

  /** The bot names that have at least one message in conversation `cid`. */
  function Speakers(ms: seq<Message>, cid: nat): (r: set<string>)
    ensures forall i :: 0 <= i < |ms| && ms[i].conversationId == cid ==> ms[i].botName in r
    ensures forall name :: name in r ==> exists i :: 0 <= i < |ms| && ms[i].conversationId == cid && ms[i].botName == name
  {
    if |ms| == 0 then {}
    else
      var m := ms[|ms| - 1];
      var prefix := ms[..|ms| - 1];
      var rest := Speakers(prefix, cid);
      assert forall i :: 0 <= i < |prefix| ==> prefix[i] == ms[i];
      if m.conversationId == cid then rest + {m.botName} else rest
  }

  /** One group of the per-bot `GROUP BY bot_name` query. */
  function TotalsOf(ms: seq<Message>, cid: nat, name: string): BotTotals {
    BotTotals(BotSum(ms, cid, name, PromptTokens), BotSum(ms, cid, name, CompletionTokens),
              BotSum(ms, cid, name, TotalTokens), BotSum(ms, cid, name, Cost))
  }

  /**
   * `get_conversation_token_stats`: `None` for an unknown id; otherwise the
   * stored totals and one entry per bot that spoke in the conversation.
   */
  function GetConversationTokenStats(db: Store, cid: nat): (r: Option<TokenStats>)
    ensures r.None? <==> cid !in db.conversations
    ensures r.Some? ==>
      && r.value.totalTokens == db.conversations[cid].totalTokens
      && r.value.totalCost == db.conversations[cid].totalCost
    ensures r.Some? ==> forall name :: name in r.value.botStats <==>
      exists i :: 0 <= i < |db.messages| && db.messages[i].conversationId == cid && db.messages[i].botName == name
    ensures r.Some? ==> forall name :: name in r.value.botStats ==>
      r.value.botStats[name] == BotTotals(BotSum(db.messages, cid, name, PromptTokens),
                                          BotSum(db.messages, cid, name, CompletionTokens),
                                          BotSum(db.messages, cid, name, TotalTokens),
                                          BotSum(db.messages, cid, name, Cost))
    ensures r.Some? && Valid(db) ==>
      r.value.totalTokens == Sum(db.messages, cid, TotalTokens) && r.value.totalCost == Sum(db.messages, cid, Cost)
  {
    if cid !in db.conversations then None
    else
      var c := db.conversations[cid];
      var names := Speakers(db.messages, cid);
      Some(TokenStats(c.totalTokens, c.totalCost, map name | name in names :: TotalsOf(db.messages, cid, name)))
  }

  /** Sum of column `c` over the given bots' per-bot sums. */
  function SumOverBots(names: seq<string>, ms: seq<Message>, cid: nat, c: Column): nat {
    if |names| == 0 then 0 else BotSum(ms, cid, names[0], c) + SumOverBots(names[1..], ms, cid, c)
  }

  predicate Distinct<T(==)>(s: seq<T>) {
    forall i, j :: 0 <= i < j < |s| ==> s[i] != s[j]
  }

  /** Adding one message to the log adds its value to exactly one bot's sum, if that bot is listed. */
  lemma {:induction false} SumOverBotsSnoc(names: seq<string>, ms: seq<Message>, m: Message, cid: nat, c: Column)
    requires Distinct(names)
    ensures SumOverBots(names, ms + [m], cid, c)
         == SumOverBots(names, ms, cid, c) + (if m.conversationId == cid && m.botName in names then Get(m, c) else 0)
  {
    if |names| > 0 {
      assert (ms + [m])[..|ms + [m]| - 1] == ms;
      assert Distinct(names[1..]);
      SumOverBotsSnoc(names[1..], ms, m, cid, c);
      assert names == [names[0]] + names[1..];
      assert m.botName == names[0] ==> m.botName !in names[1..];
    }
  }

  /** Grouping by bot loses nothing: per-bot sums over all speakers add up to the conversation's sum. */
  lemma {:induction false} SumOverBotsIsSum(names: seq<string>, ms: seq<Message>, cid: nat, c: Column)
    requires Distinct(names)
    requires forall i :: 0 <= i < |ms| && ms[i].conversationId == cid ==> ms[i].botName in names
    ensures SumOverBots(names, ms, cid, c) == Sum(ms, cid, c)
  {
    if |ms| == 0 {
      SumOverBotsEmpty(names, cid, c);
    } else {
      var prefix := ms[..|ms| - 1];
      var m := ms[|ms| - 1];
      assert ms == prefix + [m];
      assert forall i :: 0 <= i < |prefix| ==> prefix[i] == ms[i];
      SumOverBotsIsSum(names, prefix, cid, c);
      SumOverBotsSnoc(names, prefix, m, cid, c);
    }
  }

  lemma {:induction false} SumOverBotsEmpty(names: seq<string>, cid: nat, c: Column)
    ensures SumOverBots(names, [], cid, c) == 0
  {
    if |names| > 0 {
      SumOverBotsEmpty(names[1..], cid, c);
    }
  }

  /** Sum of one column of the per-bot statistics, over the listed bots. */
  function StatsSum(stats: map<string, BotTotals>, names: seq<string>, c: Column): nat
    requires forall i :: 0 <= i < |names| ==> names[i] in stats
  {
    if |names| == 0 then 0
    else
      Of(stats[names[0]], c) + StatsSum(stats, names[1..], c)
  }

  lemma {:induction false} StatsSumIsSumOverBots(db: Store, cid: nat, stats: map<string, BotTotals>, names: seq<string>, c: Column)
    requires forall i :: 0 <= i < |names| ==> names[i] in stats
    requires forall i :: 0 <= i < |names| ==> stats[names[i]] == TotalsOf(db.messages, cid, names[i])
    ensures StatsSum(stats, names, c) == SumOverBots(names, db.messages, cid, c)
  {
    if |names| > 0 {
      StatsSumIsSumOverBots(db, cid, stats, names[1..], c);
    }
  }

  /**
   * In a valid store, the per-bot statistics, listed in any order without
   * repetition, add up to the conversation's stored totals.
   */
  lemma PerBotStatsAddUp(db: Store, cid: nat, names: seq<string>)
    requires Valid(db) && cid in db.conversations
    requires Distinct(names)
    requires forall name :: name in names <==> name in GetConversationTokenStats(db, cid).value.botStats
    ensures var s := GetConversationTokenStats(db, cid).value;
      StatsSum(s.botStats, names, TotalTokens) == s.totalTokens && StatsSum(s.botStats, names, Cost) == s.totalCost
  {
    var s := GetConversationTokenStats(db, cid).value;
    forall i | 0 <= i < |names|
      ensures names[i] in s.botStats && s.botStats[names[i]] == TotalsOf(db.messages, cid, names[i])
    {
      assert names[i] in names;
    }
    forall i | 0 <= i < |db.messages| && db.messages[i].conversationId == cid
      ensures db.messages[i].botName in names
    {
    }
    StatsSumIsSumOverBots(db, cid, s.botStats, names, TotalTokens);
    StatsSumIsSumOverBots(db, cid, s.botStats, names, Cost);
    SumOverBotsIsSum(names, db.messages, cid, TotalTokens);
    SumOverBotsIsSum(names, db.messages, cid, Cost);
  }

  // ---------------------------------------------------------------- update prompts

  /**
   * `update_bot_system_prompts`: sets exactly the prompts given (not `None`)
   * on conversation `cid`; with neither given, nothing is executed.
   */
  function UpdateBotSystemPrompts(db: Store, cid: nat, prompt1: Option<string>, prompt2: Option<string>): (r: Store)
    ensures prompt1.None? && prompt2.None? ==> r == db
    ensures r.messages == db.messages && r.nextConversationId == db.nextConversationId && r.nextMessageId == db.nextMessageId
    ensures r.conversations.Keys == db.conversations.Keys
    ensures forall id :: id in db.conversations && id != cid ==> r.conversations[id] == db.conversations[id]
    ensures cid in db.conversations ==>
      var (c, c') := (db.conversations[cid], r.conversations[cid]);
      && c'.bot1 == c.bot1.(systemPrompt := prompt1.GetOr(c.bot1.systemPrompt))
      && c'.bot2 == c.bot2.(systemPrompt := prompt2.GetOr(c.bot2.systemPrompt))
      && c'.(bot1 := c.bot1, bot2 := c.bot2) == c
    ensures IdsBelowCounter(db) ==> IdsBelowCounter(r)
    ensures Valid(db) ==> Valid(r)
  {
    if (prompt1.None? && prompt2.None?) || cid !in db.conversations then db
    else
      var c := db.conversations[cid];
      var c' := c.(bot1 := c.bot1.(systemPrompt := prompt1.GetOr(c.bot1.systemPrompt)),
                   bot2 := c.bot2.(systemPrompt := prompt2.GetOr(c.bot2.systemPrompt)));
      db.(conversations := db.conversations[cid := c'])
  }

  // ---------------------------------------------------------------- delete

  datatype Deleted = Deleted(db: Store, success: bool)

  /** The messages not belonging to conversation `cid`, in order. */
  function Without(ms: seq<Message>, cid: nat): (r: seq<Message>)
    ensures forall m :: m in r <==> m in ms && m.conversationId != cid
  {
    if |ms| == 0 then []
    else
      var m := ms[|ms| - 1];
      assert ms == ms[..|ms| - 1] + [m];
      Without(ms[..|ms| - 1], cid) + (if m.conversationId != cid then [m] else [])
  }

  /**
   * `delete_conversation`: deletes the messages and then the row inside one
   * transaction. `fails` says whether the database raised inside it, in
   * which case the transaction is rolled back.
   */
  function DeleteConversation(db: Store, cid: nat, fails: bool): (r: Deleted)
    ensures r.success <==> !fails
    ensures !r.success ==> r.db == db
    ensures r.db.nextConversationId == db.nextConversationId && r.db.nextMessageId == db.nextMessageId
    ensures r.success ==> cid !in r.db.conversations && forall m :: m in r.db.messages ==> m.conversationId != cid
    ensures r.success ==> r.db.conversations.Keys == db.conversations.Keys - {cid}
    ensures r.success ==> forall id :: id in r.db.conversations ==> r.db.conversations[id] == db.conversations[id]
    ensures r.success ==> forall id :: id != cid ==> MessagesOf(r.db.messages, id) == MessagesOf(db.messages, id)
    ensures IdsBelowCounter(db) ==> IdsBelowCounter(r.db)
    ensures Valid(db) ==> Valid(r.db)
  {
    if fails then Deleted(db, false)
    else
      var db' := db.(conversations := db.conversations - {cid}, messages := Without(db.messages, cid));
      forall id | id != cid ensures MessagesOf(db'.messages, id) == MessagesOf(db.messages, id) {
        WithoutKeepsOthers(db.messages, cid, id);
      }
      DeletePreservesValid(db, cid);
      Deleted(db', true)
  }

  /**
   * AUTOINCREMENT never hands an id out twice: with ids below the counter
   * (orphan messages or not), a conversation created after a delete gets an
   * id that no conversation held before it, the deleted one included.
   */
  lemma DeletedIdNotReused(db: Store, cid: nat, fails: bool, bot1: BotConfig, bot2: BotConfig, now: int)
    requires IdsBelowCounter(db)
    ensures var c := CreateConversation(DeleteConversation(db, cid, fails).db, bot1, bot2, now);
      c.id !in db.conversations && db.nextConversationId <= c.id
  {
  }

  // ---------------------------------------------------------------- helper lemmas

  lemma {:induction false} WithoutKeepsOthers(ms: seq<Message>, cid: nat, id: nat)
    requires id != cid
    ensures MessagesOf(Without(ms, cid), id) == MessagesOf(ms, id)
  {
    if |ms| > 0 {
      var prefix := ms[..|ms| - 1];
      var m := ms[|ms| - 1];
      WithoutKeepsOthers(prefix, cid, id);
      var w := Without(prefix, cid);
      if m.conversationId != cid {
        assert Without(ms, cid) == w + [m];
        assert (w + [m])[..|w + [m]| - 1] == w;
      } else {
        assert Without(ms, cid) == w;
      }
    }
  }

  lemma {:induction false} WithoutKeepsSums(ms: seq<Message>, cid: nat, id: nat, c: Column)
    requires id != cid
    ensures Sum(Without(ms, cid), id, c) == Sum(ms, id, c)
  {
    if |ms| > 0 {
      var prefix := ms[..|ms| - 1];
      var m := ms[|ms| - 1];
      WithoutKeepsSums(prefix, cid, id, c);
      var w := Without(prefix, cid);
      if m.conversationId != cid {
        assert Without(ms, cid) == w + [m];
        assert (w + [m])[..|w + [m]| - 1] == w;
      } else {
        assert Without(ms, cid) == w;
      }
    }
  }

  lemma {:induction false} SumOfAbsent(ms: seq<Message>, cid: nat, c: Column)
    requires forall i :: 0 <= i < |ms| ==> ms[i].conversationId != cid
    ensures Sum(ms, cid, c) == 0
  {
    if |ms| > 0 {
      SumOfAbsent(ms[..|ms| - 1], cid, c);
    }
  }

  lemma NoMessagesOfUnknown(db: Store, cid: nat)
    requires Valid(db) && cid !in db.conversations
    ensures forall i :: 0 <= i < |db.messages| ==> db.messages[i].conversationId != cid
    ensures MessagesOf(db.messages, cid) == []
  {
    MessagesOfAbsent(db.messages, cid);
  }

  lemma {:induction false} MessagesOfAbsent(ms: seq<Message>, cid: nat)
    requires forall i :: 0 <= i < |ms| ==> ms[i].conversationId != cid
    ensures MessagesOf(ms, cid) == []
  {
    if |ms| > 0 {
      MessagesOfAbsent(ms[..|ms| - 1], cid);
    }
  }

  /** The id handed out next is unused, so the new row's zero totals agree with its (absent) messages. */
  lemma CreatePreservesValid(db: Store, db': Store, id: nat, bot1: BotConfig, bot2: BotConfig, now: int)
    requires id == db.nextConversationId
    requires db' == db.(conversations := db.conversations[id := Conversation(id, now, bot1, bot2, 0, 0)],
                        nextConversationId := id + 1)
    ensures Valid(db) ==> id !in db.conversations && Valid(db') && MessagesOf(db'.messages, id) == []
  {
    if Valid(db) {
      NoMessagesOfUnknown(db, id);
      SumOfAbsent(db.messages, id, TotalTokens);
      SumOfAbsent(db.messages, id, Cost);
    }
  }

  /** Appending a row adds its columns to its own conversation's sums and to no other. */
  lemma AppendPreservesValid(db: Store, cid: nat, botName: string, content: string,
                             promptTokens: nat, completionTokens: nat, totalTokens: nat, cost: nat, now: int)
    ensures var r := AppendRow(db, cid, botName, content, promptTokens, completionTokens, totalTokens, cost, now);
      Valid(db) && cid in db.conversations ==>
      && (totalTokens == 0 && cost == 0 ==> Valid(r))
      && (var c := db.conversations[cid];
          Valid(r.(conversations := db.conversations[cid := c.(totalTokens := c.totalTokens + totalTokens,
                                                               totalCost := c.totalCost + cost)])))
  {
    var r := AppendRow(db, cid, botName, content, promptTokens, completionTokens, totalTokens, cost, now);
    assert r.messages[..|r.messages| - 1] == db.messages;
  }

  /** Deleting one conversation's rows leaves every other conversation's sums as they were. */
  lemma DeletePreservesValid(db: Store, cid: nat)
    ensures Valid(db) ==> Valid(db.(conversations := db.conversations - {cid}, messages := Without(db.messages, cid)))
  {
    var db' := db.(conversations := db.conversations - {cid}, messages := Without(db.messages, cid));
    if Valid(db) {
      forall id | id in db'.conversations ensures TotalsAgree(db', id) {
        WithoutKeepsSums(db.messages, cid, id, TotalTokens);
        WithoutKeepsSums(db.messages, cid, id, Cost);
      }
      assert forall i :: 0 <= i < |db'.messages| ==> db'.messages[i] in db.messages;
    }
  }
}
