/**
 * The socket handlers of the server and the plain-text export: the global
 * `conversation_active` flag, the conversation thread and the current
 * conversation id, over the store and the turn loop.
 *
 * The thread is a value: `Some(run)` while it is alive, holding the
 * arguments it was started with and its loop state. Each handler and each
 * loop iteration is one atomic transition of `App`.
 */
module Server {
  import opened Wrappers
  import opened Database
  import opened Engine

  /** The conversation thread: its arguments and its local loop state. */
  datatype Run = Run(conversationId: nat, bot1: BotConfig, bot2: BotConfig, turn: TurnState)

  /** The module globals and the database. */
  datatype App = App(active: bool, thread: Option<Run>, conversationId: Option<nat>, db: Store)

  /** A handler's acknowledgement. */
  datatype Ack = Started(conversationId: nat) | Success(message: string) | Error(message: string)

  datatype Handled = Handled(ack: Ack, app: App)

  /** The fields of a `start_conversation` request; `None` is a missing key. */
  datatype StartRequest = StartRequest(
    bot1Name: Option<string>, bot1SystemPrompt: Option<string>, bot1Model: Option<string>,
    bot2Name: Option<string>, bot2SystemPrompt: Option<string>, bot2Model: Option<string>,
    initialMessage: Option<string>)

  const DefaultSystemPrompt: string := "You are a helpful AI assistant."
  const DefaultModel: string := "gpt-3.5-turbo"
  const DefaultInitialMessage: string := "Hello! Let's have a conversation."

  /**
   * The server at start-up over the database file as it is found: the
   * tables are created only if missing, so rows of earlier runs are kept.
   * No conversation is active and no thread runs.
   */
  function InitialApp(db: Store): (app: App)
    ensures !app.active && app.thread.None? && app.conversationId.None?
    ensures app.db == db
    ensures Valid(db) ==> AppValid(app)
  {
    App(false, None, None, db)
  }

  /** A first start on a fresh database file begins with empty tables. */
  lemma FirstStartIsEmpty()
    ensures var app := InitialApp(InitDb());
      AppValid(app) && |app.db.conversations| == 0 && |app.db.messages| == 0
  {
  }

  /** (bot name, content) of each stored message. */
  function Said(ms: seq<Message>): seq<(string, string)> {
    if |ms| == 0 then [] else Said(ms[..|ms| - 1]) + [(ms[|ms| - 1].botName, ms[|ms| - 1].content)]
  }

  /** (bot name, content) of each entry of the loop's log. */
  function Named(log: seq<Entry>, bot1: BotConfig, bot2: BotConfig): seq<(string, string)> {
    if |log| == 0 then []
    else Named(log[..|log| - 1], bot1, bot2) + [(Config(bot1, bot2, log[|log| - 1].speaker).name, log[|log| - 1].content)]
  }

  /** No message of conversation `cid` carries tokens or cost. */
  predicate TokenFree(ms: seq<Message>, cid: nat) {
    forall i :: 0 <= i < |ms| && ms[i].conversationId == cid ==> ms[i].totalTokens == 0 && ms[i].cost == 0
  }

  /**
   * The server invariant: the store is valid and, while the thread is alive,
   * its conversation exists, its loop state is reachable, and the stored
   * messages of its conversation are exactly its log, token free.
   */
  ghost predicate AppValid(app: App) {
    && Valid(app.db)
    && (app.thread.Some? ==>
          var r := app.thread.value;
          && app.conversationId == Some(r.conversationId)
          && r.conversationId in app.db.conversations
          && Reachable(r.turn, r.bot1, r.bot2)
          && Said(MessagesOf(app.db.messages, r.conversationId)) == Named(r.turn.log, r.bot1, r.bot2)
          && TokenFree(app.db.messages, r.conversationId))
  }

  /** Stores a message through the checked insert; the store is left as it is if the conversation is gone. */
  function StoreMessage(db: Store, cid: nat, botName: string, content: string, now: int): Store {
    AddMessageChecked(db, cid, botName, content, now).GetOr(db)
  }

  // ---------------------------------------------------------------- handlers

  /**
   * `start_conversation`: refused while the flag is set; otherwise creates
   * the conversation row with the request's settings (or their defaults),
   * sets the flag and starts the thread, whose first act is to store the
   * seed message under bot1's name. The row and the seed are stamped by two
   * separate clock readings, `now` and `seedNow`.
   */
  function StartConversation(app: App, req: StartRequest, now: int, seedNow: int): (r: Handled)
    ensures app.active ==> r == Handled(Error("Conversation already active"), app)
    ensures !app.active ==>
      && r.ack.Started?
      && r.app.active && r.app.thread.Some?
      && r.app.conversationId == Some(r.ack.conversationId)
      && r.app.db.conversations.Keys == app.db.conversations.Keys + {r.ack.conversationId}
      && r.app.thread.value.turn.log == [Entry(Bot1, req.initialMessage.GetOr(DefaultInitialMessage))]
    ensures !app.active ==>
      var bot1 := BotConfig(req.bot1Name.GetOr("Bot 1"), req.bot1SystemPrompt.GetOr(DefaultSystemPrompt),
                            req.bot1Model.GetOr(DefaultModel));
      var bot2 := BotConfig(req.bot2Name.GetOr("Bot 2"), req.bot2SystemPrompt.GetOr(DefaultSystemPrompt),
                            req.bot2Model.GetOr(DefaultModel));
      var id := r.ack.conversationId;
      && r.app.thread.value.conversationId == id
      && r.app.thread.value.bot1 == bot1 && r.app.thread.value.bot2 == bot2
      && id in r.app.db.conversations
      && r.app.db.conversations[id] == Conversation(id, now, bot1, bot2, 0, 0)
      && |r.app.db.messages| == |app.db.messages| + 1
      && r.app.db.messages[..|app.db.messages|] == app.db.messages
      && var m := r.app.db.messages[|app.db.messages|];
         m.conversationId == id && m.botName == bot1.name
         && m.content == req.initialMessage.GetOr(DefaultInitialMessage) && m.timestamp == seedNow
         && m.promptTokens == 0 && m.completionTokens == 0 && m.totalTokens == 0 && m.cost == 0
    ensures !app.active ==>
      var bot1 := BotConfig(req.bot1Name.GetOr("Bot 1"), req.bot1SystemPrompt.GetOr(DefaultSystemPrompt),
                            req.bot1Model.GetOr(DefaultModel));
      var bot2 := BotConfig(req.bot2Name.GetOr("Bot 2"), req.bot2SystemPrompt.GetOr(DefaultSystemPrompt),
                            req.bot2Model.GetOr(DefaultModel));
      var c := CreateConversation(app.db, bot1, bot2, now);
      && r.ack.conversationId == c.id
      && r.app.db == AddMessage(c.db, c.id, bot1.name, req.initialMessage.GetOr(DefaultInitialMessage), seedNow)
    ensures !app.active && Valid(app.db) ==>
      && r.ack.conversationId !in app.db.conversations
      && forall id :: id in app.db.conversations ==> r.app.db.conversations[id] == app.db.conversations[id]
    ensures AppValid(app) ==> AppValid(r.app)
  {
    if app.active then Handled(Error("Conversation already active"), app)
    else
      var bot1 := BotConfig(req.bot1Name.GetOr("Bot 1"), req.bot1SystemPrompt.GetOr(DefaultSystemPrompt),
                            req.bot1Model.GetOr(DefaultModel));
      var bot2 := BotConfig(req.bot2Name.GetOr("Bot 2"), req.bot2SystemPrompt.GetOr(DefaultSystemPrompt),
                            req.bot2Model.GetOr(DefaultModel));
      var seed := req.initialMessage.GetOr(DefaultInitialMessage);
      var c := CreateConversation(app.db, bot1, bot2, now);
      var db := StoreMessage(c.db, c.id, bot1.name, seed, seedNow);
      var app' := App(true, Some(Run(c.id, bot1, bot2, Begin(bot1, bot2, seed))), Some(c.id), db);
      StartPreservesValid(app, c, bot1, bot2, seed, now, seedNow, app');
      Handled(Started(c.id), app')
  }

  /** `pause_conversation`: clears the flag and nothing else; always succeeds. */
  function PauseConversation(app: App): (r: Handled)
    ensures r.ack == Success("Conversation paused")
    ensures !r.app.active && r.app.(active := app.active) == app
    ensures AppValid(app) ==> AppValid(r.app)
  {
    Handled(Success("Conversation paused"), app.(active := false))
  }

  /** The client went away: the flag is cleared as by a pause. */
  function Disconnect(app: App): (r: App)
    ensures !r.active && r.(active := app.active) == app
    ensures r == PauseConversation(app).app
  {
    app.(active := false)
  }

  /** `resume_conversation`: sets the flag if and only if the thread is still alive. */
  function ResumeConversation(app: App): (r: Handled)
    ensures r.ack.Success? <==> app.thread.Some?
    ensures app.thread.Some? ==> r.app.active && r.app.(active := app.active) == app
    ensures app.thread.None? ==> r == Handled(Error("No conversation to resume"), app)
    ensures AppValid(app) ==> AppValid(r.app)
  {
    if app.thread.Some? then Handled(Success("Conversation resumed"), app.(active := true))
    else Handled(Error("No conversation to resume"), app)
  }

  /**
   * `update_system_prompts`: refused while the flag is clear; otherwise
   * updates the stored prompts of the current conversation. The running
   * thread keeps the prompts it was started with.
   */
  function UpdateSystemPrompts(app: App, prompt1: Option<string>, prompt2: Option<string>): (r: Handled)
    ensures !app.active ==> r == Handled(Error("No active conversation to update"), app)
    ensures app.active ==> r.ack == Success("System prompts updated")
    ensures r.app.active == app.active && r.app.thread == app.thread && r.app.conversationId == app.conversationId
    ensures r.app.db.messages == app.db.messages && r.app.db.conversations.Keys == app.db.conversations.Keys
    ensures app.active && app.conversationId.Some? ==>
      r.app.db == UpdateBotSystemPrompts(app.db, app.conversationId.value, prompt1, prompt2)
    ensures app.conversationId.None? ==> r.app == app
    ensures AppValid(app) ==> AppValid(r.app)
  {
    if !app.active then Handled(Error("No active conversation to update"), app)
    else
      var db := match app.conversationId
        case None => app.db
        case Some(id) => UpdateBotSystemPrompts(app.db, id, prompt1, prompt2);
      var app' := app.(db := db);
      Handled(Success("System prompts updated"), app')
  }

  /**
   * One iteration of the thread's loop, with `outcome` the completion call's
   * result. The flag is read first: if it is clear the thread exits. A
   * failed call ends the thread but leaves the flag as it is. A reply is
   * stored under the responder's name.
   */
  function ThreadTick(app: App, outcome: Completion, now: int): (r: App)
    ensures app.thread.None? ==> r == app
    ensures r.active == app.active && r.conversationId == app.conversationId
    ensures app.thread.Some? && (!app.active || outcome.Failure?) ==> r == app.(thread := None)
    ensures app.thread.Some? && app.active && outcome.Reply? ==>
      var run := app.thread.value;
      && r.thread == Some(run.(turn := Step(run.turn, outcome).value))
      && (run.conversationId in app.db.conversations ==>
            r.db == AddMessage(app.db, run.conversationId, Config(run.bot1, run.bot2, Responder(run.turn)).name,
                               outcome.text, now))
    ensures AppValid(app) ==> AppValid(r)
  {
    match app.thread
    case None => app
    case Some(run) =>
      if !app.active then app.(thread := None)
      else
        match Step(run.turn, outcome)
        case None => app.(thread := None)
        case Some(turn) =>
          var name := Config(run.bot1, run.bot2, Responder(run.turn)).name;
          var r := app.(thread := Some(run.(turn := turn)), db := StoreMessage(app.db, run.conversationId, name, turn.message, now));
          TickPreservesValid(app, run, outcome, turn, name, now, r);
          r
  }

  // ---------------------------------------------------------------- properties

  /** Pausing twice is pausing once. */
  lemma PauseIdempotent(app: App)
    ensures PauseConversation(PauseConversation(app).app) == PauseConversation(app)
  {
  }

  /**
   * After a failed completion call the thread is gone but the flag stays
   * set: a new start is refused as "already active" and a resume is
   * refused for want of a thread, until a pause clears the flag.
   */
  lemma ErrorBlocksStartUntilPause(app: App, req: StartRequest, now: int, later: int)
    requires app.active && app.thread.Some?
    ensures var app' := ThreadTick(app, Failure, now);
      && StartConversation(app', req, later, later).ack == Error("Conversation already active")
      && ResumeConversation(app').ack == Error("No conversation to resume")
      && StartConversation(PauseConversation(app').app, req, later, later).ack.Started?
  {
  }

  /** The running conversation's stored totals stay zero: the loop stores its messages without tokens. */
  lemma RunningConversationHasNoTokens(app: App)
    requires AppValid(app) && app.thread.Some?
    ensures var cid := app.thread.value.conversationId;
      app.db.conversations[cid].totalTokens == 0 && app.db.conversations[cid].totalCost == 0
  {
    var cid := app.thread.value.conversationId;
    TokenFreeSumsZero(app.db.messages, cid);
  }

  /**
   * While the thread is alive, the stored messages of its conversation are
   * its log: the seed under bot1's name, then replies alternating bot2's
   * and bot1's names, one per successful iteration.
   */
  lemma StoredMessagesAlternate(app: App)
    requires AppValid(app) && app.thread.Some?
    ensures var run := app.thread.value;
      var said := Said(MessagesOf(app.db.messages, run.conversationId));
      && |said| == |run.turn.log| >= 1
      && said[0] == (run.bot1.name, run.turn.log[0].content)
      && forall i :: 0 <= i < |said| ==>
           said[i] == ((if i % 2 == 0 then run.bot1.name else run.bot2.name), run.turn.log[i].content)
  {
    var run := app.thread.value;
    NamedIndex(run.turn.log, run.bot1, run.bot2);
  }

  // ---------------------------------------------------------------- helper lemmas

  lemma {:induction false} NamedIndex(log: seq<Entry>, bot1: BotConfig, bot2: BotConfig)
    requires Alternating(log)
    ensures |Named(log, bot1, bot2)| == |log|
    ensures forall i :: 0 <= i < |log| ==>
      Named(log, bot1, bot2)[i] == ((if i % 2 == 0 then bot1.name else bot2.name), log[i].content)
  {
    if |log| > 0 {
      var prefix := log[..|log| - 1];
      assert Alternating(prefix) by {
        assert forall i :: 0 <= i < |prefix| ==> prefix[i] == log[i];
      }
      NamedIndex(prefix, bot1, bot2);
    }
  }

  lemma {:induction false} TokenFreeSumsZero(ms: seq<Message>, cid: nat)
    requires TokenFree(ms, cid)
    ensures Sum(ms, cid, TotalTokens) == 0 && Sum(ms, cid, Cost) == 0
  {
    if |ms| > 0 {
      var prefix := ms[..|ms| - 1];
      assert TokenFree(prefix, cid) by {
        assert forall i :: 0 <= i < |prefix| ==> prefix[i] == ms[i];
      }
      TokenFreeSumsZero(prefix, cid);
    }
  }

  lemma TokenFreeSnoc(ms: seq<Message>, m: Message, cid: nat)
    requires TokenFree(ms, cid)
    requires m.conversationId == cid ==> m.totalTokens == 0 && m.cost == 0
    ensures TokenFree(ms + [m], cid)
  {
    assert forall i :: 0 <= i < |ms| ==> (ms + [m])[i] == ms[i];
  }

  lemma SaidSnoc(ms: seq<Message>, m: Message)
    ensures Said(ms + [m]) == Said(ms) + [(m.botName, m.content)]
  {
    assert (ms + [m])[..|ms + [m]| - 1] == ms;
  }

  lemma NamedSnoc(log: seq<Entry>, e: Entry, bot1: BotConfig, bot2: BotConfig)
    ensures Named(log + [e], bot1, bot2) == Named(log, bot1, bot2) + [(Config(bot1, bot2, e.speaker).name, e.content)]
  {
    assert (log + [e])[..|log + [e]| - 1] == log;
  }

  /** Appending a row of conversation `cid` appends it to that conversation's listing only. */
  lemma MessagesOfSnoc(ms: seq<Message>, m: Message, cid: nat)
    ensures MessagesOf(ms + [m], cid) == MessagesOf(ms, cid) + (if m.conversationId == cid then [m] else [])
  {
    assert (ms + [m])[..|ms + [m]| - 1] == ms;
  }

  lemma StartPreservesValid(app: App, c: Created, bot1: BotConfig, bot2: BotConfig, seed: string, now: int, seedNow: int,
                            app': App)
    requires !app.active
    requires c == CreateConversation(app.db, bot1, bot2, now)
    requires app' == App(true, Some(Run(c.id, bot1, bot2, Begin(bot1, bot2, seed))), Some(c.id),
                         StoreMessage(c.db, c.id, bot1.name, seed, seedNow))
    ensures app'.db == AddMessage(c.db, c.id, bot1.name, seed, seedNow)
    ensures AppValid(app) ==> AppValid(app')
  {
    var db := AddMessage(c.db, c.id, bot1.name, seed, seedNow);
    if AppValid(app) {
      var m := db.messages[|c.db.messages|];
      assert db.messages == c.db.messages + [m];
      MessagesOfSnoc(c.db.messages, m, c.id);
      SaidSnoc([], m);
      assert Said([]) == [];
      NamedSnoc([], Entry(Bot1, seed), bot1, bot2);
      NoMessagesOfUnknown(app.db, c.id);
      TokenFreeSnoc(c.db.messages, m, c.id);
    }
  }

  lemma TickPreservesValid(app: App, run: Run, outcome: Completion, turn: TurnState, name: string, now: int, r: App)
    requires app.thread == Some(run) && app.active
    requires Step(run.turn, outcome) == Some(turn)
    requires name == Config(run.bot1, run.bot2, Responder(run.turn)).name
    requires r == app.(thread := Some(run.(turn := turn)), db := StoreMessage(app.db, run.conversationId, name, turn.message, now))
    ensures AppValid(app) ==> AppValid(r)
  {
    if AppValid(app) {
      var cid := run.conversationId;
      var db := AddMessage(app.db, cid, name, turn.message, now);
      assert r.db == db;
      var m := db.messages[|app.db.messages|];
      assert db.messages == app.db.messages + [m];
      MessagesOfSnoc(app.db.messages, m, cid);
      SaidSnoc(MessagesOf(app.db.messages, cid), m);
      NamedSnoc(run.turn.log, Entry(Responder(run.turn), outcome.text), run.bot1, run.bot2);
      StepPreservesReachable(run.turn, outcome, run.bot1, run.bot2);
      TokenFreeSnoc(app.db.messages, m, cid);
    }
  }

  // ---------------------------------------------------------------- export

  /** One message of the plain-text export, its timestamp rendered by `render`. */
  function Block(m: Message, render: int -> string): string {
    "[" + render(m.timestamp) + "] " + m.botName + ": " + m.content + "\n\n"
  }

  /** The plain-text export body: one block per message, in the given order. */
  function ExportText(ms: seq<Message>, render: int -> string): (r: string)
    ensures |ms| == 0 <==> r == ""
    ensures |ms| > 0 ==> r[0] == '[' && |r| >= 2 && r[|r| - 2..] == "\n\n"
  {
    if |ms| == 0 then ""
    else
      var b := Block(ms[0], render);
      var rest := ExportText(ms[1..], render);
      assert (b + rest)[0] == b[0];
      assert |rest| > 0 ==> (b + rest)[|b + rest| - 2..] == rest[|rest| - 2..];
      assert |rest| == 0 ==> (b + rest)[|b + rest| - 2..] == b[|b| - 2..];
      b + rest
  }

  /** Exporting a concatenation is concatenating the exports. */
  lemma {:induction false} ExportTextAppend(a: seq<Message>, b: seq<Message>, render: int -> string)
    ensures ExportText(a + b, render) == ExportText(a, render) + ExportText(b, render)
  {
    if |a| > 0 {
      assert (a + b)[1..] == a[1..] + b;
      ExportTextAppend(a[1..], b, render);
    } else {
      assert a + b == b;
    }
  }

  /** Message `i`'s block sits between the exports of the messages before it and after it. */
  lemma ExportTextAt(ms: seq<Message>, i: nat, render: int -> string)
    requires i < |ms|
    ensures ExportText(ms, render) == ExportText(ms[..i], render) + Block(ms[i], render) + ExportText(ms[i + 1..], render)
  {
    var tail := ms[i..];
    assert ms == ms[..i] + tail;
    ExportTextAppend(ms[..i], tail, render);
    assert tail[0] == ms[i] && tail[1..] == ms[i + 1..];
    var head, b, rest := ExportText(ms[..i], render), Block(ms[i], render), ExportText(ms[i + 1..], render);
    assert ExportText(tail, render) == b + rest;
    assert head + (b + rest) == head + b + rest;
  }

  /** The result of the export endpoint. */
  datatype Export = NotFound | InvalidFormat | Csv(rows: seq<Message>) | Text(body: string)

  /**
   * `export_conversation`: unknown conversations are not found; the format
   * defaults to "csv"; "txt" yields the plain-text body over the listed
   * messages; any other format is invalid. CSV rendering is not modelled:
   * `Csv` carries the rows it would write.
   */
  function ExportConversation(db: Store, cid: nat, format: Option<string>, render: int -> string): (r: Export)
    ensures r.NotFound? <==> cid !in db.conversations
    ensures r.Csv? <==> cid in db.conversations && format.GetOr("csv") == "csv"
    ensures r.Text? <==> cid in db.conversations && format == Some("txt")
    ensures r.Csv? ==> r.rows == GetMessages(db, cid)
    ensures r.Text? ==> r.body == ExportText(GetMessages(db, cid), render)
  {
    var messages := GetMessages(db, cid);
    if cid !in db.conversations then NotFound
    else
      var f := format.GetOr("csv");
      if f == "csv" then Csv(messages)
      else if f == "txt" then Text(ExportText(messages, render))
      else InvalidFormat
  }
}
