/**
 * The two-bot turn loop run by the conversation thread. Each bot keeps its
 * own chat history, seeded with its system prompt; the responder alternates
 * bot2, bot1, bot2, ... and each reply becomes the next input.
 *
 * The chat-completion call is an oracle: a sequence of `Reply(text)` /
 * `Failure` results, one per call. The shared `conversation_active` flag is
 * a sequence of the values the loop observes, one per iteration.
 */
module Engine {
  import opened Wrappers
  import opened Database

  datatype Bot = Bot1 | Bot2 {
    function Other(): (b: Bot)
      ensures b != this
    {
      if this == Bot1 then Bot2 else Bot1
    }
  }

  datatype Role = System | User | Assistant

  /** One entry of a chat history sent to the completion service. */
  datatype ChatTurn = ChatTurn(role: Role, content: string)

  /** A message the loop stores: who said it and what. */
  datatype Entry = Entry(speaker: Bot, content: string)

  /** The outcome of one completion call. */
  datatype Completion = Reply(text: string) | Failure

  /** A request to the completion service. */
  datatype Call = Call(model: string, messages: seq<ChatTurn>)

  /**
   * The loop's local state: the bot whose message is the current input,
   * that message, both histories, and the messages stored so far.
   */
  datatype TurnState = TurnState(
    current: Bot,
    message: string,
    history1: seq<ChatTurn>,
    history2: seq<ChatTurn>,
    log: seq<Entry>)

  /** The state before the first iteration: the seed is stored as bot1's. */
  function Begin(bot1: BotConfig, bot2: BotConfig, seed: string): (st: TurnState)
    ensures Reachable(st, bot1, bot2)
    ensures st.log == [Entry(Bot1, seed)]
  {
    TurnState(Bot1, seed, [ChatTurn(System, bot1.systemPrompt)], [ChatTurn(System, bot2.systemPrompt)],
              [Entry(Bot1, seed)])
  }

  function Config(bot1: BotConfig, bot2: BotConfig, b: Bot): BotConfig {
    if b == Bot1 then bot1 else bot2
  }

  function History(st: TurnState, b: Bot): seq<ChatTurn> {
    if b == Bot1 then st.history1 else st.history2
  }

  /** The bot that answers the current message. */
  function Responder(st: TurnState): Bot {
    st.current.Other()
  }

  /** The call made in the next iteration: the responder's model and history plus the input as a user turn. */
  function NextCall(st: TurnState, bot1: BotConfig, bot2: BotConfig): (c: Call)
    ensures c.model == Config(bot1, bot2, Responder(st)).model
    ensures |c.messages| == |History(st, Responder(st))| + 1
    ensures c.messages[..|c.messages| - 1] == History(st, Responder(st))
    ensures c.messages[|c.messages| - 1] == ChatTurn(User, st.message)
  {
    var b := Responder(st);
    var msgs := History(st, b) + [ChatTurn(User, st.message)];
    assert msgs[..|msgs| - 1] == History(st, b);
    Call(Config(bot1, bot2, b).model, msgs)
  }

  /**
   * One iteration after the flag was seen set. A failure ends the loop
   * (`None`); a reply extends the responder's history by the input and the
   * reply, is stored under the responder, and becomes the next input.
   */
  function Step(st: TurnState, outcome: Completion): (r: Option<TurnState>)
    ensures r.None? <==> outcome.Failure?
    ensures r.Some? ==>
      var (b, st') := (Responder(st), r.value);
      && st'.current == b
      && st'.message == outcome.text
      && History(st', b) == History(st, b) + [ChatTurn(User, st.message), ChatTurn(Assistant, outcome.text)]
      && History(st', st.current) == History(st, st.current)
      && st'.log == st.log + [Entry(b, outcome.text)]
  {
    match outcome
    case Failure => None
    case Reply(reply) =>
      var pair := [ChatTurn(User, st.message), ChatTurn(Assistant, reply)];
      if st.current == Bot1 then
        Some(st.(current := Bot2, message := reply, history2 := st.history2 + pair, log := st.log + [Entry(Bot2, reply)]))
      else
        Some(st.(current := Bot1, message := reply, history1 := st.history1 + pair, log := st.log + [Entry(Bot1, reply)]))
  }

  // ---------------------------------------------------------------- reference definitions

  /** The seed is bot1's, and stored messages then alternate bot2, bot1, bot2, ... */
  predicate Alternating(log: seq<Entry>) {
    forall i :: 0 <= i < |log| ==> log[i].speaker == (if i % 2 == 0 then Bot1 else Bot2)
  }

  /**
   * The history bot `b` has built after the stored messages `log`: its
   * system prompt, then for every message `b` said, the message before it
   * as a user turn and its own as an assistant turn.
   */
  function HistoryOf(systemPrompt: string, log: seq<Entry>, b: Bot): seq<ChatTurn> {
    if |log| <= 1 then [ChatTurn(System, systemPrompt)]
    else
      var prev := HistoryOf(systemPrompt, log[..|log| - 1], b);
      if log[|log| - 1].speaker == b
      then prev + [ChatTurn(User, log[|log| - 2].content), ChatTurn(Assistant, log[|log| - 1].content)]
      else prev
  }

  /** A system turn followed by user/assistant pairs. */
  predicate WellShaped(h: seq<ChatTurn>, systemPrompt: string) {
    && |h| % 2 == 1
    && h[0] == ChatTurn(System, systemPrompt)
    && forall i :: 1 <= i < |h| ==> h[i].role == (if i % 2 == 1 then User else Assistant)
  }

  /** The states the loop can be in: everything follows from the stored messages. */
  ghost predicate Reachable(st: TurnState, bot1: BotConfig, bot2: BotConfig) {
    && |st.log| >= 1
    && Alternating(st.log)
    && st.current == st.log[|st.log| - 1].speaker
    && st.message == st.log[|st.log| - 1].content
    && st.history1 == HistoryOf(bot1.systemPrompt, st.log, Bot1)
    && st.history2 == HistoryOf(bot2.systemPrompt, st.log, Bot2)
  }

  // ---------------------------------------------------------------- lemmas

  /** Every history the loop builds is a system turn followed by user/assistant pairs. */
  lemma {:induction false} HistoryOfWellShaped(systemPrompt: string, log: seq<Entry>, b: Bot)
    ensures WellShaped(HistoryOf(systemPrompt, log, b), systemPrompt)
  {
    if |log| > 1 {
      HistoryOfWellShaped(systemPrompt, log[..|log| - 1], b);
    }
  }

  /** The two histories hold two turns per stored message: one system turn each, one pair per reply. */
  lemma {:induction false} HistoryLengths(p1: string, p2: string, log: seq<Entry>)
    requires |log| >= 1
    ensures |HistoryOf(p1, log, Bot1)| + |HistoryOf(p2, log, Bot2)| == 2 * |log|
  {
    if |log| > 1 {
      HistoryLengths(p1, p2, log[..|log| - 1]);
    }
  }

  /** A successful step keeps a reachable state reachable; a failed one stops. */
  lemma StepPreservesReachable(st: TurnState, outcome: Completion, bot1: BotConfig, bot2: BotConfig)
    requires Reachable(st, bot1, bot2)
    ensures Step(st, outcome).Some? ==> Reachable(Step(st, outcome).value, bot1, bot2)
  {
    if outcome.Reply? {
      var st' := Step(st, outcome).value;
      assert st'.log[..|st'.log| - 1] == st.log;
      assert |st'.log| % 2 == (if st.current == Bot1 then 0 else 1);
    }
  }

  /**
   * In a reachable state the next call carries the responder's history,
   * rebuilt from the stored messages, plus the last stored message as the
   * user turn; it is a well-shaped history with one user turn appended.
   */
  lemma NextCallFromLog(st: TurnState, bot1: BotConfig, bot2: BotConfig)
    requires Reachable(st, bot1, bot2)
    ensures var b := Responder(st);
      NextCall(st, bot1, bot2).messages
        == HistoryOf(Config(bot1, bot2, b).systemPrompt, st.log, b) + [ChatTurn(User, st.log[|st.log| - 1].content)]
    ensures |NextCall(st, bot1, bot2).messages| % 2 == 0
  {
    var b := Responder(st);
    HistoryOfWellShaped(Config(bot1, bot2, b).systemPrompt, st.log, b);
  }

  // ---------------------------------------------------------------- the loop

  /** The call of iteration `i`: the responder's history after `log[..i + 1]` plus `log[i]` as the user turn. */
  function ExpectedCall(bot1: BotConfig, bot2: BotConfig, log: seq<Entry>, i: nat): Call
    requires i < |log|
  {
    var b := if i % 2 == 0 then Bot2 else Bot1;
    Call(Config(bot1, bot2, b).model,
         HistoryOf(Config(bot1, bot2, b).systemPrompt, log[..i + 1], b) + [ChatTurn(User, log[i].content)])
  }

  /** Every recorded call is the one iteration `i` makes given the stored messages. */
  predicate CallsMatch(calls: seq<Call>, log: seq<Entry>, bot1: BotConfig, bot2: BotConfig) {
    && |calls| <= |log|
    && forall i :: 0 <= i < |calls| ==> calls[i] == ExpectedCall(bot1, bot2, log, i)
  }

  lemma CallsMatchExtend(calls: seq<Call>, log: seq<Entry>, e: Entry, bot1: BotConfig, bot2: BotConfig)
    requires CallsMatch(calls, log, bot1, bot2)
    ensures CallsMatch(calls, log + [e], bot1, bot2)
  {
    forall i | 0 <= i < |calls|
      ensures calls[i] == ExpectedCall(bot1, bot2, log + [e], i)
    {
      assert (log + [e])[..i + 1] == log[..i + 1];
    }
  }

  /** What the loop knows after `k` successful iterations. */
  ghost predicate Progress(st: TurnState, calls: seq<Call>, k: nat, seed: string,
                           active: seq<bool>, oracle: seq<Completion>, bot1: BotConfig, bot2: BotConfig) {
    && k <= |active| && k <= |oracle|
    && Reachable(st, bot1, bot2)
    && |st.log| == k + 1 && st.log[0] == Entry(Bot1, seed)
    && (forall i :: 0 <= i < k ==> active[i])
    && (forall i :: 1 <= i < |st.log| ==> oracle[i - 1] == Reply(st.log[i].content))
    && |calls| == k
    && CallsMatch(calls, st.log, bot1, bot2)
  }

  /** The call an iteration makes is the expected one for its index. */
  lemma NextCallExpected(st: TurnState, calls: seq<Call>, k: nat, seed: string,
                         active: seq<bool>, oracle: seq<Completion>, bot1: BotConfig, bot2: BotConfig)
    requires Progress(st, calls, k, seed, active, oracle, bot1, bot2)
    ensures CallsMatch(calls + [NextCall(st, bot1, bot2)], st.log, bot1, bot2)
  {
    NextCallFromLog(st, bot1, bot2);
    assert st.log[..k + 1] == st.log;
    assert NextCall(st, bot1, bot2) == ExpectedCall(bot1, bot2, st.log, k);
  }

  /** A successful iteration establishes the same knowledge for `k + 1`. */
  lemma ProgressStep(st: TurnState, calls: seq<Call>, k: nat, seed: string,
                     active: seq<bool>, oracle: seq<Completion>, bot1: BotConfig, bot2: BotConfig)
    requires Progress(st, calls, k, seed, active, oracle, bot1, bot2)
    requires k < |active| && active[k] && k < |oracle| && oracle[k].Reply?
    ensures Progress(Step(st, oracle[k]).value, calls + [NextCall(st, bot1, bot2)], k + 1, seed, active, oracle, bot1, bot2)
  {
    NextCallExpected(st, calls, k, seed, active, oracle, bot1, bot2);
    StepPreservesReachable(st, oracle[k], bot1, bot2);
    CallsMatchExtend(calls + [NextCall(st, bot1, bot2)], st.log, Entry(Responder(st), oracle[k].text), bot1, bot2);
  }

  datatype Stop =
    | FlagCleared      // the flag was seen unset at the top of an iteration
    | ProviderError    // the completion call raised
    | OutOfObservations // the finite prefix of flag readings or call results ran out

  /**
   * `run_conversation`: stores the seed, then loops while the observed flag
   * is set, calling the completion oracle once per iteration. Returns the
   * final loop state, the calls made, and why the loop stopped.
   */
  method RunConversation(bot1: BotConfig, bot2: BotConfig, seed: string,
                         active: seq<bool>, oracle: seq<Completion>)
    returns (st: TurnState, calls: seq<Call>, stop: Stop)
    ensures Reachable(st, bot1, bot2)
    ensures st.log[0] == Entry(Bot1, seed)
    ensures forall i :: 0 <= i < |st.log| ==> st.log[i].speaker == (if i % 2 == 0 then Bot1 else Bot2)
    ensures forall i :: 1 <= i < |st.log| ==> i - 1 < |oracle| && oracle[i - 1] == Reply(st.log[i].content)
    ensures st.message == st.log[|st.log| - 1].content
    ensures var n := |st.log| - 1;
      && (forall i :: 0 <= i < n ==> i < |active| && active[i])
      && (stop == FlagCleared ==> n < |active| && !active[n] && |calls| == n)
      && (stop == ProviderError ==> n < |active| && active[n] && n < |oracle| && oracle[n] == Failure && |calls| == n + 1)
      && (stop == OutOfObservations ==> (n == |active| || (n < |active| && active[n] && n == |oracle|)) && |calls| == n)
    ensures CallsMatch(calls, st.log, bot1, bot2)
  {
    st := Begin(bot1, bot2, seed);
    calls := [];
    var k := 0;
    stop := OutOfObservations;
    while k < |active|
      invariant Progress(st, calls, k, seed, active, oracle, bot1, bot2)
      decreases |active| - k
    {
      if !active[k] {
        stop := FlagCleared;
        return;
      }
      if k == |oracle| {
        return;
      }
      var call := NextCall(st, bot1, bot2);
      NextCallExpected(st, calls, k, seed, active, oracle, bot1, bot2);
      var next := Step(st, oracle[k]);
      if next.None? {
        calls := calls + [call];
        stop := ProviderError;
        return;
      }
      ProgressStep(st, calls, k, seed, active, oracle, bot1, bot2);
      calls := calls + [call];
      st := next.value;
      k := k + 1;
    }
  }
}
