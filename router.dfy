/**
 * One turn of `process_workflow` (app.py lines 92-131) as a function of the
 * user's message, the chat history and the workflow state, with the two
 * language-model collaborators supplied as functions of the history they are
 * handed. The imperative version in module Sessions is proved to do exactly
 * what `ProcessTurn` says; the lemmas here state what the router promises.
 */
module Router {
  import opened Wrappers
  import opened Records
  import opened Messages

  datatype Role = User | Assistant

  /** One chat entry, `{"role": ..., "content": ...}`. */
  datatype Turn = Turn(role: Role, content: string)

  type History = seq<Turn>

  /** The workflow state dictionary; the router only ever writes `pending_approval`. */
  type State = map<string, bool>

  const PendingKey := "pending_approval"

  /** `state.get("pending_approval")`: a missing key reads as not pending. */
  predicate Pending(state: State)
    ensures PendingKey !in state ==> !Pending(state)
    ensures Pending(state) ==> state[PendingKey]
    ensures PendingKey in state && state[PendingKey] ==> Pending(state)
  {
    PendingKey in state && state[PendingKey]
  }

  /** Writing the flag decides it: the next turn reads back exactly the value written. */
  lemma PendingAfterWrite(state: State, b: bool)
    ensures Pending(state[PendingKey := b]) == b
  {
  }

  /** The four responders of the dispatch map. */
  datatype Agent = BookAgent | ClothingAgent | RetentionAgent | OrderAgent

  /** `agent_map` (app.py lines 110-115). */
  const AgentMap: map<string, Agent> :=
    map["books" := BookAgent, "clothing" := ClothingAgent, "retention" := RetentionAgent, "order" := OrderAgent]

  /** The category string each responder is registered under. */
  function CategoryOf(agent: Agent): string {
    match agent
    case BookAgent => "books"
    case ClothingAgent => "clothing"
    case RetentionAgent => "retention"
    case OrderAgent => "order"
  }

  /** `agent_map.get(category)`: exactly the four lower-case names have a responder. */
  function AgentFor(category: string): (r: Option<Agent>)
    ensures r.Some? <==> category in {"books", "clothing", "retention", "order"}
    ensures r == Some(OrderAgent) <==> category == "order"
  {
    if category in AgentMap then Some(AgentMap[category]) else None
  }

  /** The dispatch map and the registration names are inverse to each other. */
  lemma AgentForCategoryOf(category: string, agent: Agent)
    ensures AgentFor(category) == Some(agent) <==> category == CategoryOf(agent)
  {
  }

  /**
   * The responders, each a function of the history it is handed. Each agent's
   * `output_type` fixes the record it returns, so each has its own type here.
   */
  datatype Responders = Responders(
    books: History -> BookResponse,
    clothing: History -> ClothingResponse,
    retention: History -> RetentionResponse,
    order: History -> OrderResponse)

  /** What the selected responder returned, tagged by which one it was. */
  datatype AgentOutput =
    | BookOut(book: BookResponse)
    | ClothingOut(clothing: ClothingResponse)
    | RetentionOut(retention: RetentionResponse)
    | OrderOut(order: OrderResponse)
  {
    /** The `response` field every result record has. */
    function Response(): string {
      match this
      case BookOut(b) => b.response
      case ClothingOut(c) => c.response
      case RetentionOut(r) => r.response
      case OrderOut(o) => o.response
    }

    /** The responder whose record type this result has. */
    function Producer(): Agent {
      match this
      case BookOut(_) => BookAgent
      case ClothingOut(_) => ClothingAgent
      case RetentionOut(_) => RetentionAgent
      case OrderOut(_) => OrderAgent
    }
  }

  /** `Runner.run(selected_agent, history).final_output`. */
  function RunAgent(responders: Responders, agent: Agent, input: History): (out: AgentOutput)
    ensures out.Producer() == agent
    ensures out.OrderOut? <==> agent == OrderAgent
  {
    match agent
    case BookAgent => BookOut(responders.books(input))
    case ClothingAgent => ClothingOut(responders.clothing(input))
    case RetentionAgent => RetentionOut(responders.retention(input))
    case OrderAgent => OrderOut(responders.order(input))
  }

  /** What a turn hands back: the history, the state and the two display values. */
  datatype Outcome = Outcome(history: History, state: State, category: string, confidence: real)

  /** One call to a collaborator, with the history it was given. */
  datatype Call = Classified(input: History) | Responded(agent: Agent, input: History)

  /** The history both collaborators see: the old one with the user's message appended. */
  function WithUserMessage(message: string, history: History): (r: History)
    ensures |r| == |history| + 1 && r[..|history|] == history
    ensures r[|history|] == Turn(User, message)
  {
    history + [Turn(User, message)]
  }

  /** The turn as `process_workflow` runs it. */
  function ProcessTurn(message: string, history: History, state: State,
                       classify: History -> ClassificationResponse, responders: Responders): (o: Outcome)
    ensures |o.history| == |history| + 2 && o.history[..|history|] == history
    ensures o.history[|history|] == Turn(User, message) && o.history[|history| + 1].role == Assistant
    ensures o.state - {PendingKey} == state - {PendingKey}
  {
    var input := WithUserMessage(message, history);
    if Pending(state) then
      Outcome(input + [Turn(Assistant, ApprovalReply(message))], state[PendingKey := false], "Order", 1.0)
    else
      var classOut := classify(input);
      match AgentFor(classOut.category)
      case None =>
        Outcome(input + [Turn(Assistant, Apology)], state, classOut.category, classOut.confidence)
      case Some(agent) =>
        var agentOut := RunAgent(responders, agent, input);
        if classOut.category == "order" && agentOut.order.humanApproval then
          var summary := OrderSummary(agentOut.order.orderItemName, agentOut.order.orderAmount);
          Outcome(input + [Turn(Assistant, summary)], state[PendingKey := true], classOut.category, classOut.confidence)
        else
          Outcome(input + [Turn(Assistant, agentOut.Response())], state, classOut.category, classOut.confidence)
  }

  /** The collaborator calls a turn makes, in order. */
  function CollaboratorCalls(message: string, history: History, state: State,
                             classify: History -> ClassificationResponse): (calls: seq<Call>)
    ensures calls == [] <==> Pending(state)
    ensures |calls| <= 2
    ensures forall i :: 0 <= i < |calls| ==> calls[i].input == WithUserMessage(message, history)
  {
    var input := WithUserMessage(message, history);
    if Pending(state) then []
    else
      var classOut := classify(input);
      match AgentFor(classOut.category)
      case None => [Classified(input)]
      case Some(agent) => [Classified(input), Responded(agent, input)]
  }

  /** The assistant's reply in a turn's outcome. */
  function Reply(o: Outcome): string
    requires |o.history| >= 1
  {
    o.history[|o.history| - 1].content
  }

  /**
   * Answering a pending order (app.py lines 96-103): the reply is the fixed
   * approval text exactly for "yes", "y" or "approve" in any case, the
   * cancellation text otherwise; the flag is cleared; the display shows
   * "Order" with confidence 1.0; no collaborator runs.
   */
  lemma ApprovalTurn(message: string, history: History, state: State,
                     classify: History -> ClassificationResponse, responders: Responders)
    requires Pending(state)
    ensures var o := ProcessTurn(message, history, state, classify, responders);
      && (Reply(o) == Approved <==> IsAffirmative(message))
      && (Reply(o) == Cancelled <==> !IsAffirmative(message))
      && !Pending(o.state)
      && o.category == "Order" && o.confidence == 1.0
      && CollaboratorCalls(message, history, state, classify) == []
  {
  }

  /**
   * A state without the `pending_approval` key, such as the initial `{}`,
   * is not pending: the classifier is consulted on the history ending with
   * the user's message and its category is what the display shows.
   */
  lemma MissingKeyClassifies(message: string, history: History, state: State,
                             classify: History -> ClassificationResponse, responders: Responders)
    requires PendingKey !in state
    ensures var o := ProcessTurn(message, history, state, classify, responders);
      var classOut := classify(WithUserMessage(message, history));
      && o.category == classOut.category && o.confidence == classOut.confidence
      && CollaboratorCalls(message, history, state, classify)[0] == Classified(WithUserMessage(message, history))
  {
  }

  /**
   * Any classified turn, whether the key is missing or holds false (app.py
   * lines 106 and 131): the display shows the classifier's raw category and
   * confidence, whichever branch follows.
   */
  lemma ClassifiedTurnDisplays(message: string, history: History, state: State,
                               classify: History -> ClassificationResponse, responders: Responders)
    requires !Pending(state)
    ensures var o := ProcessTurn(message, history, state, classify, responders);
      var classOut := classify(WithUserMessage(message, history));
      o.category == classOut.category && o.confidence == classOut.confidence
  {
  }


  /**
   * A category with no responder (app.py lines 117-119, 131): only the
   * classifier runs, the reply is the apology, the state is untouched and
   * the display shows the classifier's own category and confidence.
   */
  lemma UnknownCategoryTurn(message: string, history: History, state: State,
                            classify: History -> ClassificationResponse, responders: Responders)
    requires !Pending(state)
    requires AgentFor(classify(WithUserMessage(message, history)).category).None?
    ensures var o := ProcessTurn(message, history, state, classify, responders);
      var classOut := classify(WithUserMessage(message, history));
      && Reply(o) == Apology && o.state == state
      && o.category == classOut.category && o.confidence == classOut.confidence
      && CollaboratorCalls(message, history, state, classify) == [Classified(WithUserMessage(message, history))]
  {
  }

  /**
   * An order that needs approval (app.py lines 126-128): the flag is set and
   * the order responder's own reply is replaced by the summary, from which
   * the item name and amount can be read back.
   */
  lemma OrderNeedsApprovalTurn(message: string, history: History, state: State,
                               classify: History -> ClassificationResponse, responders: Responders)
    requires !Pending(state)
    requires classify(WithUserMessage(message, history)).category == "order"
    requires responders.order(WithUserMessage(message, history)).humanApproval
    ensures var o := ProcessTurn(message, history, state, classify, responders);
      var order := responders.order(WithUserMessage(message, history));
      && Pending(o.state)
      && Reply(o) == OrderSummary(order.orderItemName, order.orderAmount)
      && o.category == "order"
      && o.confidence == classify(WithUserMessage(message, history)).confidence
      && ParseSummary(Reply(o)) == Some((order.orderItemName, order.orderAmount))
      && CollaboratorCalls(message, history, state, classify)
         == [Classified(WithUserMessage(message, history)), Responded(OrderAgent, WithUserMessage(message, history))]
  {
    var order := responders.order(WithUserMessage(message, history));
    ParseOrderSummary(order.orderItemName, order.orderAmount);
  }

  /**
   * Any other mapped category, or an order without approval (app.py lines
   * 121-123, 126): the reply is the responder's own `response`, given the
   * history that ends with the user's message, and the state is untouched.
   */
  lemma ResponderTurn(message: string, history: History, state: State,
                      classify: History -> ClassificationResponse, responders: Responders)
    requires !Pending(state)
    requires AgentFor(classify(WithUserMessage(message, history)).category).Some?
    requires classify(WithUserMessage(message, history)).category == "order"
             ==> !responders.order(WithUserMessage(message, history)).humanApproval
    ensures var o := ProcessTurn(message, history, state, classify, responders);
      var input := WithUserMessage(message, history);
      var agent := AgentFor(classify(input).category).value;
      && Reply(o) == RunAgent(responders, agent, input).Response()
      && o.state == state
      && o.category == classify(input).category && o.confidence == classify(input).confidence
      && CollaboratorCalls(message, history, state, classify) == [Classified(input), Responded(agent, input)]
  {
  }

  /**
   * The flag after a turn is set exactly when no order was pending, the
   * classifier said "order" and the order responder asked for approval.
   */
  lemma PendingAfterTurn(message: string, history: History, state: State,
                         classify: History -> ClassificationResponse, responders: Responders)
    ensures var input := WithUserMessage(message, history);
      Pending(ProcessTurn(message, history, state, classify, responders).state)
      <==> !Pending(state) && classify(input).category == "order" && responders.order(input).humanApproval
  {
  }

  /**
   * The conversation invariant: user and assistant entries alternate, starting
   * with the user, and an order is pending only while the last entry is an
   * order summary waiting for an answer.
   */
  predicate Consistent(history: History, state: State) {
    && |history| % 2 == 0
    && Alternates(history)
    && (Pending(state) ==> |history| >= 2 && ParseSummary(history[|history| - 1].content).Some?)
  }

  lemma ConsistentInitially()
    ensures Consistent([], map[])
  {
  }

  predicate Alternates(history: History) {
    forall i :: 0 <= i < |history| ==> history[i].role == (if i % 2 == 0 then User else Assistant)
  }

  /** A user entry then an assistant entry after an alternating history of even length alternate. */
  lemma AlternationExtends(history: History, longer: History)
    requires |history| % 2 == 0 && Alternates(history)
    requires |longer| == |history| + 2 && longer[..|history|] == history
    requires longer[|history|].role == User && longer[|history| + 1].role == Assistant
    ensures Alternates(longer)
  {
    forall i | 0 <= i < |history|
      ensures longer[i].role == (if i % 2 == 0 then User else Assistant)
    {
      assert longer[i] == longer[..|history|][i];
    }
  }

  /** Every turn keeps the invariant. */
  lemma ProcessTurnKeepsConsistent(message: string, history: History, state: State,
                                   classify: History -> ClassificationResponse, responders: Responders)
    requires Consistent(history, state)
    ensures var o := ProcessTurn(message, history, state, classify, responders);
      Consistent(o.history, o.state)
  {
    var o := ProcessTurn(message, history, state, classify, responders);
    AlternationExtends(history, o.history);
    if Pending(o.state) {
      PendingAfterTurn(message, history, state, classify, responders);
      OrderNeedsApprovalTurn(message, history, state, classify, responders);
    }
  }

  /** A conversation between turns: the history and the workflow state. */
  datatype Conversation = Conversation(history: History, state: State)

  /** Several turns, one message after another. */
  function RunTurns(messages: seq<string>, c: Conversation,
                    classify: History -> ClassificationResponse, responders: Responders): Conversation
    decreases |messages|
  {
    if messages == [] then c
    else
      var o := ProcessTurn(messages[0], c.history, c.state, classify, responders);
      RunTurns(messages[1..], Conversation(o.history, o.state), classify, responders)
  }

  /**
   * Over any number of turns the history only grows: the old entries stay as
   * they were, two entries come per message and each message appears as a
   * user entry in its turn's place.
   */
  lemma {:induction false} RunTurnsAppendOnly(messages: seq<string>, c: Conversation,
                                              classify: History -> ClassificationResponse, responders: Responders)
    ensures var r := RunTurns(messages, c, classify, responders);
      && |r.history| == |c.history| + 2 * |messages|
      && r.history[..|c.history|] == c.history
      && forall k :: 0 <= k < |messages| ==> r.history[|c.history| + 2 * k] == Turn(User, messages[k])
    decreases |messages|
  {
    if messages != [] {
      var o := ProcessTurn(messages[0], c.history, c.state, classify, responders);
      var next := Conversation(o.history, o.state);
      RunTurnsAppendOnly(messages[1..], next, classify, responders);
      var r := RunTurns(messages, c, classify, responders);
      var n := |c.history|;
      assert r.history[..n] == r.history[..n + 2][..n];
      forall k | 0 <= k < |messages|
        ensures r.history[n + 2 * k] == Turn(User, messages[k])
      {
        if k == 0 {
          assert r.history[n] == r.history[..n + 2][n];
        } else {
          assert messages[k] == messages[1..][k - 1];
          assert n + 2 * k == |next.history| + 2 * (k - 1);
        }
      }
    }
  }

  /** Over any number of turns the invariant holds after every one. */
  lemma {:induction false} RunTurnsKeepsConsistent(messages: seq<string>, c: Conversation,
                                                   classify: History -> ClassificationResponse, responders: Responders)
    requires Consistent(c.history, c.state)
    ensures var r := RunTurns(messages, c, classify, responders);
      Consistent(r.history, r.state)
    decreases |messages|
  {
    if messages != [] {
      var o := ProcessTurn(messages[0], c.history, c.state, classify, responders);
      ProcessTurnKeepsConsistent(messages[0], c.history, c.state, classify, responders);
      RunTurnsKeepsConsistent(messages[1..], Conversation(o.history, o.state), classify, responders);
    }
  }
}
