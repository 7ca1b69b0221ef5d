/**
 * The conversation as the program holds it: the chat history list and the
 * workflow state dictionary, both updated in place by `process_workflow`
 * (app.py lines 92-131), plus the "Clear Conversation" handler (line 156).
 * A ghost log records every collaborator call with the history it was handed.
 */
module Sessions {
  import opened Records
  import opened Ascii
  import opened Messages
  import opened Router

  /** The display values and state the "Clear Conversation" handler returns (app.py line 156). */
  datatype View = View(chatbot: History, state: State, category: string, confidence: real)

  /** What line 156 returns: empty chat, empty state, blank category, zero confidence. */
  const ClearedView := View([], map[], "", 0.0)

  class Session {
    /** `history_state` (app.py line 147). */
    var history: History
    /** `workflow_state` (app.py line 146). */
    var state: State
    /** Every classifier and responder call so far, in order. */
    ghost var calls: seq<Call>

    ghost predicate Valid()
      reads this
    {
      Consistent(history, state)
    }

    /** A new session starts with `[]` and `{}`. */
    constructor ()
      ensures history == [] && state == map[] && calls == []
      ensures Valid()
    {
      history := [];
      state := map[];
      calls := [];
    }

    /**
     * One turn, step by step as the source takes it; returns the category and
     * confidence to display. The new history, state and call log are those
     * `ProcessTurn` and `CollaboratorCalls` describe.
     */
    method ProcessWorkflow(message: string, classify: History -> ClassificationResponse, responders: Responders)
      returns (category: string, confidence: real)
      modifies this
      ensures var o := ProcessTurn(message, old(history), old(state), classify, responders);
        && history == o.history && state == o.state
        && category == o.category && confidence == o.confidence
      ensures calls == old(calls) + CollaboratorCalls(message, old(history), old(state), classify)
      ensures old(Valid()) ==> Valid()
    {
      ghost var oldHistory, oldState, oldCalls := history, state, calls;
      ghost var expected := ProcessTurn(message, oldHistory, oldState, classify, responders);
      ghost var wasValid := Valid();
      history := history + [Turn(User, message)];

      if Pending(state) {
        state := state[PendingKey := false];
        var res;
        if IsAffirmative(message) {
          res := Approved;
        } else {
          res := Cancelled;
        }
        history := history + [Turn(Assistant, res)];
        assert history == expected.history && state == expected.state;
        if wasValid {
          ProcessTurnKeepsConsistent(message, oldHistory, oldState, classify, responders);
        }
        return "Order", 1.0;
      }

      var classOut := classify(history);
      calls := calls + [Classified(history)];

      var selected := AgentFor(classOut.category);
      var botMsg;
      if selected.None? {
        botMsg := Apology;
      } else {
        var agentOut := RunAgent(responders, selected.value, history);
        calls := calls + [Responded(selected.value, history)];
        botMsg := agentOut.Response();

        if classOut.category == "order" && agentOut.order.humanApproval {
          state := state[PendingKey := true];
          botMsg := OrderSummary(agentOut.order.orderItemName, agentOut.order.orderAmount);
        }
      }

      history := history + [Turn(Assistant, botMsg)];
      assert history == expected.history && state == expected.state;
      assert calls == oldCalls + CollaboratorCalls(message, oldHistory, oldState, classify);
      if wasValid {
        ProcessTurnKeepsConsistent(message, oldHistory, oldState, classify, responders);
      }
      return classOut.category, classOut.confidence;
    }

    /**
     * The clear handler as it is wired: its results go to the chat display,
     * `workflow_state` and the two labels, so the state is reset but
     * `history_state` keeps every earlier entry.
     */
    method ClearAsWired() returns (view: View)
      modifies this
      ensures view == ClearedView
      ensures state == map[] && history == old(history) && calls == old(calls)
      ensures old(Valid()) ==> Valid()
    {
      state := map[];
      view := ClearedView;
    }

    /**
     * Clearing the conversation as intended: empty history, empty state, and
     * the idle display values, whatever came before, so clearing twice is
     * clearing once.
     */
    method Clear() returns (view: View)
      modifies this
      ensures view == ClearedView
      ensures history == [] && state == map[] && calls == old(calls)
      ensures Valid()
    {
      history := [];
      state := map[];
      view := ClearedView;
    }
  }

  /**
   * As wired, a turn after "Clear Conversation" hands the classifier the old
   * entries too, and the chat shows them again.
   */
  lemma StaleHistoryAfterClear(history: History, message: string,
                               classify: History -> ClassificationResponse, responders: Responders)
    requires history != []
    ensures var o := ProcessTurn(message, history, ClearedView.state, classify, responders);
      && o.history[..|history|] == history
      && CollaboratorCalls(message, history, ClearedView.state, classify)[0].input != [Turn(User, message)]
  {
  }

  /**
   * After a clear that empties the history, the next turn starts afresh: the
   * classifier sees only the new message and the chat holds that turn alone.
   */
  lemma FreshAfterClear(message: string, classify: History -> ClassificationResponse, responders: Responders)
    ensures var o := ProcessTurn(message, ClearedView.chatbot, ClearedView.state, classify, responders);
      && |o.history| == 2 && o.history[0] == Turn(User, message)
      && CollaboratorCalls(message, ClearedView.chatbot, ClearedView.state, classify)[0].input == [Turn(User, message)]
  {
  }

  /** The responders the two scenarios below use. */
  function ScenarioResponders(): Responders {
    Responders(
      h => BookResponse("popular", "Try Atomic Habits!"),
      h => ClothingResponse("", ""),
      h => RetentionResponse("", 25.0, ""),
      h => OrderResponse(true, "Atomic Habits", 2, 7, 1999, "Placing your order."))
  }

  /** A book question on a new session: the book responder's reply is shown. */
  method BookScenario() {
    var s := new Session();
    var category, confidence := s.ProcessWorkflow("I want a good book",
      h => ClassificationResponse("asks for a book", "books", 0.92), ScenarioResponders());
    assert category == "books" && confidence == 0.92;
    assert s.history == [Turn(User, "I want a good book"), Turn(Assistant, "Try Atomic Habits!")];
    assert !Pending(s.state);
  }

  /**
   * An order that needs approval, then "yes": the summary is shown and the
   * flag armed; the answer is approved locally without any collaborator call.
   */
  method OrderScenario() {
    var s := new Session();
    var category, confidence := s.ProcessWorkflow("I want to order book #2",
      h => ClassificationResponse("wants to buy", "order", 0.88), ScenarioResponders());
    assert category == "order" && confidence == 0.88;
    AtomicHabitsSummary();
    assert s.history[1].content
        == "Order summary: " + "Atomic Habits" + " ($" + "19.99" + "). Approve this order? (yes/no)";
    assert Pending(s.state);

    ghost var before := s.calls;
    category, confidence := s.ProcessWorkflow("yes",
      h => ClassificationResponse("", "books", 0.5), ScenarioResponders());
    assert Lower("yes") == "yes";
    assert s.history[3] == Turn(Assistant, Approved);
    assert !Pending(s.state) && category == "Order" && confidence == 1.0;
    assert s.calls == before;
  }
}
