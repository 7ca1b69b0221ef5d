# Customer service turn router: a verified Dafny model

The modelled program is a small customer-service chat app. On every user message, `process_workflow` appends the message to the chat history. Then it does one of two things:

- If an order is waiting for approval, it answers locally from the user's yes/no reply.
- Otherwise it asks a classifier for a category and looks the category up in a fixed map of four responders (books, clothing, retention, order). For a mapped category it runs the chosen responder and appends its reply. For an unmapped category no responder runs, and the reply is a fixed apology.

An order result that asks for human approval has its reply replaced by an order summary, and the approval flag is armed. The "Clear Conversation" button resets the display and the workflow state.

The model has seven modules, one per file:

- `Wrappers` (`wrappers.dfy`): `Option`.
- `Records` (`records.dfy`): the structured results the collaborators return (`ClassificationResponse`, `BookResponse`, `ClothingResponse`, `RetentionResponse`, `OrderResponse`).
- `Ascii` (`ascii.dfy`): `str.lower()` on ASCII.
- `Money` (`money.dfy`): the `{order_amount:.2f}` rendering, on an amount held in whole cents. A parser reads it back, and two lemmas show the rendering and the parser are inverse.
- `Messages` (`messages.dfy`): the fixed reply texts, the yes/no test, and the order summary with a reader for it.
- `Router` (`router.dfy`): the dispatch map and one turn as a pure function, `ProcessTurn`. It also holds the lemmas on what a turn does, the conversation invariant and multi-turn runs.
- `Sessions` (`session.dfy`): class `Session`. Its `history` and `state` fields are updated in place. A ghost log records every collaborator call and the history that call was given. `ProcessWorkflow` is the imperative turn, proved to produce exactly what `ProcessTurn` and `CollaboratorCalls` describe. The module also holds the clear handler.

The two language-model collaborators are parameters. The classifier is a function from the history it is given to a `ClassificationResponse`. The four responders are functions from history to their own record type, because each agent's output type fixes that type. The `await`s run one after the other, so a turn is sequential.

Three behaviours of the code that the model keeps as they are:

- The reply to a pending order is not trimmed, so `" yes"` cancels the order (`Messages.PaddedReplyCancels`).
- The code neither validates the collaborators' results nor handles their failures.
- As wired, "Clear Conversation" does not empty the history (see Findings).

## Model

| member | source | states |
|---|---|---|
| Ascii.Lower | part2-openai/community-contributions/OZ/lab2-customer_service_agent/app.py:98 | `message.lower()` on ASCII: same length, each character lower-cased in place, no upper-case letter left |
| Ascii.LowerIdempotent | part2-openai/community-contributions/OZ/lab2-customer_service_agent/app.py:98 | lower-casing twice equals lower-casing once |
| Ascii.LowerFixesNonUpper | part2-openai/community-contributions/OZ/lab2-customer_service_agent/app.py:98 | a string with no upper-case letter is left unchanged |
| Money.NatToDecimal | part2-openai/community-contributions/OZ/lab2-customer_service_agent/app.py:128 | the integer part of the amount is a non-empty digit string without leading zeros, starting with '0' exactly for zero |
| Money.DecimalValueOfNatToDecimal | part2-openai/community-contributions/OZ/lab2-customer_service_agent/app.py:128 | the digits written for n have value n |
| Money.NatToDecimalOfDecimalValue | part2-openai/community-contributions/OZ/lab2-customer_service_agent/app.py:128 | every canonical digit string is the rendering of its own value |
| Money.FormatCents | part2-openai/community-contributions/OZ/lab2-customer_service_agent/app.py:128 | the `.2f` text has exactly two digits after a '.', a leading '-' exactly for negative amounts, and only sign, digits and point |
| Money.ParseFormatCents | part2-openai/community-contributions/OZ/lab2-customer_service_agent/app.py:128 | reading the two-decimal text back gives the amount in cents: nothing is lost |
| Money.FormatParsedCents | part2-openai/community-contributions/OZ/lab2-customer_service_agent/app.py:128 | every text the reader accepts is exactly the rendering of the amount it reads |
| Messages.AffirmativeIgnoresCase | part2-openai/community-contributions/OZ/lab2-customer_service_agent/app.py:98 | a reply approves exactly when its lower-case form does |
| Messages.IsAffirmative | part2-openai/community-contributions/OZ/lab2-customer_service_agent/app.py:98 | `message.lower() in ["yes", "y", "approve"]`: a reply approves exactly when it spells one of the three words, each letter in either case, with nothing added |
| Messages.YesInAnyCaseApproves | part2-openai/community-contributions/OZ/lab2-customer_service_agent/app.py:98 | "YES", "Yes", "yEs" and every other casing of "yes" approve |
| Messages.ApprovalReply | part2-openai/community-contributions/OZ/lab2-customer_service_agent/app.py:98-101 | the reply to a pending order is the approval text exactly for an affirmative answer and the cancellation text exactly otherwise |
| Messages.SpaceMeansCancel | part2-openai/community-contributions/OZ/lab2-customer_service_agent/app.py:98 | a reply containing a space never approves |
| Messages.PaddedReplyCancels | part2-openai/community-contributions/OZ/lab2-customer_service_agent/app.py:98-101 | no trimming: a reply with a leading or trailing space gets the cancellation text |
| Messages.ParseOrderSummary | part2-openai/community-contributions/OZ/lab2-customer_service_agent/app.py:128 | the summary text `Messages.OrderSummary` builds (the f-string) can be read back into the item name and the amount, whatever the name contains |
| Messages.FormatParsedSummary | part2-openai/community-contributions/OZ/lab2-customer_service_agent/app.py:128 | every text the summary reader accepts is exactly `OrderSummary` of the name and amount it reads, so the reader accepts nothing but summaries |
| Messages.ParseMiddleOfParts | part2-openai/community-contributions/OZ/lab2-customer_service_agent/app.py:128 | between the fixed prefix and suffix, the item name and the amount are recovered even when the name itself contains "($" |
| Messages.OrderSummaryInjective | part2-openai/community-contributions/OZ/lab2-customer_service_agent/app.py:128 | two summaries are equal only for the same item name and amount |
| Messages.AtomicHabitsSummary | part2-openai/community-contributions/OZ/lab2-customer_service_agent/app.py:128 | the summary for "Atomic Habits" at 1999 cents reads "... Atomic Habits ($19.99). Approve this order? (yes/no)" |
| Router.Pending | part2-openai/community-contributions/OZ/lab2-customer_service_agent/app.py:96 | `state.get("pending_approval")`: pending exactly when the key is present and holds true, so a missing key reads as not pending |
| Router.PendingAfterWrite | part2-openai/community-contributions/OZ/lab2-customer_service_agent/app.py:96-127 | after the router writes the flag (lines 97 and 127), the next turn reads back exactly the value written |
| Router.WithUserMessage | part2-openai/community-contributions/OZ/lab2-customer_service_agent/app.py:93 | appending the user's message keeps every earlier entry and puts the message, as a user entry, last |
| Router.AgentFor | part2-openai/community-contributions/OZ/lab2-customer_service_agent/app.py:110-117 | `agent_map.get(category)` over the constant `Router.AgentMap`: a responder exactly for "books", "clothing", "retention" and "order", and the order responder exactly for "order" |
| Router.AgentForCategoryOf | part2-openai/community-contributions/OZ/lab2-customer_service_agent/app.py:110-115 | the map sends a category to a responder exactly when the category is that responder's registered name |
| Router.RunAgent | part2-openai/community-contributions/OZ/lab2-customer_service_agent/app.py:121-122 | the result has the record type of the selected responder, for each of the four (the `Records` datatypes of lines 10-34), so it is an order record exactly when the order responder is the one selected |
| Router.ProcessTurn | part2-openai/community-contributions/OZ/lab2-customer_service_agent/app.py:92-131 | a turn appends exactly two entries, the user's message and then an assistant reply, leaves every earlier entry as it was, and changes no state key other than `pending_approval` |
| Router.CollaboratorCalls | part2-openai/community-contributions/OZ/lab2-customer_service_agent/app.py:96-121 | no collaborator runs exactly when an order is pending; otherwise at most two calls, each handed the old history plus the user's message |
| Router.ApprovalTurn | part2-openai/community-contributions/OZ/lab2-customer_service_agent/app.py:96-103 | with an order pending: approval text exactly for an affirmative reply and cancellation text otherwise, flag cleared, display "Order" and 1.0, no collaborator call |
| Router.MissingKeyClassifies | part2-openai/community-contributions/OZ/lab2-customer_service_agent/app.py:96 | a state without the key, such as the initial `{}`, takes the classification path and displays the classifier's values |
| Router.ClassifiedTurnDisplays | part2-openai/community-contributions/OZ/lab2-customer_service_agent/app.py:106-131 | whenever no order is pending, whether the key is missing or holds false, the display shows the classifier's raw category and confidence, whichever branch follows |
| Router.UnknownCategoryTurn | part2-openai/community-contributions/OZ/lab2-customer_service_agent/app.py:117-119 | an unmapped category: only the classifier runs, the reply is the apology, the state is unchanged, the display shows the raw category and confidence |
| Router.OrderNeedsApprovalTurn | part2-openai/community-contributions/OZ/lab2-customer_service_agent/app.py:126-131 | an order needing approval arms the flag; the reply is exactly "Order summary: {name} (${amount:.2f}). Approve this order? (yes/no)" for that order, not the responder's own text; the display shows "order" and the classifier's confidence |
| Router.ResponderTurn | part2-openai/community-contributions/OZ/lab2-customer_service_agent/app.py:120-123 | any other mapped category, or an order without approval: the reply is the chosen responder's `response` on the history ending with the user's message, and the state is unchanged |
| Router.PendingAfterTurn | part2-openai/community-contributions/OZ/lab2-customer_service_agent/app.py:96-128 | after a turn an order is pending exactly when none was before, the category was "order" and the order responder asked for approval |
| Router.ConsistentInitially | part2-openai/community-contributions/OZ/lab2-customer_service_agent/app.py:146-147 | the empty history and empty state satisfy the conversation invariant |
| Router.ProcessTurnKeepsConsistent | part2-openai/community-contributions/OZ/lab2-customer_service_agent/app.py:92-131 | every turn keeps the invariant: user and assistant entries alternate, and an order is pending only while the last entry is a readable order summary |
| Router.RunTurnsAppendOnly | part2-openai/community-contributions/OZ/lab2-customer_service_agent/app.py:93-130 | over any sequence of messages the old history is kept, two entries come per message, and each message sits in its turn's user slot |
| Router.RunTurnsKeepsConsistent | part2-openai/community-contributions/OZ/lab2-customer_service_agent/app.py:92-131 | the invariant holds after any number of turns |
| Sessions.Session.constructor | part2-openai/community-contributions/OZ/lab2-customer_service_agent/app.py:146-147 | a session starts with `[]` and `{}`, no calls, invariant established |
| Sessions.Session.ProcessWorkflow | part2-openai/community-contributions/OZ/lab2-customer_service_agent/app.py:92-131 | the in-place turn leaves exactly the history, state, display values and collaborator calls of `ProcessTurn`/`CollaboratorCalls`, and keeps the invariant |
| Sessions.Session.ClearAsWired | part2-openai/community-contributions/OZ/lab2-customer_service_agent/app.py:156 | as wired: the view is `([], {}, "", 0)` and the state is emptied, but the history is left as it was |
| Sessions.Session.Clear | part2-openai/community-contributions/OZ/lab2-customer_service_agent/app.py:156 | empty history, empty state and the idle display values, whatever came before, so clearing twice equals clearing once |
| Sessions.StaleHistoryAfterClear | part2-openai/community-contributions/OZ/lab2-customer_service_agent/app.py:156 | as wired, the turn after a clear hands the classifier the old entries and shows them again |
| Sessions.FreshAfterClear | part2-openai/community-contributions/OZ/lab2-customer_service_agent/app.py:156 | after a clear that empties the history, the classifier sees only the new message |

`Sessions.BookScenario` and `Sessions.OrderScenario` are clients of `Session`. The first runs a book question. The second runs an order that needs approval and then "yes". After every turn, both assert the reply, the flag, and the displayed category and confidence, and the second asserts that the "yes" turn adds nothing to the call log.

## Left out

- Agent construction and `Runner.run` (app.py:56-89, 106, 121) are language-model calls. They are the `classify` and `Responders` function parameters. The model treats each call as a function of the history it is handed. A language model can answer the same history differently on two calls; that is not modelled.
- The inventory texts (app.py:37-53) are static prompt data with no logic.
- The Gradio layout, event wiring, text-box clearing, `demo.launch` (app.py:134-159) and `load_dotenv` (app.py:7) are presentation and I/O. The one exception is which outputs the clear handler feeds; the finding below depends on it.
- `async`/`await`: the two awaits are sequential, so they are modelled as sequential.
- `confidence` and `discount_percentage` are passed through as `real`s. Float semantics are not modelled.
- `order_amount` is a whole number of cents. Binary floating-point rounding of `.2f` (for example 0.125 rendering as "0.12") and the text "-0.00" for negative zero are not modelled.
- Ascii.Lower: only ASCII upper-case letters are lower-cased. Unicode case mappings of `str.lower()` (for example 'İ' becoming two characters) are not modelled.
- The approval and cancellation texts end in the check-mark and cross emoji (U+2705, U+274C). In the source file these appear as mis-decoded bytes. Both texts are opaque constants, so their exact suffix bytes are not modelled.
- Collaborator failures and validation of result fields are not modelled, because the code has no handling for them. A call that raises still leaves the user's entry appended in place (line 93) with no reply after it. So the alternation stated by `Router.ProcessTurnKeepsConsistent` and `Router.RunTurnsKeepsConsistent` holds only for turns whose collaborator calls return.
- Python could raise an attribute error if a responder returned a record of a type other than its declared output type. This cannot arise in the model, because each responder returns its own record type.

## Findings

| source | as written | input that shows it | evidently intended | confidence | as-written member | corrected member |
|---|---|---|---|---|---|---|
| part2-openai/community-contributions/OZ/lab2-customer_service_agent/app.py:156 | The clear handler's outputs are the chat display, `workflow_state` and the two labels. `history_state` is not among them, so the conversation list that `process_workflow` appends to in place survives "Clear Conversation". | One completed turn (two entries), then Clear, then the message "hi". The classifier is handed three entries instead of one, and the chat shows the old turn again. | Clearing empties the history as well as the state. | medium, not executed (depends on the UI framework keeping in-place changes to a state value) | Sessions.Session.ClearAsWired, Sessions.StaleHistoryAfterClear | Sessions.Session.Clear, Sessions.FreshAfterClear |
