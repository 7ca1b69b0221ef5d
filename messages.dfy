/**
 * The assistant texts the router writes itself (app.py lines 98-101, 119 and
 * 128), the yes/no test on a reply to a pending order, and a reader for the
 * order summary that shows the summary names item and amount unambiguously.
 */
module Messages {
  import opened Wrappers
  import opened Ascii
  import opened Money

  /** Reply to an approved order (the emoji suffix is an opaque constant). */
  const Approved := "Order approved and sent to shipping! \U{2705}"
  /** Reply to any other answer to a pending order. */
  const Cancelled := "Order cancelled at your request. \U{274C}"
  /** Reply when the classifier's category has no responder. */
  const Apology := "I'm sorry, I couldn't categorize your request correctly."

  /** The answers that approve a pending order, compared after lower-casing. */
  const AffirmativeReplies: seq<string> := ["yes", "y", "approve"]

  /**
   * `c` is the lower-case letter `lower`, or that letter in upper case; any
   * other character stands only for itself.
   */
  predicate SameLetterIgnoringCase(c: char, lower: char) {
    c == lower || ('a' <= lower <= 'z' && c as int == lower as int - 32)
  }

  /** `message` spells `word` with any of its letters in either case. */
  predicate SpellsIgnoringCase(message: string, word: string) {
    |message| == |word| && forall i :: 0 <= i < |word| ==> SameLetterIgnoringCase(message[i], word[i])
  }

  /** Lower-casing recovers `word` exactly from the replies that spell it in any case. */
  lemma LowerIsWordIffSpells(message: string, word: string)
    requires word in AffirmativeReplies
    ensures Lower(message) == word <==> SpellsIgnoringCase(message, word)
  {
    var lowered := Lower(message);
    assert forall i :: 0 <= i < |word| ==> 'a' <= word[i] <= 'z';
    if SpellsIgnoringCase(message, word) {
      assert forall i :: 0 <= i < |word| ==> lowered[i] == word[i];
    }
  }

  /**
   * `message.lower() in ["yes", "y", "approve"]`: no trimming, ASCII case
   * folding. A reply approves exactly when it spells one of the three words,
   * each letter in either case, and has nothing else in it.
   */
  predicate IsAffirmative(message: string)
    ensures IsAffirmative(message) <==> exists word :: word in AffirmativeReplies && SpellsIgnoringCase(message, word)
  {
    LowerIsWordIffSpells(message, "yes");
    LowerIsWordIffSpells(message, "y");
    LowerIsWordIffSpells(message, "approve");
    Lower(message) in AffirmativeReplies
  }

  /** The reply the router gives to an answer to a pending order: one of two texts. */
  function ApprovalReply(message: string): (r: string)
    ensures r == Approved <==> IsAffirmative(message)
    ensures r == Cancelled <==> !IsAffirmative(message)
  {
    if IsAffirmative(message) then Approved else Cancelled
  }

  /** Case does not matter: a reply approves exactly when its lower-case form does. */
  lemma AffirmativeIgnoresCase(message: string)
    ensures IsAffirmative(message) <==> IsAffirmative(Lower(message))
  {
    LowerIdempotent(message);
  }

  /** "YES", "Yes", "yEs" and every other casing of "yes" approve. */
  lemma YesInAnyCaseApproves(message: string)
    requires |message| == 3 && message[0] in {'y', 'Y'} && message[1] in {'e', 'E'} && message[2] in {'s', 'S'}
    ensures IsAffirmative(message)
  {
    assert SpellsIgnoringCase(message, "yes");
  }

  /** A reply with a space anywhere in it cancels: the reply is not trimmed. */
  lemma SpaceMeansCancel(message: string, i: nat)
    requires i < |message| && message[i] == ' '
    ensures !IsAffirmative(message)
  {
  }

  /** So " yes" or "yes " cancels the order. */
  lemma PaddedReplyCancels(message: string)
    ensures ApprovalReply(" " + message) == Cancelled
    ensures ApprovalReply(message + " ") == Cancelled
  {
    SpaceMeansCancel(" " + message, 0);
    SpaceMeansCancel(message + " ", |message|);
  }

  const SummaryPrefix := "Order summary: "
  const SummarySuffix := "). Approve this order? (yes/no)"

  /**
   * The prompt that replaces an order responder's own reply when it asks for
   * human approval: "Order summary: <item> ($<amount to two decimals>).
   * Approve this order? (yes/no)".
   */
  function OrderSummary(itemName: string, cents: int): string {
    SummaryPrefix + itemName + " ($" + FormatCents(cents) + SummarySuffix
  }

  /** The position of the last occurrence of `c` in `s`. */
  function LastIndexOf(s: string, c: char): (r: Option<nat>)
    ensures r.None? ==> c !in s
    ensures r.Some? ==> r.value < |s| && s[r.value] == c && c !in s[r.value + 1..]
    decreases |s|
  {
    if s == [] then None
    else if s[|s| - 1] == c then Some(|s| - 1)
    else
      var r := LastIndexOf(s[..|s| - 1], c);
      assert r.Some? ==> s[r.value + 1..] == s[..|s| - 1][r.value + 1..] + [s[|s| - 1]];
      assert s == s[..|s| - 1] + [s[|s| - 1]];
      r
  }

  lemma LastIndexOfMarker(a: string, c: char, b: string)
    requires c !in b
    ensures LastIndexOf(a + [c] + b, c) == Some(|a|)
  {
    var s := a + [c] + b;
    var r := LastIndexOf(s, c);
    assert s[|a|] == c;
  }

  /** Reads the item name and the amount back out of an order summary. */
  function ParseSummary(msg: string): Option<(string, int)> {
    if |msg| < |SummaryPrefix| + |SummarySuffix|
      || msg[..|SummaryPrefix|] != SummaryPrefix
      || msg[|msg| - |SummarySuffix|..] != SummarySuffix
    then None
    else ParseMiddle(msg[|SummaryPrefix|..|msg| - |SummarySuffix|])
  }

  /**
   * The text between the fixed prefix and suffix: item name, " ($", amount.
   * The amount text holds no '$', so the last '$' is the one before the
   * amount, whatever the item name contains.
   */
  function ParseMiddle(middle: string): Option<(string, int)> {
    match LastIndexOf(middle, '$')
    case None => None
    case Some(k) =>
      if k < 2 || middle[k - 2..k] != " (" then None
      else
        match ParseCents(middle[k + 1..])
        case None => None
        case Some(cents) => Some((middle[..k - 2], cents))
  }

  /** The fixed prefix and suffix are found around the text between them. */
  lemma ParseFramed(middle: string)
    ensures ParseSummary(SummaryPrefix + middle + SummarySuffix) == ParseMiddle(middle)
  {
    var msg := SummaryPrefix + middle + SummarySuffix;
    assert msg == SummaryPrefix + (middle + SummarySuffix);
    assert msg[..|SummaryPrefix|] == SummaryPrefix;
    assert msg[|msg| - |SummarySuffix|..] == SummarySuffix;
    assert msg[|SummaryPrefix|..|msg| - |SummarySuffix|] == middle;
  }

  /** The amount text is sign, digits and a point: never a '$'. */
  lemma NoDollarInAmount(cents: int)
    ensures '$' !in FormatCents(cents)
  {
    var amount := FormatCents(cents);
    forall i | 0 <= i < |amount| ensures amount[i] != '$' { }
  }

  /** Between the frame: the item name, " ($" and the amount text are recovered. */
  lemma ParseMiddleOfParts(itemName: string, cents: int)
    ensures ParseMiddle(itemName + " ($" + FormatCents(cents)) == Some((itemName, cents))
  {
    var amount := FormatCents(cents);
    var middle := itemName + " ($" + amount;
    assert middle == (itemName + " (") + ['$'] + amount;
    NoDollarInAmount(cents);
    LastIndexOfMarker(itemName + " (", '$', amount);
    var k := |itemName| + 2;
    assert middle[k - 2..k] == " (";
    assert middle[k + 1..] == amount;
    assert middle[..k - 2] == itemName;
    ParseFormatCents(cents);
  }

  /** The summary determines the item name and the amount it was built from. */
  lemma ParseOrderSummary(itemName: string, cents: int)
    ensures ParseSummary(OrderSummary(itemName, cents)) == Some((itemName, cents))
  {
    var middle := itemName + " ($" + FormatCents(cents);
    assert OrderSummary(itemName, cents) == SummaryPrefix + middle + SummarySuffix;
    ParseFramed(middle);
    ParseMiddleOfParts(itemName, cents);
  }

  /** Between the frame, every text the reader accepts is item name, " ($" and the amount text. */
  lemma FormatParsedMiddle(middle: string, itemName: string, cents: int)
    requires ParseMiddle(middle) == Some((itemName, cents))
    ensures middle == itemName + " ($" + FormatCents(cents)
  {
    var k := LastIndexOf(middle, '$').value;
    FormatParsedCents(middle[k + 1..], cents);
    assert middle == middle[..k - 2] + middle[k - 2..k] + [middle[k]] + middle[k + 1..];
  }

  /** The summary is the fixed frame around item name, " ($" and the amount text. */
  lemma SummaryFrame(itemName: string, cents: int)
    ensures OrderSummary(itemName, cents) == SummaryPrefix + (itemName + " ($" + FormatCents(cents)) + SummarySuffix
  {
  }

  /** A text the summary reader accepts is the fixed frame around the part it reads. */
  lemma UnframeSummary(msg: string)
    requires ParseSummary(msg).Some?
    ensures |msg| >= |SummaryPrefix| + |SummarySuffix|
    ensures var middle := msg[|SummaryPrefix|..|msg| - |SummarySuffix|];
      msg == SummaryPrefix + middle + SummarySuffix && ParseMiddle(middle) == ParseSummary(msg)
  {
    assert msg == msg[..|SummaryPrefix|] + msg[|SummaryPrefix|..|msg| - |SummarySuffix|] + msg[|msg| - |SummarySuffix|..];
  }

  /** Every text the summary reader accepts is exactly the summary of what it reads. */
  lemma FormatParsedSummary(msg: string, itemName: string, cents: int)
    requires ParseSummary(msg) == Some((itemName, cents))
    ensures msg == OrderSummary(itemName, cents)
  {
    UnframeSummary(msg);
    var middle := msg[|SummaryPrefix|..|msg| - |SummarySuffix|];
    FormatParsedMiddle(middle, itemName, cents);
    SummaryFrame(itemName, cents);
  }

  /** Two orders with different item or amount never produce the same summary. */
  lemma OrderSummaryInjective(name1: string, cents1: int, name2: string, cents2: int)
    requires OrderSummary(name1, cents1) == OrderSummary(name2, cents2)
    ensures name1 == name2 && cents1 == cents2
  {
    ParseOrderSummary(name1, cents1);
    ParseOrderSummary(name2, cents2);
  }

  /** The summary for "Atomic Habits" at 19.99 USD: the amount reads "19.99". */
  lemma AtomicHabitsSummary()
    ensures OrderSummary("Atomic Habits", 1999)
         == "Order summary: " + "Atomic Habits" + " ($" + "19.99" + "). Approve this order? (yes/no)"
  {
  }
}
