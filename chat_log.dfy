/** The message log of the chat page, the history pair derived from it, and
    the bubble style each turn is rendered with. */
module ChatLog {

  /** The `type` field of a turn: "userMessage" or "apiMessage". */
  datatype MsgType = UserMessage | ApiMessage

  /** One turn of the conversation, `{ message, type }`. */
  datatype Msg = Msg(message: string, kind: MsgType)

  /** The text of the turn the log starts with. */
  const Greeting: string := "Hey, I'm Apollo! How can I help?"

  /** The reply appended when a question is asked with no website entered. */
  const NoWebsiteReply: string := "Please input a website before asking a question."

  /** The reply appended on an HTTP failure or an "Unauthorized" result. */
  const ErrorReply: string := "There seems to be an error"

  /** The log the page starts with: one greeting from the assistant. */
  function InitialLog(): seq<Msg> {
    [Msg(Greeting, ApiMessage)]
  }

  /** One element of `history`: the texts of the two newest turns, older first. */
  type HistoryPair = (string, string)

  /** The history-sync effect, run after the log changed: with three turns or
      more, history becomes the single pair of the two newest texts, whatever
      their kinds; with fewer, the previous history is kept. */
  function DeriveHistory(messages: seq<Msg>, previous: seq<HistoryPair>): (r: seq<HistoryPair>)
    ensures |messages| >= 3 ==> |r| == 1
    ensures |messages| < 3 ==> r == previous
  {
    if |messages| >= 3 then
      [(messages[|messages| - 2].message, messages[|messages| - 1].message)]
    else
      previous
  }

  /** Running the effect on a log that grew from `before` to `after`, with the
      history that the effect left for `before` (starting from the empty
      history), gives the history the effect would compute for `after` from
      the empty history: keeping the previous value is never observable on an
      append-only log, so history is a function of the log alone. */
  lemma HistoryDependsOnLogOnly(before: seq<Msg>, after: seq<Msg>)
    requires before <= after
    ensures DeriveHistory(after, DeriveHistory(before, [])) == DeriveHistory(after, [])
  {
  }

  /** The kind a turn at position i has on any log the page can reach: the
      greeting and every answer at even positions, questions at odd ones. */
  function KindAt(i: nat): MsgType {
    if i % 2 == 1 then UserMessage else ApiMessage
  }

  /** The shape of every log the page can reach: it starts with the greeting,
      questions and answers alternate, and a request is pending exactly when
      the newest turn is a question. */
  ghost predicate WellFormedLog(messages: seq<Msg>, loading: bool) {
    |messages| >= 1 && messages[0] == Msg(Greeting, ApiMessage)
    && (forall i :: 0 <= i < |messages| ==> messages[i].kind == KindAt(i))
    && (loading <==> |messages| % 2 == 0)
  }

  /** Appending the turn of the kind due at the end keeps a log reachable,
      with a request pending exactly when that turn is a question. */
  lemma {:induction false} AppendKeepsWellFormed(messages: seq<Msg>, loading: bool, m: Msg)
    requires WellFormedLog(messages, loading) && m.kind == KindAt(|messages|)
    ensures WellFormedLog(messages + [m], m.kind == UserMessage)
  {
    var after := messages + [m];
    forall i | 0 <= i < |after|
      ensures after[i].kind == KindAt(i)
    {
      if i < |messages| {
        assert after[i] == messages[i];
      }
    }
  }

  /** The history pair on a reachable log, whose turn kinds the positional
      window ignores: once an exchange is settled it is (question, answer),
      but while a request is pending it is (previous answer, pending
      question). */
  lemma {:induction false} HistoryPairKinds(messages: seq<Msg>, loading: bool)
    requires WellFormedLog(messages, loading) && |messages| >= 3
    ensures messages[|messages| - 2].kind == (if loading then ApiMessage else UserMessage)
    ensures messages[|messages| - 1].kind == (if loading then UserMessage else ApiMessage)
  {
    var n := |messages|;
    assert messages[n - 2].kind == KindAt(n - 2);
    assert messages[n - 1].kind == KindAt(n - 1);
  }

  /** The CSS class of a message bubble. */
  datatype Bubble = UserMessageWaiting | ApiMessageBubble | UserMessageBubble

  /** The class chosen for the turn at `index` of a log of `count` turns:
      a question is animated while it is the newest turn and a request is
      pending; answers and other questions get their plain style. */
  function BubbleStyle(m: Msg, loading: bool, index: nat, count: nat): (b: Bubble)
    ensures b == ApiMessageBubble <==> m.kind == ApiMessage
    ensures b == UserMessageWaiting ==> loading && index + 1 == count
  {
    if m.kind == UserMessage && loading && index == count - 1 then UserMessageWaiting
    else if m.kind == ApiMessage then ApiMessageBubble
    else UserMessageBubble
  }

  /** On a reachable log, the waiting animation is shown on exactly one
      bubble while a request is pending, the newest one, and on none
      otherwise. */
  lemma {:induction false} WaitingBubbleIsPendingQuestion(messages: seq<Msg>, loading: bool, index: nat)
    requires WellFormedLog(messages, loading) && index < |messages|
    ensures BubbleStyle(messages[index], loading, index, |messages|) == UserMessageWaiting
            <==> loading && index == |messages| - 1
  {
    assert messages[index].kind == KindAt(index);
  }
}
