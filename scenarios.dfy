/** Short sessions driven through the handlers, each pinning one behaviour
    of the page as a caller sees it. */
module Scenarios {
  import opened JsText
  import opened ChatLog
  import opened KeyPolicy
  import opened HomeSession

  /** A website is entered and a question asked; the service answers. The
      log ends with the greeting, the question and the answer, the field is
      cleared and loading is over; the request carried the question and the
      URL, and while it was pending the question bubble was the waiting one. */
  method ExampleExchange() returns (log: seq<Msg>, input: string, busy: bool, sent: Option<Request>, pendingBubble: Bubble)
    ensures log == [Msg(Greeting, ApiMessage),
                    Msg("What is this page about?", UserMessage),
                    Msg("It is an example domain.", ApiMessage)]
    ensures input == "" && !busy
    ensures sent == Some(Request("What is this page about?", "https://example.com"))
    ensures pendingBubble == UserMessageWaiting
  {
    var s := new Session();
    s.WebChange("https://example.com");
    var q := "What is this page about?";
    s.InputChange(q);
    assert !IsWhitespace(q[0]);
    var prevented;
    prevented, sent := s.KeyDown("Enter", false);
    assert prevented;
    assert s.loading && |s.messages| == 2;
    pendingBubble := BubbleStyle(s.messages[1], s.loading, 1, |s.messages|);
    s.Complete(Ok("It is an example domain."));
    log, input, busy := s.messages, s.userInput, s.loading;
  }

  /** Asking with no website entered gets the guidance reply at once and
      keeps the question in the field; a failed request, by contrast, clears
      it. */
  method MissingWebsiteKeepsQuestion() returns (afterGuidance: string, afterError: string, log: seq<Msg>)
    ensures afterGuidance == "hi" && afterError == ""
    ensures log == [Msg(Greeting, ApiMessage),
                    Msg("hi", UserMessage), Msg(NoWebsiteReply, ApiMessage),
                    Msg("hi", UserMessage), Msg(ErrorReply, ApiMessage)]
  {
    var s := new Session();
    s.InputChange("hi");
    assert !IsWhitespace("hi"[0]);
    var none := s.SubmitStart();
    assert none == None;
    afterGuidance := s.userInput;
    s.WebChange("https://example.com");
    var sent := s.SubmitStart();
    assert sent == Some(Request("hi", "https://example.com"));
    s.Complete(HttpNotOk);
    afterError := s.userInput;
    log := s.messages;
  }

  /** Enter on a field holding only spaces is a submission as far as the key
      policy goes (the field is not empty), so the default is prevented, but
      the blank guard stops it: no turn, no request, no waiting. */
  method BlankEnterChangesNothing() returns (prevented: bool, sent: Option<Request>, log: seq<Msg>, busy: bool)
    ensures prevented && sent == None && log == InitialLog() && !busy
  {
    var s := new Session();
    s.WebChange("https://example.com");
    s.InputChange("   ");
    prevented, sent := s.KeyDown("Enter", false);
    log, busy := s.messages, s.loading;
  }

  /** The preview frame shows the URL of the last click; the request uses
      the URL currently typed, whatever the frame shows. */
  method RequestUsesTypedUrl() returns (frame: string, sent: Option<Request>)
    ensures frame == "https://a.example"
    ensures sent == Some(Request("why?", "https://b.example"))
  {
    var s := new Session();
    s.WebChange("https://a.example");
    s.ButtonClick();
    s.WebChange("https://b.example");
    s.InputChange("why?");
    assert !IsWhitespace("why?"[0]);
    sent := s.SubmitStart();
    frame := s.currentSrc;
  }

  /** After two settled exchanges the history is the last question and its
      answer; it is never part of the request. */
  method HistoryAfterTwoExchanges() returns (history: seq<HistoryPair>, second: Option<Request>)
    ensures history == [("b", "B")]
    ensures second == Some(Request("b", "https://example.com"))
  {
    var s := new Session();
    s.WebChange("https://example.com");
    s.InputChange("a");
    assert !IsWhitespace("a"[0]);
    var first := s.SubmitStart();
    assert first == Some(Request("a", "https://example.com"));
    s.Complete(Ok("A"));
    s.InputChange("b");
    assert !IsWhitespace("b"[0]);
    second := s.SubmitStart();
    s.Complete(Ok("B"));
    history := s.history;
  }
}
