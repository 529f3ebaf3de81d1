/** The state of the chat page and its event handlers. */
module HomeSession {
  import opened JsText
  import opened ChatLog
  import opened KeyPolicy

  datatype Option<T> = None | Some(value: T)

  /** The JSON body posted to /api/chat: the question and the website URL.
      The history is not part of it. */
  datatype Request = Request(question: string, webUrl: string)

  /** How the request resolves, standing in for the fetch call and the parsed
      body: a response that is not ok, an ok response whose `result.error`
      is "Unauthorized", or an ok response whose `result.text` is `text`. */
  datatype Outcome = HttpNotOk | Unauthorized | Ok(text: string)

  class Session {
    var userInput: string
    var history: seq<HistoryPair>
    var loading: bool
    var websiteUrl: string
    var currentSrc: string
    var messages: seq<Msg>

    /** The session invariant: the log has the shape of a reachable log and
        history is what the sync effect derived from it. */
    ghost predicate Valid()
      reads this
    {
      WellFormedLog(messages, loading) && history == DeriveHistory(messages, [])
    }

    /** The initial state of the page: one greeting, everything else empty. */
    constructor ()
      ensures Valid()
      ensures messages == InitialLog() && history == []
      ensures userInput == "" && websiteUrl == "" && currentSrc == "" && !loading
    {
      userInput := "";
      history := [];
      loading := false;
      websiteUrl := "";
      currentSrc := "";
      messages := InitialLog();
    }

    /** The history-sync effect, after the log grew from `before`. */
    method SyncHistory(ghost before: seq<Msg>)
      requires WellFormedLog(messages, loading)
      requires before <= messages && history == DeriveHistory(before, [])
      modifies this`history
      ensures Valid()
      ensures history == DeriveHistory(messages, old(history))
    {
      HistoryDependsOnLogOnly(before, messages);
      history := DeriveHistory(messages, history);
    }

    /** Typing in the website field (never disabled). */
    method WebChange(value: string)
      requires Valid()
      modifies this`websiteUrl
      ensures Valid() && websiteUrl == value
    {
      websiteUrl := value;
    }

    /** Clicking the arrow next to the website field loads the typed URL
        into the preview frame. */
    method ButtonClick()
      requires Valid()
      modifies this`currentSrc
      ensures Valid() && currentSrc == websiteUrl
    {
      currentSrc := websiteUrl;
    }

    /** Typing in the question field, which is disabled while loading. */
    method InputChange(value: string)
      requires Valid() && !loading
      modifies this`userInput
      ensures Valid() && userInput == value
    {
      userInput := value;
    }

    /** The submit handler up to the request: a blank question changes
        nothing; otherwise the question is appended as typed, and either the
        missing-website reply follows at once (the question stays in the
        field) or the request for the question and the website URL is
        returned and the session waits for it. */
    method SubmitStart() returns (request: Option<Request>)
      requires Valid() && !loading
      modifies this`messages, this`loading, this`history
      ensures Valid() && old(messages) <= messages
      ensures IsBlank(userInput) ==>
        messages == old(messages) && history == old(history) && !loading && request == None
      ensures !IsBlank(userInput) && websiteUrl == "" ==>
        messages == old(messages) + [Msg(userInput, UserMessage), Msg(NoWebsiteReply, ApiMessage)]
        && !loading && request == None
      ensures !IsBlank(userInput) && websiteUrl != "" ==>
        messages == old(messages) + [Msg(userInput, UserMessage)]
        && loading && request == Some(Request(userInput, websiteUrl))
    {
      // The blank guard `userInput.trim() === ""`, which TrimsToEmpty proves equal to IsBlank.
      if IsBlank(userInput) {
        return None;
      }
      ghost var before := messages;
      AppendKeepsWellFormed(messages, loading, Msg(userInput, UserMessage));
      loading := true;
      messages := messages + [Msg(userInput, UserMessage)];
      if websiteUrl == "" {
        AppendKeepsWellFormed(messages, loading, Msg(NoWebsiteReply, ApiMessage));
        messages := messages + [Msg(NoWebsiteReply, ApiMessage)];
        loading := false;
        request := None;
      } else {
        request := Some(Request(userInput, websiteUrl));
      }
      SyncHistory(before);
    }

    /** The error handler: the generic error reply is appended, loading
        ends and the question field is cleared. */
    method HandleError()
      requires Valid() && loading
      modifies this`messages, this`loading, this`userInput, this`history
      ensures Valid()
      ensures messages == old(messages) + [Msg(ErrorReply, ApiMessage)]
      ensures !loading && userInput == ""
    {
      ghost var before := messages;
      AppendKeepsWellFormed(messages, loading, Msg(ErrorReply, ApiMessage));
      messages := messages + [Msg(ErrorReply, ApiMessage)];
      loading := false;
      userInput := "";
      SyncHistory(before);
    }

    /** The submit handler after the request resolved: a failed response
        and an "Unauthorized" result both get the error reply, an answer is
        appended as it came; in every case loading ends and the question
        field is cleared. */
    method Complete(outcome: Outcome)
      requires Valid() && loading
      modifies this`messages, this`loading, this`userInput, this`history
      ensures Valid()
      ensures outcome.Ok? ==> messages == old(messages) + [Msg(outcome.text, ApiMessage)]
      ensures !outcome.Ok? ==> messages == old(messages) + [Msg(ErrorReply, ApiMessage)]
      ensures !loading && userInput == ""
    {
      if outcome == HttpNotOk {
        HandleError();
        return;
      }
      userInput := "";
      match outcome
      case Unauthorized =>
        HandleError();
      case Ok(text) =>
        ghost var before := messages;
        AppendKeepsWellFormed(messages, loading, Msg(text, ApiMessage));
        messages := messages + [Msg(text, ApiMessage)];
        loading := false;
        SyncHistory(before);
    }

    /** A key press in the question field (disabled while loading). It
        reports whether the browser's default is prevented and, when the key
        submits, does what the submit handler does. */
    method KeyDown(key: string, shift: bool) returns (prevented: bool, request: Option<Request>)
      requires Valid() && !loading
      modifies this`messages, this`loading, this`history
      ensures Valid() && old(messages) <= messages
      ensures prevented == PreventsDefault(HandleEnter(key, shift, userInput))
      ensures HandleEnter(key, shift, userInput) != Submit || IsBlank(userInput) ==>
        messages == old(messages) && history == old(history) && !loading && request == None
      ensures HandleEnter(key, shift, userInput) == Submit && !IsBlank(userInput) && websiteUrl == "" ==>
        messages == old(messages) + [Msg(userInput, UserMessage), Msg(NoWebsiteReply, ApiMessage)]
        && !loading && request == None
      ensures HandleEnter(key, shift, userInput) == Submit && !IsBlank(userInput) && websiteUrl != "" ==>
        messages == old(messages) + [Msg(userInput, UserMessage)]
        && loading && request == Some(Request(userInput, websiteUrl))
    {
      var action := HandleEnter(key, shift, userInput);
      prevented := PreventsDefault(action);
      if action == Submit {
        request := SubmitStart();
      } else {
        request := None;
      }
    }
  }
}
