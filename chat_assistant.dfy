/**
 * components/shared/ChatAssistant.tsx: the chat modal. It keeps the
 * transcript of the selected session, sends questions about the document
 * and appends the assistant's replies, and adopts the session the backend
 * opens for the first question of a new chat.
 */
module ChatAssistant {
  import opened Types
  import opened Strings
  import Api

  const UserRole: string := "user"
  const AssistantRole: string := "assistant"
  const ErrorReply: string := "Sorry, an error occurred."

  datatype Message = Message(role: string, text: string)

  /** What `chatWithAssistant` resolves to; `session_id` may be missing. */
  datatype ChatReply = ChatReply(answer: string, sessionId: Option<string>)

  /** A stored history as the transcript shows it: `content` becomes `text`,
      roles and order are kept. */
  function Transcript(history: seq<HistoryEntry>): (m: seq<Message>)
    ensures |m| == |history|
    ensures forall i :: 0 <= i < |m| ==> m[i].role == history[i].role && m[i].text == history[i].content
  {
    if history == [] then [] else [Message(history[0].role, history[0].content)] + Transcript(history[1..])
  }

  /** The history a transcript was read from. */
  function HistoryOf(messages: seq<Message>): (h: seq<HistoryEntry>)
    ensures |h| == |messages|
    ensures forall i :: 0 <= i < |h| ==> h[i] == HistoryEntry(messages[i].role, messages[i].text)
  {
    if messages == [] then [] else [HistoryEntry(messages[0].role, messages[0].text)] + HistoryOf(messages[1..])
  }

  /** The transcript loses nothing of a history. */
  lemma TranscriptRoundTrip(history: seq<HistoryEntry>)
    ensures HistoryOf(Transcript(history)) == history
  {
    var h := HistoryOf(Transcript(history));
    assert |h| == |history|;
    forall i | 0 <= i < |h| ensures h[i] == history[i] {
    }
  }

  /** The assistant message a settled chat call produces. */
  function ReplyMessage(outcome: Outcome<ChatReply>): (m: Message)
    ensures m.role == AssistantRole
    ensures m.text == (if outcome.Success? then outcome.payload.answer else ErrorReply)
  {
    match outcome
    case Success(reply) => Message(AssistantRole, reply.answer)
    case Failure(_) => Message(AssistantRole, ErrorReply)
  }

  /** `sendMessage` returns at once for a blank text or while a reply is
      pending. */
  function SendBlocked(text: string, loading: bool): (b: bool)
    ensures b <==> IsBlank(text) || loading
  {
    TrimEmptyIffBlank(text);
    Trim(text) == "" || loading
  }

  /** The floating input form hands on the text as typed, and only when it
      is not blank. */
  function FormSubmission(message: string): (r: Option<string>)
    ensures r.Some? <==> !IsBlank(message)
    ensures r.Some? ==> r.value == message
  {
    TrimEmptyIffBlank(message);
    if Trim(message) != "" then Some(message) else None
  }

  datatype KeyAction = CloseForm | SubmitForm | NoAction

  /** The floating form's keys: Escape closes it, Enter submits it only with
      Meta or Ctrl held. */
  function FormKey(key: string, meta: bool, ctrl: bool): (a: KeyAction)
    ensures a == CloseForm <==> key == "Escape"
    ensures a == SubmitForm <==> key == "Enter" && (meta || ctrl)
  {
    if key == "Escape" then CloseForm
    else if key == "Enter" && (meta || ctrl) then SubmitForm
    else NoAction
  }

  /** The follow-up textarea sends on Enter without Shift. */
  function TextareaSends(key: string, shift: bool): bool {
    key == "Enter" && !shift
  }

  /** The send button is disabled exactly when a send would be blocked. */
  function SendDisabled(input: string, loading: bool): (d: bool)
    ensures d == SendBlocked(input, loading)
  {
    TrimEmptyIffBlank(input);
    Trim(input) == "" || loading
  }

  datatype ChatView = PromptView | LoaderView | TranscriptView

  /** The right-hand pane: the prompt for an empty new chat, a loader while
      the first reply of an empty chat is pending, the transcript otherwise. */
  function ViewOf(messageCount: nat, selected: Option<string>, loading: bool): (v: ChatView)
    ensures v == PromptView <==> messageCount == 0 && !Truthy(selected) && !loading
    ensures v == LoaderView <==> messageCount == 0 && loading
    ensures v == TranscriptView <==> messageCount > 0 || (Truthy(selected) && !loading)
  {
    if messageCount == 0 && !Truthy(selected) && !loading then PromptView
    else if messageCount == 0 && loading then LoaderView
    else TranscriptView
  }

  /** The highlight of each session row: a row is highlighted exactly when
      it is the selected session. */
  function Highlights(sessions: seq<SessionSummary>, selected: Option<string>): (h: seq<bool>)
    ensures |h| == |sessions|
    ensures forall i :: 0 <= i < |h| ==> (h[i] <==> selected == Some(sessions[i].sessionId))
  {
    if sessions == [] then []
    else [selected == Some(sessions[0].sessionId)] + Highlights(sessions[1..], selected)
  }

  /** With distinct session ids at most one row is highlighted. */
  lemma HighlightUnique(sessions: seq<SessionSummary>, selected: Option<string>)
    requires forall i, j :: 0 <= i < j < |sessions| ==> sessions[i].sessionId != sessions[j].sessionId
    ensures var h := Highlights(sessions, selected);
      forall i, j :: 0 <= i < j < |h| ==> !(h[i] && h[j])
  {
    var h := Highlights(sessions, selected);
    forall i, j | 0 <= i < j < |h| ensures !(h[i] && h[j]) {
      assert sessions[i].sessionId != sessions[j].sessionId;
    }
  }

  /** Some row is highlighted exactly when the selection is listed. */
  lemma HighlightIffListed(sessions: seq<SessionSummary>, selected: Option<string>)
    ensures var h := Highlights(sessions, selected);
      (exists i :: 0 <= i < |h| && h[i]) <==> selected.Some? && selected.value in Ids(sessions)
  {
    var h := Highlights(sessions, selected);
    if selected.Some? && selected.value in Ids(sessions) {
      var i :| 0 <= i < |sessions| && Ids(sessions)[i] == selected.value;
      assert h[i];
    }
  }

  /** The ids of the listed sessions, in order. */
  function Ids(sessions: seq<SessionSummary>): (ids: seq<string>)
    ensures |ids| == |sessions| && forall i :: 0 <= i < |ids| ==> ids[i] == sessions[i].sessionId
  {
    if sessions == [] then [] else [sessions[0].sessionId] + Ids(sessions[1..])
  }

  class ChatModal {
    const uid: string
    var input: string
    var messages: seq<Message>
    var loading: bool
    var sessions: seq<SessionSummary>
    var selected: Option<string>

    constructor (uid: string)
      ensures this.uid == uid
      ensures input == "" && messages == [] && !loading && sessions == [] && selected == None
    {
      this.uid := uid;
      input := "";
      messages := [];
      loading := false;
      sessions := [];
      selected := None;
    }

    method SetInput(value: string)
      modifies this
      ensures input == value
      ensures messages == old(messages) && loading == old(loading) && sessions == old(sessions) && selected == old(selected)
    {
      input := value;
    }

    /** Opening the modal asks for the session list. */
    method Open() returns (request: Api.Operation)
      ensures request == Api.GetSessions
    {
      request := Api.GetSessions;
    }

    /** The session list arrives; a failed fetch leaves the list as it was. */
    method SessionsLoaded(outcome: Outcome<seq<SessionSummary>>)
      modifies this
      ensures sessions == (if outcome.Success? then outcome.payload else old(sessions))
      ensures input == old(input) && messages == old(messages) && loading == old(loading) && selected == old(selected)
    {
      if outcome.Success? {
        sessions := outcome.payload;
      }
    }

    /** The effect that follows a change of the selection: the transcript
        is emptied, and the history of a selected session is requested. */
    method SelectionEffect() returns (historyRequest: Option<Api.Operation>)
      modifies this
      ensures messages == []
      ensures historyRequest == (if Truthy(selected) then Some(Api.GetSessionHistory(selected.value)) else None)
      ensures input == old(input) && loading == old(loading) && sessions == old(sessions) && selected == old(selected)
    {
      messages := [];
      historyRequest := if Truthy(selected) then Some(Api.GetSessionHistory(selected.value)) else None;
    }

    /** Setting the selection (a row click, "New Chat", or an adopted
        session); the effect runs only when the value changes. */
    method SelectSession(id: Option<string>) returns (historyRequest: Option<Api.Operation>)
      modifies this
      ensures selected == id
      ensures id == old(selected) ==> unchanged(this) && historyRequest == None
      ensures id != old(selected) ==>
        messages == [] && historyRequest == (if Truthy(id) then Some(Api.GetSessionHistory(id.value)) else None)
      ensures input == old(input) && loading == old(loading) && sessions == old(sessions)
    {
      if id == selected {
        historyRequest := None;
      } else {
        selected := id;
        historyRequest := SelectionEffect();
      }
    }

    /** `handleNewSession`. */
    method NewSession() returns (historyRequest: Option<Api.Operation>)
      modifies this
      ensures selected == None && historyRequest == None
      ensures old(selected) != None ==> messages == []
      ensures old(selected) == None ==> messages == old(messages)
      ensures input == old(input) && loading == old(loading) && sessions == old(sessions)
    {
      historyRequest := SelectSession(None);
    }

    /** The requested history arrives and replaces the transcript wholesale;
        a failed fetch changes nothing. */
    method HistoryLoaded(outcome: Outcome<seq<HistoryEntry>>)
      modifies this
      ensures messages == (if outcome.Success? then Transcript(outcome.payload) else old(messages))
      ensures input == old(input) && loading == old(loading) && sessions == old(sessions) && selected == old(selected)
    {
      if outcome.Success? {
        messages := Transcript(outcome.payload);
      }
    }

    /** `sendMessage(text)` up to its `await`: a blank text or a pending
        reply stops it with nothing changed; otherwise the untrimmed text is
        appended as the user's, loading starts and the input is cleared. */
    method BeginSend(text: string) returns (call: Option<Api.Operation>)
      modifies this
      ensures (IsBlank(text) || old(loading)) ==> unchanged(this) && call == None
      ensures !(IsBlank(text) || old(loading)) ==>
        && messages == old(messages) + [Message(UserRole, text)]
        && loading && input == ""
        && call == Some(Api.ChatWithAssistant(uid, text, old(selected)))
      ensures sessions == old(sessions) && selected == old(selected)
    {
      var blocked := IsBlank(text) || loading;
      if blocked {
        call := None;
      } else {
        messages := messages + [Message(UserRole, text)];
        loading := true;
        input := "";
        call := Some(Api.ChatWithAssistant(uid, text, selected));
      }
    }

    /** The send button, and `sendMessage()` with its default argument:
        the current input is sent, and the button's disabled state is
        exactly the case in which nothing happens. */
    method SendFromInput() returns (call: Option<Api.Operation>)
      modifies this
      ensures call.Some? <==> !SendDisabled(old(input), old(loading))
      ensures call.None? ==> unchanged(this)
      ensures call.Some? ==>
        && messages == old(messages) + [Message(UserRole, old(input))]
        && loading && input == ""
        && call == Some(Api.ChatWithAssistant(uid, old(input), old(selected)))
      ensures sessions == old(sessions) && selected == old(selected)
    {
      call := BeginSend(input);
    }

    /** A key in the follow-up textarea: Enter without Shift sends the
        input; any other key changes nothing here. */
    method TextareaKeyDown(key: string, shift: bool) returns (call: Option<Api.Operation>)
      modifies this
      ensures !TextareaSends(key, shift) ==> unchanged(this) && call == None
      ensures call.Some? <==> TextareaSends(key, shift) && !SendDisabled(old(input), old(loading))
      ensures call.Some? ==> call == Some(Api.ChatWithAssistant(uid, old(input), old(selected))) && input == ""
    {
      if TextareaSends(key, shift) {
        call := SendFromInput();
      } else {
        call := None;
      }
    }

    /** The continuation of `sendMessage`, given the selection the call was
        made with and how the call settled. The reply, or the fixed error
        text, is appended; a first reply of a new chat selects the session
        it names and asks for the session list again; loading always ends. */
    method EndSend(asked: Option<string>, outcome: Outcome<ChatReply>)
      returns (historyRequest: Option<Api.Operation>, refreshSessions: bool)
      modifies this
      ensures !loading
      ensures var adopts := outcome.Success? && !Truthy(asked);
        && refreshSessions == adopts
        && selected == (if adopts then outcome.payload.sessionId else old(selected))
        && messages == (if adopts && outcome.payload.sessionId != old(selected) then []
                        else old(messages) + [ReplyMessage(outcome)])
        && historyRequest == (if adopts && outcome.payload.sessionId != old(selected) && Truthy(outcome.payload.sessionId)
                              then Some(Api.GetSessionHistory(outcome.payload.sessionId.value)) else None)
      ensures input == old(input) && sessions == old(sessions)
    {
      messages := messages + [ReplyMessage(outcome)];
      historyRequest := None;
      refreshSessions := false;
      if outcome.Success? && !Truthy(asked) {
        historyRequest := SelectSession(outcome.payload.sessionId);
        refreshSessions := true;
      }
      loading := false;
    }
  }

  /** One question inside a selected session: the transcript grows by
      exactly the question and one assistant reply, the selection is kept,
      and loading ends; a blocked question changes nothing. */
  method SendInSession(chat: ChatModal, text: string, outcome: Outcome<ChatReply>)
    requires Truthy(chat.selected)
    modifies chat
    ensures (IsBlank(text) || old(chat.loading)) ==>
      chat.messages == old(chat.messages) && chat.loading == old(chat.loading)
    ensures !(IsBlank(text) || old(chat.loading)) ==>
      chat.messages == old(chat.messages) + [Message(UserRole, text), ReplyMessage(outcome)] && !chat.loading
    ensures chat.selected == old(chat.selected) && chat.sessions == old(chat.sessions)
  {
    var call := chat.BeginSend(text);
    if call.Some? {
      var historyRequest, refresh := chat.EndSend(call.value.chatSession, outcome);
      assert old(chat.messages) + [Message(UserRole, text)] + [ReplyMessage(outcome)]
          == old(chat.messages) + [Message(UserRole, text), ReplyMessage(outcome)];
    }
  }

  /** The first question of a new chat: once the reply names a fresh
      session, that session becomes the selection and the transcript is
      reloaded from its stored history. */
  method FirstQuestion(chat: ChatModal, text: string, reply: ChatReply) returns (historyRequest: Option<Api.Operation>)
    requires chat.selected == None && !chat.loading && !IsBlank(text)
    requires Truthy(reply.sessionId)
    modifies chat
    ensures chat.selected == reply.sessionId && !chat.loading
    ensures chat.messages == []
    ensures historyRequest == Some(Api.GetSessionHistory(reply.sessionId.value))
  {
    var call := chat.BeginSend(text);
    var refresh;
    historyRequest, refresh := chat.EndSend(call.value.chatSession, Success(reply));
  }
}
