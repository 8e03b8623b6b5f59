/** The page's state and the callbacks that change it: the CRUD operations
    on clients and deadlines, one chat turn and the dashboard summary.

    Generated ids, clock readings and the agent's outcome are parameters;
    an agent call is split at its `await` into a method that issues the
    request and one that handles the outcome. */
module Tracker {
  import opened Wrappers
  import opened Seqs
  import opened Records
  import opened Edits
  import opened Context
  import opened Agent

  const AgentId: string := "69920c27a36c3292aec62958"

  const SummaryPrompt: string :=
    "Provide a weekly workload summary. Include key priorities, overdue items, and recommendations for the week ahead."

  datatype Role = User | Assistant

  /** A chat message; `content` is whatever the reply chose (see `Reply`). */
  datatype ChatMessage = ChatMessage(
    id: string, role: Role, content: Json, parsedResponse: Option<Normalized>, timestamp: string)

  /** A generated UUID and the ISO clock reading taken with it. */
  datatype Stamp = Stamp(id: string, time: string)

  /** What goes to `callAIAgent`: the prompt, the context appended to it and
      the agent id. */
  datatype AgentRequest = AgentRequest(prompt: string, context: seq<ClientSummary>, agentId: string)

  /** The characters `String.prototype.trim` removes: white space and line
      terminators. */
  predicate IsJsWhitespace(c: char)
  {
    || c == '\t' || c == '\n' || c == '\U{B}' || c == '\U{C}' || c == '\r' || c == ' '
    || c == '\U{A0}' || c == '\U{1680}' || ('\U{2000}' <= c <= '\U{200A}')
    || c == '\U{2028}' || c == '\U{2029}' || c == '\U{202F}' || c == '\U{205F}'
    || c == '\U{3000}' || c == '\U{FEFF}'
  }

  /** `text.trimStart()`: drop the leading white space. */
  function TrimStart(text: string): (r: string)
    ensures |r| <= |text| && r == text[|text| - |r|..]
    ensures r == [] || !IsJsWhitespace(r[0])
    ensures forall i :: 0 <= i < |text| - |r| ==> IsJsWhitespace(text[i])
    decreases |text|
  {
    if text != [] && IsJsWhitespace(text[0]) then TrimStart(text[1..]) else text
  }

  /** `text.trimEnd()`: drop the trailing white space. */
  function TrimEnd(text: string): (r: string)
    ensures |r| <= |text| && r == text[..|r|]
    ensures r == [] || !IsJsWhitespace(r[|r| - 1])
    ensures forall i :: |r| <= i < |text| ==> IsJsWhitespace(text[i])
    decreases |text|
  {
    if text != [] && IsJsWhitespace(text[|text| - 1]) then TrimEnd(text[..|text| - 1]) else text
  }

  /** `core` sits at `i` in `text` with only white space before and after it. */
  predicate PaddedAt(text: string, core: string, i: int)
  {
    && 0 <= i <= |text| - |core| && core == text[i..i + |core|]
    && (forall k :: 0 <= k < i ==> IsJsWhitespace(text[k]))
    && (forall k :: i + |core| <= k < |text| ==> IsJsWhitespace(text[k]))
  }

  /** `text.trim()`: a stretch of the text that neither starts nor ends with
      white space, with only white space around it. */
  function Trim(text: string): (r: string)
    ensures exists i :: PaddedAt(text, r, i)
    ensures r == [] || (!IsJsWhitespace(r[0]) && !IsJsWhitespace(r[|r| - 1]))
  {
    TrimmedIsPadded(text);
    TrimEnd(TrimStart(text))
  }

  /** Trimming the front and then the back leaves a padded core. */
  lemma TrimmedIsPadded(text: string)
    ensures PaddedAt(text, TrimEnd(TrimStart(text)), |text| - |TrimStart(text)|)
  {
    var t := TrimStart(text);
    PaddingCarriesOver(text, t, TrimEnd(t), |text| - |t|);
  }

  /** A prefix of a suffix, each cut off at white space only, is padded in
      the whole text. */
  lemma PaddingCarriesOver(text: string, t: string, r: string, i: int)
    requires 0 <= i <= |text| && t == text[i..] && |r| <= |t| && r == t[..|r|]
    requires forall k :: 0 <= k < i ==> IsJsWhitespace(text[k])
    requires forall k :: |r| <= k < |t| ==> IsJsWhitespace(t[k])
    ensures PaddedAt(text, r, i)
  {
    forall k | i + |r| <= k < |text| ensures IsJsWhitespace(text[k]) {
      assert text[k] == t[k - i];
    }
  }

  /** `!text.trim()`: nothing but white space. */
  predicate IsBlank(text: string)
  {
    forall i :: 0 <= i < |text| ==> IsJsWhitespace(text[i])
  }

  /** Trimming leaves nothing exactly when the text is blank. */
  lemma BlankIffTrimmedEmpty(text: string)
    ensures IsBlank(text) <==> Trim(text) == ""
  {
  }

  function UserMessage(text: string, stamp: Stamp): ChatMessage
  {
    ChatMessage(stamp.id, User, JStr(text), None, stamp.time)
  }

  function AssistantMessage(outcome: AgentOutcome, parse: string -> Option<Json>, stamp: Stamp): ChatMessage
  {
    var reply := Reply(outcome, parse);
    ChatMessage(stamp.id, Assistant, reply.0, reply.1, stamp.time)
  }

  function IsRole(role: Role): ChatMessage -> bool
  {
    (m: ChatMessage) => m.role == role
  }

  function CountRole(messages: seq<ChatMessage>, role: Role): nat
  {
    CountWhere(messages, IsRole(role))
  }

  /** A full turn adds one user message and one assistant message to the log. */
  lemma TurnAddsOneEach(messages: seq<ChatMessage>, text: string, userStamp: Stamp,
                        outcome: AgentOutcome, parse: string -> Option<Json>, replyStamp: Stamp)
    ensures var after := messages + [UserMessage(text, userStamp), AssistantMessage(outcome, parse, replyStamp)];
      && CountRole(after, User) == CountRole(messages, User) + 1
      && CountRole(after, Assistant) == CountRole(messages, Assistant) + 1
  {
    var turn := [UserMessage(text, userStamp), AssistantMessage(outcome, parse, replyStamp)];
    FilterAppend(messages, turn, IsRole(User));
    FilterAppend(messages, turn, IsRole(Assistant));
    assert Filter(turn, IsRole(User)) == [turn[0]];
    assert Filter(turn, IsRole(Assistant)) == [turn[1]];
  }

  class Page {
    var clients: seq<Client>
    var deadlines: seq<Deadline>
    var selectedClientId: Option<string>
    var selectedDeadlineIds: set<string>
    var clientForm: ClientForm
    var deadlineForm: DeadlineForm
    var editingClient: Option<Client>
    var editingDeadline: Option<Deadline>
    var deadlineForClientId: Option<string>
    var chatMessages: seq<ChatMessage>
    var chatInput: string
    var chatLoading: bool
    var activeAgentId: Option<string>
    var aiSummary: Option<Normalized>
    var aiSummaryLoading: bool

    /** The state before anything is loaded. */
    constructor ()
      ensures clients == [] && deadlines == [] && chatMessages == []
      ensures selectedClientId.None? && selectedDeadlineIds == {}
      ensures clientForm == EmptyClientForm && deadlineForm == EmptyDeadlineForm
      ensures editingClient.None? && editingDeadline.None? && deadlineForClientId.None?
      ensures chatInput == "" && !chatLoading && activeAgentId.None?
      ensures aiSummary.None? && !aiSummaryLoading
    {
      clients, deadlines, chatMessages := [], [], [];
      selectedClientId, selectedDeadlineIds := None, {};
      clientForm, deadlineForm := EmptyClientForm, EmptyDeadlineForm;
      editingClient, editingDeadline, deadlineForClientId := None, None, None;
      chatInput, chatLoading, activeAgentId := "", false, None;
      aiSummary, aiSummaryLoading := None, false;
    }

    // -------------------------------------------------------------------------
    // Clients

    /** `addClient`: append the client built from the form, clear the form. */
    method AddClient(stamp: Stamp)
      modifies this`clients, this`clientForm
      ensures clients == old(clients) + [NewClient(old(clientForm), stamp.id, stamp.time)]
      ensures clientForm == EmptyClientForm
    {
      var c := NewClient(clientForm, stamp.id, stamp.time);
      clients := clients + [c];
      clientForm := EmptyClientForm;
    }

    /** `updateClient`: nothing without a client being edited. */
    method UpdateClient()
      modifies this`clients, this`editingClient
      ensures old(editingClient).None? ==> clients == old(clients) && editingClient.None?
      ensures old(editingClient).Some? ==> clients == ReplaceClient(old(clients), old(editingClient).value)
      ensures editingClient.None?
    {
      if editingClient.None? {
        return;
      }
      clients := ReplaceClient(clients, editingClient.value);
      editingClient := None;
    }

    /** `deleteClient`: remove the client and its deadlines, and deselect it. */
    method DeleteClient(id: string)
      modifies this`clients, this`deadlines, this`selectedClientId
      ensures clients == RemoveClient(old(clients), id)
      ensures deadlines == RemoveClientDeadlines(old(deadlines), id)
      ensures selectedClientId == if old(selectedClientId) == Some(id) then None else old(selectedClientId)
      ensures forall d :: d in deadlines ==> d.clientId != id
    {
      clients := RemoveClient(clients, id);
      deadlines := RemoveClientDeadlines(deadlines, id);
      if selectedClientId == Some(id) {
        selectedClientId := None;
      }
    }

    // -------------------------------------------------------------------------
    // Deadlines

    /** `addDeadline`: append the deadline built from the form, then clear the
        form and the client scope. `utcToday` is the clock's UTC day. */
    method AddDeadline(stamp: Stamp, utcToday: int)
      modifies this`deadlines, this`deadlineForm, this`deadlineForClientId
      ensures deadlines == old(deadlines) +
        [NewDeadline(old(deadlineForm), old(deadlineForClientId), clients, stamp.id, stamp.time, utcToday)]
      ensures deadlineForm == EmptyDeadlineForm && deadlineForClientId.None?
    {
      var d := NewDeadline(deadlineForm, deadlineForClientId, clients, stamp.id, stamp.time, utcToday);
      deadlines := deadlines + [d];
      deadlineForm := EmptyDeadlineForm;
      deadlineForClientId := None;
    }

    /** `updateDeadline`: nothing without a deadline being edited. */
    method UpdateDeadline()
      modifies this`deadlines, this`editingDeadline
      ensures old(editingDeadline).None? ==> deadlines == old(deadlines)
      ensures old(editingDeadline).Some? ==> deadlines == ReplaceDeadline(old(deadlines), old(editingDeadline).value)
      ensures editingDeadline.None?
    {
      if editingDeadline.None? {
        return;
      }
      deadlines := ReplaceDeadline(deadlines, editingDeadline.value);
      editingDeadline := None;
    }

    /** `deleteDeadline`. */
    method DeleteDeadline(id: string)
      modifies this`deadlines
      ensures deadlines == RemoveDeadline(old(deadlines), id)
      ensures forall d :: d in deadlines ==> d.id != id
    {
      deadlines := RemoveDeadline(deadlines, id);
    }

    /** `toggleDeadlineStatus`. */
    method ToggleDeadlineStatus(id: string)
      modifies this`deadlines
      ensures deadlines == ToggleStatus(old(deadlines), id)
    {
      deadlines := ToggleStatus(deadlines, id);
    }

    /** `bulkMarkComplete`: complete the selection, then clear it. */
    method BulkMarkComplete()
      modifies this`deadlines, this`selectedDeadlineIds
      ensures deadlines == MarkComplete(old(deadlines), old(selectedDeadlineIds))
      ensures selectedDeadlineIds == {}
    {
      deadlines := MarkComplete(deadlines, selectedDeadlineIds);
      selectedDeadlineIds := {};
    }

    // -------------------------------------------------------------------------
    // Chat

    /** `sendChatMessage` up to the agent call. A blank text changes nothing;
        any other is logged as the user's message, the input is cleared and
        the page waits for the agent. The caller keeps a second turn from
        starting while one is waiting (the send controls are disabled). */
    method BeginChatTurn(text: string, stamp: Stamp) returns (request: Option<AgentRequest>)
      requires !chatLoading
      modifies this`chatMessages, this`chatInput, this`chatLoading, this`activeAgentId
      ensures IsBlank(text) ==>
        && request.None? && chatMessages == old(chatMessages)
        && chatInput == old(chatInput) && !chatLoading && activeAgentId == old(activeAgentId)
      ensures !IsBlank(text) ==>
        && request == Some(AgentRequest(text, BuildContext(clients, deadlines), AgentId))
        && chatMessages == old(chatMessages) + [UserMessage(text, stamp)]
        && chatInput == "" && chatLoading && activeAgentId == Some(AgentId)
    {
      if IsBlank(text) {
        return None;
      }
      chatMessages := chatMessages + [UserMessage(text, stamp)];
      chatInput := "";
      chatLoading := true;
      activeAgentId := Some(AgentId);
      request := Some(AgentRequest(text, BuildContext(clients, deadlines), AgentId));
    }

    /** `sendChatMessage` after the agent call: exactly one assistant message,
        then the `finally` clears the waiting state. */
    method FinishChatTurn(outcome: AgentOutcome, parse: string -> Option<Json>, stamp: Stamp)
      requires chatLoading
      modifies this`chatMessages, this`chatLoading, this`activeAgentId
      ensures chatMessages == old(chatMessages) + [AssistantMessage(outcome, parse, stamp)]
      ensures !chatLoading && activeAgentId.None?
    {
      chatMessages := chatMessages + [AssistantMessage(outcome, parse, stamp)];
      chatLoading := false;
      activeAgentId := None;
    }

    /** A whole chat turn, run to its end with the given outcome. */
    method SendChatMessage(text: string, userStamp: Stamp, outcome: AgentOutcome,
                           parse: string -> Option<Json>, replyStamp: Stamp)
      returns (request: Option<AgentRequest>)
      requires !chatLoading
      modifies this`chatMessages, this`chatInput, this`chatLoading, this`activeAgentId
      ensures IsBlank(text) ==>
        && request.None? && chatMessages == old(chatMessages)
        && chatInput == old(chatInput) && activeAgentId == old(activeAgentId)
      ensures !IsBlank(text) ==>
        && request == Some(AgentRequest(text, BuildContext(clients, deadlines), AgentId))
        && chatMessages == old(chatMessages) + [UserMessage(text, userStamp), AssistantMessage(outcome, parse, replyStamp)]
        && chatInput == "" && activeAgentId.None?
      ensures !chatLoading
    {
      request := BeginChatTurn(text, userStamp);
      if request.Some? {
        FinishChatTurn(outcome, parse, replyStamp);
      }
    }

    // -------------------------------------------------------------------------
    // Dashboard summary

    /** `generateAISummary` up to the agent call. The caller keeps a second
        request from starting while one is waiting (the button is disabled). */
    method BeginSummary() returns (request: AgentRequest)
      requires !aiSummaryLoading
      modifies this`aiSummaryLoading, this`activeAgentId
      ensures request == AgentRequest(SummaryPrompt, BuildContext(clients, deadlines), AgentId)
      ensures aiSummaryLoading && activeAgentId == Some(AgentId)
    {
      aiSummaryLoading := true;
      activeAgentId := Some(AgentId);
      request := AgentRequest(SummaryPrompt, BuildContext(clients, deadlines), AgentId);
    }

    /** `generateAISummary` after the agent call: the summary is replaced only
        on success; failures are silent. */
    method FinishSummary(outcome: AgentOutcome, parse: string -> Option<Json>)
      requires aiSummaryLoading
      modifies this`aiSummary, this`aiSummaryLoading, this`activeAgentId
      ensures aiSummary == SummaryAfter(old(aiSummary), outcome, parse)
      ensures !aiSummaryLoading && activeAgentId.None?
    {
      if outcome.Success? {
        aiSummary := Some(Answer(outcome.response, parse));
      }
      aiSummaryLoading := false;
      activeAgentId := None;
    }

    /** A whole summary request, run to its end with the given outcome. */
    method GenerateAISummary(outcome: AgentOutcome, parse: string -> Option<Json>) returns (request: AgentRequest)
      requires !aiSummaryLoading
      modifies this`aiSummary, this`aiSummaryLoading, this`activeAgentId
      ensures request == AgentRequest(SummaryPrompt, BuildContext(clients, deadlines), AgentId)
      ensures aiSummary == SummaryAfter(old(aiSummary), outcome, parse)
      ensures !aiSummaryLoading && activeAgentId.None?
    {
      request := BeginSummary();
      FinishSummary(outcome, parse);
    }
  }
}
