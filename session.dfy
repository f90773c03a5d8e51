/**
 * The session controller of the study page (`Home` in app/page.tsx): the page's state record,
 * the WebSocket handlers installed by `connect`, and the user's submit, reset and
 * clarification-option actions.
 *
 * The WebSocket itself is abstract: `socket` records the state of the one socket `wsRef` holds,
 * `retriesPending` the reconnect timers `onclose` has scheduled and not yet fired, and `sent` the
 * requests that reached the backend (a socket that is not open delivers nothing), beside
 * `accepted`, the inputs the submit handler accepted and started loading for.
 */
module SessionControl {
  import opened Wrappers
  import opened Text
  import opened Artifacts

  /** The socket `wsRef.current` refers to: none before the first `connect`. */
  datatype Socket = NoSocket | Connecting | Open | Closed

  /** An inbound message, by its `type` tag; `Ignored` stands for every other tag (`connected`, `message`). */
  datatype Inbound =
    | Status(message: string)
    | StudyContent(data: StudyData)
    | Error(message: string)
    | Ignored(tag: string)

  /** A reply to a request: the two messages that end the loading state. */
  predicate IsReply(m: Inbound) {
    m.StudyContent? || m.Error?
  }

  /** The page's `useState` fields, with the socket bookkeeping beside them. */
  datatype Page = Page(
    input: string,
    isConnected: bool,
    isLoading: bool,
    statusMessage: string,
    studyData: Option<StudyData>,
    socket: Socket,
    retriesPending: nat,
    sent: seq<string>,
    accepted: seq<string>)

  /** The first render, before the mount effect has called `connect`. */
  function Initial(): Page {
    Page("", false, false, "", None, NoSocket, 0, [], [])
  }

  /**
   * What holds of every state the page can reach: the connectivity flag mirrors the socket,
   * exactly one reconnect is pending while (and only while) the socket is closed, every accepted
   * submit reached the backend, and a request in flight means no artifact is shown.
   */
  predicate Inv(p: Page) {
    && (p.isConnected <==> p.socket == Open)
    && p.retriesPending <= 1
    && (p.retriesPending == 1 <==> p.socket == Closed)
    && p.sent == p.accepted
    && (p.isLoading ==> p.studyData == None && p.accepted != [])
  }

  /** `ws.send(...)`: only an open socket delivers the request. */
  function Send(p: Page, request: string): (r: Page)
    ensures r.sent == if p.socket == Open then p.sent + [request] else p.sent
    ensures r == p.(sent := r.sent)
  {
    if p.socket == Open then p.(sent := p.sent + [request]) else p
  }

  /** `connect()`: a new socket, which starts out connecting, becomes `wsRef.current`. */
  function Connect(p: Page): (r: Page)
    ensures r.socket == Connecting && r.(socket := p.socket) == p
  {
    p.(socket := Connecting)
  }

  /** `ws.onopen`. */
  function OnOpen(p: Page): (r: Page)
    ensures r.isConnected && r.socket == Open && r.statusMessage == ""
    ensures r.(isConnected := p.isConnected, socket := p.socket, statusMessage := p.statusMessage) == p
  {
    p.(isConnected := true, statusMessage := "", socket := Open)
  }

  /** `ws.onclose`: disconnected, and one more `connect` timer pending (3000 ms). */
  function OnClose(p: Page): (r: Page)
    ensures !r.isConnected && r.socket == Closed && r.retriesPending == p.retriesPending + 1
    ensures r.(isConnected := p.isConnected, socket := p.socket, retriesPending := p.retriesPending) == p
  {
    p.(isConnected := false, socket := Closed, retriesPending := p.retriesPending + 1)
  }

  /** A reconnect timer fires and calls `connect`. */
  function OnRetryTimer(p: Page): (r: Page)
    requires p.retriesPending > 0
    ensures r.retriesPending == p.retriesPending - 1 && r.socket == Connecting
    ensures r.(retriesPending := p.retriesPending, socket := p.socket) == p
  {
    Connect(p.(retriesPending := p.retriesPending - 1))
  }

  /** `ws.onmessage`, after `JSON.parse`. */
  function OnMessage(p: Page, m: Inbound): (r: Page)
    ensures r.input == p.input && r.isConnected == p.isConnected && r.socket == p.socket
    ensures r.retriesPending == p.retriesPending && r.sent == p.sent && r.accepted == p.accepted
    ensures r.(statusMessage := p.statusMessage, studyData := p.studyData, isLoading := p.isLoading) == p
    ensures r.isLoading == (p.isLoading && !IsReply(m))
    ensures r.studyData == (if m.StudyContent? then Some(m.data) else p.studyData)
    ensures r.statusMessage != p.statusMessage ==> m.Status? || IsReply(m)
  {
    match m
    case Status(text) => p.(statusMessage := text)
    case StudyContent(data) => p.(studyData := Some(data), isLoading := false, statusMessage := "")
    case Error(text) => p.(statusMessage := "Error: " + text, isLoading := false)
    case Ignored(_) => p
  }

  /** The textarea's `onChange`, or a mode chip's `setInput(example)`. */
  function EditInput(p: Page, text: string): (r: Page)
    ensures r.input == text && r.(input := p.input) == p
  {
    p.(input := text)
  }

  /** The conditions under which `handleSubmit` returns without doing anything. */
  predicate SubmitRefusedAsWritten(p: Page) {
    Trim(p.input) == [] || p.socket == NoSocket || p.isLoading
  }

  /**
   * `handleSubmit` as the source writes it: it never looks at `isConnected`, so it accepts the
   * input and starts loading whether or not the socket can deliver it.
   */
  function HandleSubmitAsWritten(p: Page): (r: Page)
    ensures SubmitRefusedAsWritten(p) ==> r == p
    ensures !SubmitRefusedAsWritten(p) ==>
      && r.isLoading && r.studyData == None && r.accepted == p.accepted + [p.input]
      && r.sent == (if p.socket == Open then p.sent + [p.input] else p.sent)
      && r.(isLoading := p.isLoading, studyData := p.studyData, sent := p.sent, accepted := p.accepted) == p
  {
    if SubmitRefusedAsWritten(p) then p
    else Send(p.(isLoading := true, studyData := None, accepted := p.accepted + [p.input]), p.input)
  }

  /** The submit guard, with the connection check the Generate button applies (`disabled`, line 147). */
  predicate SubmitRefused(p: Page) {
    SubmitRefusedAsWritten(p) || !p.isConnected
  }

  /**
   * `handleSubmit` with the connection check: a refused submit changes nothing and sends nothing;
   * an accepted one starts loading, clears the artifact, keeps the status text and delivers the
   * untrimmed input as the one new request.
   */
  function HandleSubmit(p: Page): (r: Page)
    requires Inv(p)
    ensures SubmitRefused(p) ==> r == p
    ensures !SubmitRefused(p) ==>
      && r.isLoading && r.studyData == None
      && r.sent == p.sent + [p.input] && r.accepted == p.accepted + [p.input]
      && r.(isLoading := p.isLoading, studyData := p.studyData, sent := p.sent, accepted := p.accepted) == p
  {
    if SubmitRefused(p) then p
    else Send(p.(isLoading := true, studyData := None, accepted := p.accepted + [p.input]), p.input)
  }

  /** `handleReset`: clears the artifact, the input and the status; loading and connection stay. */
  function HandleReset(p: Page): (r: Page)
    ensures r.studyData == None && r.input == "" && r.statusMessage == ""
    ensures r.isLoading == p.isLoading && r.isConnected == p.isConnected && r.sent == p.sent
    ensures r.(studyData := p.studyData, input := p.input, statusMessage := p.statusMessage) == p
  {
    p.(studyData := None, input := "", statusMessage := "")
  }

  /** A clarification option's `onClick`: the option becomes the input and the artifact goes. */
  function ChooseOption(p: Page, option: string): (r: Page)
    ensures r.input == option && r.studyData == None
    ensures r.(input := p.input, studyData := p.studyData) == p
  {
    p.(input := option, studyData := None)
  }

  /** The events the browser and the rendered page can produce. */
  datatype Event =
    | Mounted
    | SocketOpen
    | SocketClose
    | RetryTimer
    | Received(msg: Inbound)
    | InputChanged(text: string)
    | SubmitPressed
    | ResetClicked
    | OptionClicked(option: string)

  /** The artifacts whose component renders a button that calls `onReset`. */
  predicate HasResetControl(d: StudyData) {
    d.Flashcards? || d.Practice? || d.Exam?
  }

  /**
   * When an event can happen: the mount effect runs once; a socket opens only while connecting,
   * closes once, and delivers messages only while open; a timer fires only if scheduled; the
   * textarea, chips and Generate button exist only while no artifact is shown; reset exists only
   * inside an artifact component; an option button exists only for a shown clarification option.
   */
  predicate Enabled(p: Page, e: Event) {
    match e
    case Mounted => p.socket == NoSocket
    case SocketOpen => p.socket == Connecting
    case SocketClose => p.socket == Connecting || p.socket == Open
    case RetryTimer => p.retriesPending > 0
    case Received(_) => p.socket == Open
    case InputChanged(_) => p.studyData == None
    case SubmitPressed => p.studyData == None
    case ResetClicked => p.studyData.Some? && HasResetControl(p.studyData.value)
    case OptionClicked(o) =>
      p.studyData.Some? && p.studyData.value.Clarification? && o in p.studyData.value.options
  }

  /** One event. Both submit paths (button and Cmd+Enter) use the connection-checked submit. */
  function Step(p: Page, e: Event): Page
    requires Inv(p) && Enabled(p, e)
  {
    match e
    case Mounted => Connect(p)
    case SocketOpen => OnOpen(p)
    case SocketClose => OnClose(p)
    case RetryTimer => OnRetryTimer(p)
    case Received(m) => OnMessage(p, m)
    case InputChanged(text) => EditInput(p, text)
    case SubmitPressed => HandleSubmit(p)
    case ResetClicked => HandleReset(p)
    case OptionClicked(o) => ChooseOption(p, o)
  }

  /** Every event keeps the invariant. */
  lemma StepKeepsInv(p: Page, e: Event)
    requires Inv(p) && Enabled(p, e)
    ensures Inv(Step(p, e))
  {
  }

  /** `es` can happen, event after event, starting in `p`. */
  predicate ValidTrace(p: Page, es: seq<Event>)
    requires Inv(p)
    decreases |es|
  {
    es == [] || (Enabled(p, es[0]) && (StepKeepsInv(p, es[0]); ValidTrace(Step(p, es[0]), es[1..])))
  }

  /** The state after the events `es`, with the invariant still holding. */
  function Run(p: Page, es: seq<Event>): (r: Page)
    requires Inv(p) && ValidTrace(p, es)
    ensures Inv(r)
    decreases |es|
  {
    if es == [] then p
    else
      StepKeepsInv(p, es[0]);
      Run(Step(p, es[0]), es[1..])
  }

  lemma InitialIsValid()
    ensures Inv(Initial())
  {
  }

  /** A `status` message changes the status text and nothing else, whatever the state. */
  lemma StatusChangesOnlyStatusMessage(p: Page, text: string)
    ensures OnMessage(p, Status(text)) == p.(statusMessage := text)
  {
  }

  /** A `study_content` message shows its artifact, ends loading and clears the status. */
  lemma StudyContentShowsArtifact(p: Page, data: StudyData)
    ensures var r := OnMessage(p, StudyContent(data));
      r.studyData == Some(data) && !r.isLoading && r.statusMessage == ""
  {
  }

  /** An `error` message shows its text, ends loading, and leaves the artifact as it was. */
  lemma ErrorEndsLoading(p: Page, text: string)
    ensures var r := OnMessage(p, Error(text));
      r.statusMessage == "Error: " + text && !r.isLoading && r.studyData == p.studyData
  {
  }

  /** A message of any other type (`connected`, `message`) changes nothing. */
  lemma IgnoredMessageChangesNothing(p: Page, tag: string)
    ensures OnMessage(p, Ignored(tag)) == p
  {
  }

  /** Closing the socket schedules exactly one reconnect. */
  lemma CloseSchedulesOneRetry(p: Page)
    requires Inv(p) && Enabled(p, SocketClose)
    ensures OnClose(p).retriesPending == 1 && Inv(OnClose(p))
  {
  }

  /** The events that end a request: a reply message. */
  predicate IsReplyEvent(e: Event) {
    e.Received? && IsReply(e.msg)
  }

  /**
   * At most one request in flight: while loading, no event short of a reply ends the loading
   * state, and nothing further reaches the backend.
   */
  lemma {:induction false} OneRequestInFlight(p: Page, es: seq<Event>)
    requires Inv(p) && p.isLoading && ValidTrace(p, es)
    requires forall i :: 0 <= i < |es| ==> !IsReplyEvent(es[i])
    ensures Run(p, es).isLoading && Run(p, es).sent == p.sent
    decreases |es|
  {
    if es != [] {
      StepKeepsInv(p, es[0]);
      var q := Step(p, es[0]);
      assert q.isLoading && q.sent == p.sent;
      forall i | 0 <= i < |es[1..]| ensures !IsReplyEvent(es[1..][i]) {
        assert es[1..][i] == es[i + 1];
      }
      OneRequestInFlight(q, es[1..]);
    }
  }

  /**
   * Submitting "A", typing "B" and submitting again before any reply leaves exactly one
   * request, "A", in flight.
   */
  lemma SecondSubmitDiscarded(p: Page, b: string)
    requires Inv(p) && p.studyData == None && !SubmitRefused(p)
    ensures ValidTrace(p, [SubmitPressed, InputChanged(b), SubmitPressed])
    ensures var r := Run(p, [SubmitPressed, InputChanged(b), SubmitPressed]);
      r.isLoading && r.sent == p.sent + [p.input] && r.input == b
  {
    var es := [SubmitPressed, InputChanged(b), SubmitPressed];
    var p1 := HandleSubmit(p);
    var p2 := EditInput(p1, b);
    assert HandleSubmit(p2) == p2;
    assert es[1..] == [InputChanged(b), SubmitPressed] && es[1..][1..] == [SubmitPressed];
    assert ValidTrace(p2, [SubmitPressed]);
    assert Run(p, es) == Run(p1, es[1..]) == Run(p2, [SubmitPressed]);
  }

  /** Between a close and the next open, no request reaches the backend. */
  lemma {:induction false} NoDeliveryWhileDisconnected(p: Page, es: seq<Event>)
    requires Inv(p) && p.socket != Open && ValidTrace(p, es)
    requires forall i :: 0 <= i < |es| ==> !es[i].SocketOpen?
    ensures Run(p, es).sent == p.sent && Run(p, es).socket != Open
    decreases |es|
  {
    if es != [] {
      StepKeepsInv(p, es[0]);
      forall i | 0 <= i < |es[1..]| ensures !es[1..][i].SocketOpen? {
        assert es[1..][i] == es[i + 1];
      }
      NoDeliveryWhileDisconnected(Step(p, es[0]), es[1..]);
    }
  }

  /** Choosing a clarification option leaves the page ready to submit that option. */
  lemma ChooseOptionRearmsSubmit(p: Page, option: string)
    requires Inv(p) && Enabled(p, OptionClicked(option))
    ensures var r := Step(p, OptionClicked(option));
      r.input == option && r.studyData == None && Enabled(r, SubmitPressed)
      && (!SubmitRefused(r) <==> Trim(option) != [] && p.isConnected)
  {
  }

  /** A `study_content` payload with an unknown mode leaves the user no control on the page. */
  lemma UnrecognizedArtifactHasNoControls(p: Page, mode: string, e: Event)
    requires p.studyData == Some(Unrecognized(mode)) && Enabled(p, e)
    ensures e.Mounted? || e.SocketOpen? || e.SocketClose? || e.RetryTimer? || e.Received?
  {
  }

  /** The state after mounting, connecting, losing the connection and typing `text`. */
  lemma {:induction false} DroppedThenTyped(text: string)
    ensures var es := [Mounted, SocketOpen, SocketClose, InputChanged(text)];
      && ValidTrace(Initial(), es)
      && Run(Initial(), es) == Page(text, false, false, "", None, Closed, 1, [], [])
  {
    var p1 := Connect(Initial());
    var p2 := OnOpen(p1);
    var p3 := OnClose(p2);
    var p4 := EditInput(p3, text);
    var t4: seq<Event> := [];
    var t3 := [InputChanged(text)] + t4;
    var t2 := [SocketClose] + t3;
    var t1 := [SocketOpen] + t2;
    var t0 := [Mounted] + t1;
    assert ValidTrace(p4, t4) && Run(p4, t4) == p4;
    assert t3[1..] == t4;
    assert ValidTrace(p3, t3) && Run(p3, t3) == p4;
    assert t2[1..] == t3;
    assert ValidTrace(p2, t2) && Run(p2, t2) == p4;
    assert t1[1..] == t2;
    assert ValidTrace(p1, t1) && Run(p1, t1) == p4;
    assert t0[1..] == t1;
    assert ValidTrace(Initial(), t0) && Run(Initial(), t0) == p4;
    assert t0 == [Mounted, SocketOpen, SocketClose, InputChanged(text)];
  }

  /**
   * The as-written `handleSubmit`, reached by Cmd+Enter after the connection dropped: it starts
   * loading although the closed socket delivers nothing, which the invariant rules out; the
   * connection-checked submit refuses.
   */
  lemma SubmitAsWrittenLosesRequest()
    ensures var es := [Mounted, SocketOpen, SocketClose, InputChanged("Quiz me")];
      && ValidTrace(Initial(), es)
      && var p := Run(Initial(), es);
      && p.studyData == None && !p.isConnected
      && HandleSubmitAsWritten(p).isLoading && HandleSubmitAsWritten(p).sent == []
      && !Inv(HandleSubmitAsWritten(p))
      && HandleSubmit(p) == p
  {
    DroppedThenTyped("Quiz me");
    assert !IsWhitespace("Quiz me"[0]);
    TrimEmptyIffBlank("Quiz me");
  }

  /**
   * Whenever the page is disconnected, an as-written submit that gets past its own guard accepts
   * the input and starts loading without delivering it, so the accepted and delivered requests
   * part ways; the connection-checked submit refuses in the same state.
   */
  lemma SubmitAsWrittenBreaksInvWhileDisconnected(p: Page)
    requires Inv(p) && !p.isConnected && !SubmitRefusedAsWritten(p)
    ensures var r := HandleSubmitAsWritten(p);
      r.isLoading && r.sent == p.sent && r.accepted == p.accepted + [p.input] && !Inv(r)
    ensures HandleSubmit(p) == p
  {
    assert |HandleSubmitAsWritten(p).accepted| == |p.sent| + 1;
  }

  /**
   * The page as an object: the `useState` fields, and one method per handler, each proved to do
   * what the matching transition above does.
   */
  class SessionController {
    var input: string
    var isConnected: bool
    var isLoading: bool
    var statusMessage: string
    var studyData: Option<StudyData>
    var socket: Socket
    var retriesPending: nat
    var sent: seq<string>
    var accepted: seq<string>

    ghost function State(): Page
      reads this
    {
      Page(input, isConnected, isLoading, statusMessage, studyData, socket, retriesPending, sent, accepted)
    }

    ghost predicate Valid()
      reads this
    {
      Inv(State())
    }

    constructor ()
      ensures Valid() && State() == Initial()
    {
      input, isConnected, isLoading, statusMessage := "", false, false, "";
      studyData, socket, retriesPending, sent, accepted := None, NoSocket, 0, [], [];
    }

    /** The mount effect's `connect()`. */
    method Mount()
      requires Valid() && socket == NoSocket
      modifies this
      ensures Valid() && State() == Connect(old(State()))
    {
      socket := Connecting;
    }

    method Opened()
      requires Valid() && socket == Connecting
      modifies this
      ensures Valid() && State() == OnOpen(old(State()))
    {
      isConnected := true;
      statusMessage := "";
      socket := Open;
    }

    method Dropped()
      requires Valid() && (socket == Connecting || socket == Open)
      modifies this
      ensures Valid() && State() == OnClose(old(State()))
    {
      isConnected := false;
      socket := Closed;
      retriesPending := retriesPending + 1;
    }

    /** The `setTimeout(connect, 3000)` scheduled by `onclose` fires. */
    method RetryFired()
      requires Valid() && retriesPending > 0
      modifies this
      ensures Valid() && State() == OnRetryTimer(old(State()))
    {
      retriesPending := retriesPending - 1;
      socket := Connecting;
    }

    method Receive(msg: Inbound)
      requires Valid() && socket == Open
      modifies this
      ensures Valid() && State() == OnMessage(old(State()), msg)
    {
      match msg
      case Status(text) =>
        statusMessage := text;
      case StudyContent(data) =>
        studyData := Some(data);
        isLoading := false;
        statusMessage := "";
      case Error(text) =>
        statusMessage := "Error: " + text;
        isLoading := false;
      case Ignored(_) =>
    }

    method ChangeInput(text: string)
      requires Valid() && studyData == None
      modifies this
      ensures Valid() && State() == EditInput(old(State()), text)
    {
      input := text;
    }

    method Submit()
      requires Valid() && studyData == None
      modifies this
      ensures Valid() && State() == HandleSubmit(old(State()))
    {
      if Trim(input) == [] || socket == NoSocket || isLoading || !isConnected {
        return;
      }
      isLoading := true;
      studyData := None;
      accepted := accepted + [input];
      if socket == Open {
        sent := sent + [input];
      }
    }

    method Reset()
      requires Valid() && studyData.Some? && HasResetControl(studyData.value)
      modifies this
      ensures Valid() && State() == HandleReset(old(State()))
    {
      studyData := None;
      input := "";
      statusMessage := "";
    }

    method PickOption(option: string)
      requires Valid() && studyData.Some? && studyData.value.Clarification?
      requires option in studyData.value.options
      modifies this
      ensures Valid() && State() == ChooseOption(old(State()), option)
    {
      input := option;
      studyData := None;
    }
  }
}
