/** The chat as the screen lets a user drive it. Which handlers can run depends on what
    is rendered: the persona and style cards and the start button only on the
    configuration screen (components/MentorshipPage.tsx:192, 202), the message box, the
    send button and the reset button only inside an open session (298-367). The armed
    timer and the in-flight gateway call are the two events that arrive from outside.

    Over every sequence of such events from the initial state the model proves that an
    open transcript always begins with the greeting of the selection currently shown, and
    it exhibits that a reply resolving after a reset is still written into the transcript. */
module AiSessionTrace {
  import opened Wrappers
  import opened AiMentorConfig
  import opened AiSession

  /** The chat, the timer the start button armed (if it has not fired yet), and the
      user's startup name, a constant of the page. */
  datatype Page = Page(chat: Chat, timer: Option<SyncTimer>, startupName: Option<string>)

  function InitialPage(startupName: Option<string>): Page {
    Page(InitialChat, None, startupName)
  }

  datatype Event =
    | PickPersona(persona: PersonaId)
    | PickStyle(style: StyleId)
    | PressStart
    | TimerFires
    | Type(text: string)
    | PressSend
    | ReplyArrives(reply: Reply)
    | PressReset

  /** The configuration screen is shown: no session and no sync in progress. */
  predicate Configuring(c: Chat) {
    !c.started && !c.syncing
  }

  /** Whether the event can happen now: its control is on screen, or for the two outside
      events, the timer is armed or a gateway call is in flight. */
  predicate Enabled(pg: Page, e: Event) {
    match e
    case PickPersona(_) => Configuring(pg.chat)
    case PickStyle(_) => Configuring(pg.chat)
    case PressStart => Configuring(pg.chat)
    case TimerFires => pg.timer.Some?
    case Type(_) => pg.chat.started
    case PressSend => pg.chat.started
    case ReplyArrives(_) => pg.chat.submitting
    case PressReset => pg.chat.started
  }

  function Step(pg: Page, e: Event): Page {
    match e
    case PickPersona(p) => pg.(chat := SelectPersona(pg.chat, p))
    case PickStyle(s) => pg.(chat := SelectStyle(pg.chat, s))
    case PressStart =>
      var st := StartBegin(pg.chat, pg.startupName);
      pg.(chat := st.chat, timer := Some(st.timer))
    case TimerFires =>
      if pg.timer.Some? then pg.(chat := StartComplete(pg.chat, pg.timer.value), timer := None) else pg
    case Type(text) => pg.(chat := SetInput(pg.chat, text))
    case PressSend => pg.(chat := Send(pg.chat).chat)
    case ReplyArrives(o) => pg.(chat := Resolve(pg.chat, o))
    case PressReset => pg.(chat := Reset(pg.chat))
  }

  /** Every event of `es` is enabled when it happens. */
  predicate Valid(pg: Page, es: seq<Event>)
    decreases |es|
  {
    es == [] || (Enabled(pg, es[0]) && Valid(Step(pg, es[0]), es[1..]))
  }

  function Run(pg: Page, es: seq<Event>): Page
    decreases |es|
  {
    if es == [] then pg else Run(Step(pg, es[0]), es[1..])
  }

  /** The greeting that opens a session with the page's current selection. */
  function OpeningTurn(pg: Page): Turn {
    Turn(Ai, Greeting(PersonaLabel(pg.chat.persona), ProjectName(pg.startupName), StyleLabel(pg.chat.style)))
  }

  /** What holds of every page the user can reach. */
  ghost predicate Inv(pg: Page) {
    && !(pg.chat.started && pg.chat.syncing)
    && (pg.chat.syncing <==> pg.timer.Some?)
    && (pg.timer.Some? ==>
          pg.timer.value == SyncTimer(pg.chat.persona, pg.chat.style, ProjectName(pg.startupName)))
    && (pg.chat.started ==> |pg.chat.messages| > 0 && pg.chat.messages[0] == OpeningTurn(pg))
  }

  lemma InitialInv(startupName: Option<string>)
    ensures Inv(InitialPage(startupName))
  {
  }

  /** Every enabled event preserves the invariant. */
  lemma StepPreservesInv(pg: Page, e: Event)
    requires Inv(pg) && Enabled(pg, e)
    ensures Inv(Step(pg, e))
  {
    match e
    case PressSend =>
      var r := Send(pg.chat);
      if r.request.Some? {
        assert r.chat.messages[0] == pg.chat.messages[0];
      }
    case ReplyArrives(o) =>
      if pg.chat.started {
        assert Resolve(pg.chat, o).messages[0] == pg.chat.messages[0];
      }
    case _ =>
  }

  lemma {:induction false} RunPreservesInv(pg: Page, es: seq<Event>)
    requires Inv(pg) && Valid(pg, es)
    ensures Inv(Run(pg, es))
    decreases |es|
  {
    if es != [] {
      StepPreservesInv(pg, es[0]);
      RunPreservesInv(Step(pg, es[0]), es[1..]);
    }
  }

  /** However the user drives the screen, an open transcript begins with the greeting for
      the persona and style selected now: the selection cannot change while a transcript
      exists, because the cards are only on screen before a session starts. */
  lemma TranscriptOpensWithCurrentGreeting(startupName: Option<string>, es: seq<Event>)
    requires Valid(InitialPage(startupName), es)
    ensures var pg := Run(InitialPage(startupName), es);
            pg.chat.started ==> |pg.chat.messages| > 0 && pg.chat.messages[0] == OpeningTurn(pg)
  {
    InitialInv(startupName);
    RunPreservesInv(InitialPage(startupName), es);
  }

  /** No enabled event changes the selection of an open or syncing session. */
  lemma SelectionFrozenOutsideConfiguration(pg: Page, e: Event)
    requires Enabled(pg, e) && !Configuring(pg.chat)
    ensures Step(pg, e).chat.persona == pg.chat.persona
    ensures Step(pg, e).chat.style == pg.chat.style
  {
  }

  /** Running `e` then `es` is running `es` from the page `e` leads to. */
  lemma RunCons(pg: Page, e: Event, es: seq<Event>)
    ensures Run(pg, [e] + es) == Run(Step(pg, e), es)
    ensures Valid(pg, [e] + es) <==> Enabled(pg, e) && Valid(Step(pg, e), es)
  {
    assert ([e] + es)[1..] == es;
  }

  /** Running three events is stepping through them, each enabled in turn. */
  lemma Steps3(pg: Page, e1: Event, e2: Event, e3: Event)
    ensures Run(pg, [e1, e2, e3]) == Step(Step(Step(pg, e1), e2), e3)
    ensures Valid(pg, [e1, e2, e3]) <==>
      Enabled(pg, e1) && Enabled(Step(pg, e1), e2) && Enabled(Step(Step(pg, e1), e2), e3)
  {
    RunCons(pg, e1, [e2, e3]);
    RunCons(Step(pg, e1), e2, [e3]);
    RunCons(Step(Step(pg, e1), e2), e3, []);
    assert [e1] + [e2, e3] == [e1, e2, e3];
    assert [e2] + [e3] == [e2, e3];
    assert [e3] + [] == [e3];
  }

  /** Running five events is stepping through them, each enabled in turn. */
  lemma Steps5(pg: Page, e1: Event, e2: Event, e3: Event, e4: Event, e5: Event)
    ensures var p2 := Step(Step(pg, e1), e2);
            && Run(pg, [e1, e2, e3, e4, e5]) == Run(p2, [e3, e4, e5])
            && (Valid(pg, [e1, e2, e3, e4, e5]) <==>
                  Enabled(pg, e1) && Enabled(Step(pg, e1), e2) && Valid(p2, [e3, e4, e5]))
  {
    RunCons(pg, e1, [e2, e3, e4, e5]);
    RunCons(Step(pg, e1), e2, [e3, e4, e5]);
    assert [e1] + [e2, e3, e4, e5] == [e1, e2, e3, e4, e5];
    assert [e2] + [e3, e4, e5] == [e2, e3, e4, e5];
  }

  /** Sending from an open session and resetting at once leaves the configuration screen
      with the send still in flight. */
  lemma SendThenReset(pg: Page)
    requires pg.chat.started && !pg.chat.syncing && CanSend(pg.chat)
    ensures Enabled(pg, PressSend) && Enabled(Step(pg, PressSend), PressReset)
    ensures var p2 := Step(Step(pg, PressSend), PressReset);
            p2.chat.submitting && Configuring(p2.chat) && p2.chat.messages == []
  {
  }

  /** Starting again from the configuration screen opens a session whose transcript is
      the greeting alone; a send in flight stays in flight. */
  lemma StartAgain(pg: Page)
    requires Configuring(pg.chat)
    ensures Enabled(pg, PressStart) && Enabled(Step(pg, PressStart), TimerFires)
    ensures var p2 := Step(Step(pg, PressStart), TimerFires);
            && p2.chat.started
            && p2.chat.messages == [OpeningTurn(p2)]
            && p2.chat.submitting == pg.chat.submitting
  {
  }

  /** A reply arriving in a session that holds only its greeting becomes its second turn. */
  lemma ReplyAfterGreeting(pg: Page, o: Reply)
    requires pg.chat.started && pg.chat.submitting && pg.chat.messages == [OpeningTurn(pg)]
    ensures Enabled(pg, ReplyArrives(o))
    ensures var r := Step(pg, ReplyArrives(o));
            r.chat.started && r.chat.messages == [OpeningTurn(r), Turn(Ai, ReplyText(o))]
  {
    var r := Step(pg, ReplyArrives(o));
    assert OpeningTurn(r) == OpeningTurn(pg);
  }

  /** The handlers keep no session epoch: a reply that resolves after the user reset the
      session is still appended, here to the emptied transcript outside any session. */
  lemma StaleReplyAfterReset(pg: Page, o: Reply)
    requires pg.chat.started && CanSend(pg.chat)
    ensures var es := [PressSend, PressReset, ReplyArrives(o)];
            && Valid(pg, es)
            && !Run(pg, es).chat.started
            && Run(pg, es).chat.messages == [Turn(Ai, ReplyText(o))]
  {
    Steps3(pg, PressSend, PressReset, ReplyArrives(o));
  }

  /** And if the user has opened a new session before the reply resolves, the reply to the
      old question becomes the second turn of the new transcript, with no question before it. */
  lemma StaleReplyInNewSession(pg: Page, o: Reply)
    requires Inv(pg) && pg.chat.started && CanSend(pg.chat)
    ensures var es := [PressSend, PressReset, PressStart, TimerFires, ReplyArrives(o)];
            var r := Run(pg, es);
            && Valid(pg, es)
            && r.chat.started
            && r.chat.messages == [OpeningTurn(r), Turn(Ai, ReplyText(o))]
  {
    SendThenReset(pg);
    var p2 := Step(Step(pg, PressSend), PressReset);
    StartAgain(p2);
    var p4 := Step(Step(p2, PressStart), TimerFires);
    ReplyAfterGreeting(p4, o);
    Steps5(pg, PressSend, PressReset, PressStart, TimerFires, ReplyArrives(o));
    Steps3(p2, PressStart, TimerFires, ReplyArrives(o));
  }
}
