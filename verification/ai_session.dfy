/** The AI mentor chat of the "ai_mentor" tab (components/MentorshipPage.tsx:70-117,
    321, 362): the persona and style selection, the simulated two-second sync that opens a
    session with a greeting, the optimistic send whose reply the gateway delivers later,
    and the reset back to configuration.

    Each handler becomes a pure function of an explicit state record. An `async` handler
    is split at its `await`: `Send` is everything before it, `Resolve` everything after,
    with the gateway's answer passed in. The `setTimeout` of the session start is split
    the same way into `StartBegin` and `StartComplete`. */
module AiSession {
  import opened Wrappers
  import opened JsText
  import opened AiMentorConfig

  datatype Role = User | Ai

  /** One message of the transcript. */
  datatype Turn = Turn(role: Role, text: string)

  /** The chat's view state: `started` is `aiSessionStarted`, `syncing` is `isSyncing`,
      `submitting` is `isSubmitting`, `messages` is `aiMessages` and `input` is `aiInput`. */
  datatype Chat = Chat(
    started: bool, syncing: bool, submitting: bool,
    persona: PersonaId, style: StyleId,
    messages: seq<Turn>, input: string)

  /** The state on mount: nothing started, the first persona and the first style selected. */
  const InitialChat: Chat := Chat(false, false, false, AiPersonas[0], AiStyles[0], [], "")

  // ---------------------------------------------------------------- fixed texts

  /** The greeting template, cut at its three placeholders. */
  const GreetingOpen: string := "مرحباً بك! أنا موجهك الذكي المخصص لهذا اليوم بصفتي \""
  const GreetingAfterPersona: string := "\". لقد قمت بمراجعة بيانات مشروعك \""
  const GreetingAfterProject: string := "\"، وأنا مستعد لمساعدتك بأسلوب \""
  const GreetingClose: string := "\". بماذا تود أن نبدأ نقاشنا الاستراتيجي اليوم؟"

  /** The project name used when the user has none (or an empty one). */
  const DefaultProjectName: string := "الناشئ"

  /** The assistant's text when the gateway answers with nothing. */
  const FallbackReply: string := "عذراً، لم أستطع تحليل ذلك."

  /** The assistant's text when the gateway call fails. */
  const ConnectionError: string := "حدث خطأ في الاتصال بمحرك التوجيه الذكي."

  // ---------------------------------------------------------------- selection

  /** Picking a persona card (222). */
  function SelectPersona(c: Chat, p: PersonaId): Chat {
    c.(persona := p)
  }

  /** Picking a style card (249). */
  function SelectStyle(c: Chat, s: StyleId): Chat {
    c.(style := s)
  }

  /** Typing into the message box (362). */
  function SetInput(c: Chat, text: string): Chat {
    c.(input := text)
  }

  /** Picking a persona changes the persona only: the style, the input, the session
      flags and the transcript are untouched. */
  lemma PersonaPickKeepsSession(c: Chat, p: PersonaId)
    ensures var d := SelectPersona(c, p);
            && d.persona == p && d.style == c.style && d.input == c.input
            && d.started == c.started && d.syncing == c.syncing && d.submitting == c.submitting
            && d.messages == c.messages
  {
  }

  /** Picking a style changes the style only. */
  lemma StylePickKeepsSession(c: Chat, s: StyleId)
    ensures var d := SelectStyle(c, s);
            && d.style == s && d.persona == c.persona && d.input == c.input
            && d.started == c.started && d.syncing == c.syncing && d.submitting == c.submitting
            && d.messages == c.messages
  {
  }

  /** Typing changes the input only: it neither sends nor touches the transcript. */
  lemma TypingKeepsSession(c: Chat, text: string)
    ensures var d := SetInput(c, text);
            && d.input == text && d.persona == c.persona && d.style == c.style
            && d.started == c.started && d.syncing == c.syncing && d.submitting == c.submitting
            && d.messages == c.messages
  {
  }

  // ---------------------------------------------------------------- session start

  /** The project name the greeting uses: the user's startup name, or the default when it
      is missing or empty. */
  function ProjectName(startupName: Option<string>): (r: string)
    ensures r != ""
    ensures startupName.Some? && startupName.value != "" ==> r == startupName.value
    ensures startupName.None? || startupName.value == "" ==> r == DefaultProjectName
  {
    if startupName.Some? && startupName.value != "" then startupName.value else DefaultProjectName
  }

  /** The greeting that opens a session, filled from the persona label, project name and style label. */
  function Greeting(personaLabel: string, projectName: string, styleLabel: string): string {
    GreetingOpen + personaLabel + GreetingAfterPersona + projectName
      + GreetingAfterProject + styleLabel + GreetingClose
  }

  /** A slice lying within the left operand of a concatenation is a slice of that operand. */
  lemma SliceOfLeft(u: string, w: string, i: int, j: int)
    requires 0 <= i <= j <= |u|
    ensures (u + w)[i..j] == u[i..j]
  {
  }

  /** The right operand of a concatenation sits right after the left one. */
  lemma SliceOfRight(u: string, w: string)
    ensures (u + w)[|u|..|u| + |w|] == w
  {
  }

  /** In a concatenation of seven strings, the second, fourth and sixth sit at the
      offsets the lengths before them fix. */
  lemma ConcatSlices(a: string, b: string, c: string, d: string, e: string, f: string, g: string)
    ensures var x := a + b + c + d + e + f + g;
            var i := |a|;
            var j := i + |b| + |c|;
            var k := j + |d| + |e|;
            && x[i..i + |b|] == b
            && x[j..j + |d|] == d
            && x[k..k + |f|] == f
  {
    var x2 := a + b;
    var x3 := x2 + c;
    var x4 := x3 + d;
    var x5 := x4 + e;
    var x6 := x5 + f;
    var i := |a|;
    var j := |x3|;
    var k := |x5|;
    SliceOfRight(a, b);
    SliceOfLeft(x2, c, i, i + |b|);
    SliceOfLeft(x3, d, i, i + |b|);
    SliceOfLeft(x4, e, i, i + |b|);
    SliceOfLeft(x5, f, i, i + |b|);
    SliceOfLeft(x6, g, i, i + |b|);
    SliceOfRight(x3, d);
    SliceOfLeft(x4, e, j, j + |d|);
    SliceOfLeft(x5, f, j, j + |d|);
    SliceOfLeft(x6, g, j, j + |d|);
    SliceOfRight(x5, f);
    SliceOfLeft(x6, g, k, k + |f|);
  }

  /** Each of the second, fourth and sixth of seven concatenated strings is found by a
      substring search of the whole. */
  lemma ConcatIncludes(a: string, b: string, c: string, d: string, e: string, f: string, g: string)
    ensures Includes(a + b + c + d + e + f + g, b)
    ensures Includes(a + b + c + d + e + f + g, d)
    ensures Includes(a + b + c + d + e + f + g, f)
  {
    var x := a + b + c + d + e + f + g;
    ConcatSlices(a, b, c, d, e, f, g);
    IncludesSlice(x, |a|, |b|);
    IncludesSlice(x, |a| + |b| + |c|, |d|);
    IncludesSlice(x, |a| + |b| + |c| + |d| + |e|, |f|);
  }

  /** The greeting quotes the persona label, the project name and the style label, each
      at a position fixed by the template and the lengths of the values before it. */
  lemma GreetingMentions(personaLabel: string, projectName: string, styleLabel: string)
    ensures var g := Greeting(personaLabel, projectName, styleLabel);
            var i := |GreetingOpen|;
            var j := i + |personaLabel| + |GreetingAfterPersona|;
            var k := j + |projectName| + |GreetingAfterProject|;
            && g[i..i + |personaLabel|] == personaLabel
            && g[j..j + |projectName|] == projectName
            && g[k..k + |styleLabel|] == styleLabel
  {
    ConcatSlices(GreetingOpen, personaLabel, GreetingAfterPersona, projectName,
                 GreetingAfterProject, styleLabel, GreetingClose);
  }

  /** Hence the greeting includes each of the three values, as a substring search would find. */
  lemma GreetingIncludes(personaLabel: string, projectName: string, styleLabel: string)
    ensures Includes(Greeting(personaLabel, projectName, styleLabel), personaLabel)
    ensures Includes(Greeting(personaLabel, projectName, styleLabel), projectName)
    ensures Includes(Greeting(personaLabel, projectName, styleLabel), styleLabel)
  {
    ConcatIncludes(GreetingOpen, personaLabel, GreetingAfterPersona, projectName,
                   GreetingAfterProject, styleLabel, GreetingClose);
  }

  /** What the timer callback closes over when the start button is pressed: the selection
      of that moment and the project name. */
  datatype SyncTimer = SyncTimer(persona: PersonaId, style: StyleId, projectName: string)

  datatype StartStep = StartStep(chat: Chat, timer: SyncTimer)

  /** Pressing the start button (85-89): syncing begins and a timer is armed. */
  function StartBegin(c: Chat, startupName: Option<string>): (r: StartStep)
    ensures r.chat == c.(syncing := true)
    ensures r.timer.persona == c.persona && r.timer.style == c.style
    ensures r.timer.projectName == ProjectName(startupName)
  {
    StartStep(c.(syncing := true), SyncTimer(c.persona, c.style, ProjectName(startupName)))
  }

  /** The timer firing (90-98): the session is open, syncing is over, and the transcript
      is replaced by the one greeting, whatever it held before. */
  function StartComplete(c: Chat, t: SyncTimer): (r: Chat)
    ensures r.started && !r.syncing
    ensures r.messages == [Turn(Ai, Greeting(PersonaLabel(t.persona), t.projectName, StyleLabel(t.style)))]
    ensures r.persona == c.persona && r.style == c.style
    ensures r.submitting == c.submitting && r.input == c.input
  {
    c.(started := true, syncing := false, messages := [Turn(Ai, Greeting(PersonaLabel(t.persona), t.projectName, StyleLabel(t.style)))])
  }

  /** Starting from the configuration screen opens a session whose transcript is one
      assistant turn quoting the selected persona label, the project name and the selected
      style label. */
  lemma StartOpensSession(c: Chat, startupName: Option<string>)
    ensures var step := StartBegin(c, startupName);
            var r := StartComplete(step.chat, step.timer);
            && step.chat.syncing
            && r.started && !r.syncing
            && |r.messages| == 1 && r.messages[0].role == Ai
            && Includes(r.messages[0].text, PersonaLabel(c.persona))
            && Includes(r.messages[0].text, ProjectName(startupName))
            && Includes(r.messages[0].text, StyleLabel(c.style))
            && r.persona == c.persona && r.style == c.style
  {
    GreetingIncludes(PersonaLabel(c.persona), ProjectName(startupName), StyleLabel(c.style));
  }

  // ---------------------------------------------------------------- sending

  /** The gateway call a send makes: the message and the two labels. */
  datatype MentorRequest = MentorRequest(message: string, personaLabel: string, styleLabel: string)

  datatype SendStep = SendStep(chat: Chat, request: Option<MentorRequest>)

  /** The guard of the send handler (102): the trimmed input is non-empty and no send is in flight. */
  predicate CanSend(c: Chat) {
    Trim(c.input) != "" && !c.submitting
  }

  /** The send handler up to its `await` (101-107): either a no-op, or the input is cleared,
      the trimmed text is appended as a user turn, submitting is set, and exactly one
      gateway request carries the text and the selected labels. */
  function Send(c: Chat): (r: SendStep)
    ensures r.request.None? <==> AllTrimmable(c.input) || c.submitting
    ensures r.request.None? ==> r.chat == c
    ensures r.request.Some? ==>
      && r.chat.input == ""
      && r.chat.submitting
      && |r.chat.messages| == |c.messages| + 1
      && r.chat.messages[..|c.messages|] == c.messages
      && r.chat.messages[|c.messages|] == Turn(User, r.request.value.message)
      && IsTrimOf(r.request.value.message, c.input)
      && r.request.value.personaLabel == PersonaLabel(c.persona)
      && r.request.value.styleLabel == StyleLabel(c.style)
    ensures r.chat.started == c.started && r.chat.syncing == c.syncing
    ensures r.chat.persona == c.persona && r.chat.style == c.style
  {
    TrimEmptyIff(c.input);
    TrimMeetsSpec(c.input);
    if !CanSend(c) then SendStep(c, None)
    else
      var text := Trim(c.input);
      SendStep(
        c.(input := "", messages := c.messages + [Turn(User, text)], submitting := true),
        Some(MentorRequest(text, PersonaLabel(c.persona), StyleLabel(c.style))))
  }

  /** How the gateway call ended: it answered (an absent answer is the empty text) or it failed. */
  datatype Reply = Answered(text: string) | Unreachable

  /** The assistant text a reply becomes (111, 113). */
  function ReplyText(o: Reply): (r: string)
    ensures r != ""
    ensures o.Answered? && o.text != "" ==> r == o.text
    ensures o.Answered? && o.text == "" ==> r == FallbackReply
    ensures o.Unreachable? ==> r == ConnectionError
  {
    match o
    case Answered(text) => if text != "" then text else FallbackReply
    case Unreachable => ConnectionError
  }

  /** The send handler after its `await` (110-116): one assistant turn is appended to
      whatever the transcript holds now, submitting ends, and nothing else changes; a
      failure becomes transcript text, not an error. */
  function Resolve(c: Chat, o: Reply): (r: Chat)
    ensures |r.messages| == |c.messages| + 1
    ensures r.messages[..|c.messages|] == c.messages
    ensures r.messages[|c.messages|] == Turn(Ai, ReplyText(o))
    ensures !r.submitting
    ensures r.started == c.started && r.syncing == c.syncing && r.input == c.input
    ensures r.persona == c.persona && r.style == c.style
  {
    c.(messages := c.messages + [Turn(Ai, ReplyText(o))], submitting := false)
  }

  /** An accepted send appends exactly the trimmed input as a user turn. */
  lemma SendAppendsTrimmed(c: Chat)
    requires CanSend(c)
    ensures Send(c).request.Some?
    ensures Send(c).chat.messages == c.messages + [Turn(User, Trim(c.input))]
    ensures Send(c).chat.input == "" && Send(c).chat.started == c.started
  {
    var m := Trim(c.input);
    assert Send(c).chat == c.(input := "", messages := c.messages + [Turn(User, m)], submitting := true);
  }

  /** A whole exchange: an accepted send followed by its resolution adds exactly the user
      turn and then the assistant turn, in that order, and leaves the session as it was. */
  lemma ExchangeAppendsTwoTurns(c: Chat, o: Reply)
    requires CanSend(c)
    ensures var sent := Send(c);
            var r := Resolve(sent.chat, o);
            && sent.request.Some?
            && r.messages == c.messages + [Turn(User, Trim(c.input)), Turn(Ai, ReplyText(o))]
            && !r.submitting && r.input == ""
            && r.started == c.started
  {
    SendAppendsTrimmed(c);
    var m := Trim(c.input);
    var sent := Send(c);
    var r := Resolve(sent.chat, o);
    assert r.messages == sent.chat.messages + [Turn(Ai, ReplyText(o))];
    assert c.messages + [Turn(User, m)] + [Turn(Ai, ReplyText(o))]
        == c.messages + [Turn(User, m), Turn(Ai, ReplyText(o))];
  }

  /** While a send is in flight a second send is rejected, whatever is typed in between:
      at most one gateway call is outstanding. */
  lemma SecondSendRejected(c: Chat, typed: string)
    requires CanSend(c)
    ensures Send(SetInput(Send(c).chat, typed)).request.None?
    ensures Send(SetInput(Send(c).chat, typed)).chat.messages == Send(c).chat.messages
  {
  }

  /** Empty and whitespace-only messages are never sent. */
  lemma BlankInputNeverSent(c: Chat)
    requires AllTrimmable(c.input)
    ensures Send(c).request.None? && Send(c).chat == c
  {
  }

  // ---------------------------------------------------------------- reset

  /** The "change configuration" button (321): the session closes and the transcript is
      emptied; the persona and style selection, the input and the flags stay. */
  function Reset(c: Chat): (r: Chat)
    ensures !r.started && r.messages == []
    ensures r.persona == c.persona && r.style == c.style
    ensures r.syncing == c.syncing && r.submitting == c.submitting && r.input == c.input
  {
    c.(started := false, messages := [])
  }
}
