/**
 * The `VoiceAssistant` screen (frontend/App.tsx): a microphone toggle and a transcript line.
 * Starting to listen schedules a three-second timer that ends listening with a canned question;
 * the timer is never cancelled. The timer's firing is an explicit event here, and the model
 * counts the timers scheduled and not yet fired.
 */
module Voice {

  const Prompt := "Tap microphone to ask..."
  const ListeningText := "Listening..."
  const CannedQuestion := "How can I increase my tomato yield?"

  datatype VoiceState = VoiceState(listening: bool, transcript: string, pendingTimers: nat)

  const InitialVoice := VoiceState(false, Prompt, 0)

  /** `toggleListen` */
  function Toggled(st: VoiceState): (r: VoiceState)
    ensures r.listening == !st.listening
    ensures r.transcript == if r.listening then ListeningText else Prompt
    ensures r.pendingTimers == if st.listening then st.pendingTimers else st.pendingTimers + 1
  {
    if !st.listening then VoiceState(true, ListeningText, st.pendingTimers + 1)
    else st.(listening := false, transcript := Prompt)
  }

  /** One scheduled timer callback runs, whatever the screen is doing by then. */
  function TimerFired(st: VoiceState): (r: VoiceState)
    requires st.pendingTimers > 0
    ensures !r.listening && r.transcript == CannedQuestion && r.pendingTimers + 1 == st.pendingTimers
  {
    VoiceState(false, CannedQuestion, st.pendingTimers - 1)
  }

  datatype VoiceEvent = Toggle | TimerFires

  /** The event can happen: the microphone can always be tapped; a timer fires only if one is
      scheduled. */
  predicate Possible(st: VoiceState, e: VoiceEvent) {
    e.Toggle? || st.pendingTimers > 0
  }

  function Apply(st: VoiceState, e: VoiceEvent): VoiceState
    requires Possible(st, e)
  {
    match e
    case Toggle => Toggled(st)
    case TimerFires => TimerFired(st)
  }

  /** The transcript is one of the three texts, it reads "Listening..." exactly while
      listening, and while listening a timer is scheduled that will end it. */
  predicate VoiceInvariant(st: VoiceState) {
    (st.transcript == Prompt || st.transcript == ListeningText || st.transcript == CannedQuestion) &&
    (st.listening <==> st.transcript == ListeningText) &&
    (st.listening ==> st.pendingTimers > 0)
  }

  lemma ApplyKeepsInvariant(st: VoiceState, e: VoiceEvent)
    requires VoiceInvariant(st) && Possible(st, e)
    ensures VoiceInvariant(Apply(st, e))
  {
  }

  /** The events that happen, in order; each must be possible when it happens. */
  predicate PossibleRun(st: VoiceState, es: seq<VoiceEvent>)
    decreases |es|
  {
    es == [] || (Possible(st, es[0]) && PossibleRun(Apply(st, es[0]), es[1..]))
  }

  function RunVoice(st: VoiceState, es: seq<VoiceEvent>): VoiceState
    requires PossibleRun(st, es)
    decreases |es|
  {
    if es == [] then st else RunVoice(Apply(st, es[0]), es[1..])
  }

  /** Every run from the start keeps the invariant, so listening always has a pending timer. */
  lemma {:induction false} RunKeepsVoiceInvariant(st: VoiceState, es: seq<VoiceEvent>)
    requires VoiceInvariant(st) && PossibleRun(st, es)
    ensures VoiceInvariant(RunVoice(st, es))
    decreases |es|
  {
    if es != [] {
      ApplyKeepsInvariant(st, es[0]);
      RunKeepsVoiceInvariant(Apply(st, es[0]), es[1..]);
    }
  }

  /** Tapping starts listening and schedules one timer; tapping again stops it at once. */
  lemma ToggleEffect(st: VoiceState)
    ensures !st.listening ==> Toggled(st) == VoiceState(true, ListeningText, st.pendingTimers + 1)
    ensures st.listening ==> Toggled(st) == VoiceState(false, Prompt, st.pendingTimers)
    ensures Toggled(Toggled(st)).listening == st.listening
  {
  }

  /** Because the timer is not cancelled, stopping by hand does not stick: the old timer still
      replaces the prompt with the canned question. */
  lemma StoppedTimerStillFires()
    ensures Toggled(Toggled(InitialVoice)) == VoiceState(false, Prompt, 1)
    ensures TimerFired(Toggled(Toggled(InitialVoice))).transcript == CannedQuestion
  {
  }

  /** Stopping and starting again leaves the first timer pending, and it cuts the second
      listening session short. */
  lemma RestartCutShort()
    ensures Toggled(Toggled(Toggled(InitialVoice))) == VoiceState(true, ListeningText, 2)
    ensures TimerFired(Toggled(Toggled(Toggled(InitialVoice)))) == VoiceState(false, CannedQuestion, 1)
  {
  }

  /** The live state of one `VoiceAssistant` instance, with the timers it has scheduled. */
  class VoiceAssistant {
    var listening: bool
    var transcript: string
    var pendingTimers: nat

    function State(): VoiceState
      reads this
    {
      VoiceState(listening, transcript, pendingTimers)
    }

    constructor ()
      ensures State() == InitialVoice
      ensures !listening && transcript == Prompt && pendingTimers == 0
    {
      listening := false;
      transcript := Prompt;
      pendingTimers := 0;
    }

    method ToggleListen()
      modifies this
      ensures listening == !old(listening)
      ensures transcript == if old(listening) then Prompt else ListeningText
      ensures pendingTimers == if old(listening) then old(pendingTimers) else old(pendingTimers) + 1
      ensures State() == Toggled(old(State()))
    {
      if !listening {
        listening := true;
        transcript := ListeningText;
        pendingTimers := pendingTimers + 1;
      } else {
        listening := false;
        transcript := Prompt;
      }
    }

    /** The callback passed to `setTimeout`. */
    method TimerFires()
      requires pendingTimers > 0
      modifies this
      ensures !listening && transcript == CannedQuestion && pendingTimers == old(pendingTimers) - 1
      ensures State() == TimerFired(old(State()))
    {
      listening := false;
      transcript := CannedQuestion;
      pendingTimers := pendingTimers - 1;
    }
  }
}
