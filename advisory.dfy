/**
 * The `Advisory` screen (frontend/App.tsx): the question box, the last answer and the loading
 * flag. `handleAsk` awaits the advisory service between its two halves, modelled as `BeginAsk`
 * and `ReceiveAnswer`.
 */
module Advisory {
  import opened Wrappers
  import opened JsText
  import opened Requests

  datatype AdvisoryState = AdvisoryState(query: string, answer: Option<string>, loading: bool)

  const InitialAdvisory := AdvisoryState("", None, false)

  /** The question box's `onChange`: only the question changes. */
  function QueryTyped(st: AdvisoryState, text: string): (r: AdvisoryState)
    ensures r.query == text && r.answer == st.answer && r.loading == st.loading
  {
    st.(query := text)
  }

  /** First half of `handleAsk`: a blank question is ignored. */
  function Asking(st: AdvisoryState): (r: AdvisoryState)
    ensures AllWhitespace(st.query) ==> r == st
    ensures !AllWhitespace(st.query) ==> r.loading && r.query == st.query && r.answer == st.answer
  {
    BlankIffAllWhitespace(st.query);
    if Blank(st.query) then st else st.(loading := true)
  }

  /** Second half of `handleAsk`, when the service answers. */
  function Answered(st: AdvisoryState, res: string): (r: AdvisoryState)
    ensures r.answer == Some(res) && !r.loading && r.query == st.query
  {
    st.(answer := Some(res), loading := false)
  }

  /** `handleAsk` when no other event happens while the call is pending: a question of only
      whitespace changes nothing; any other ends with the reply as the answer, not loading, and
      the question still in the box (unlike the chat panel, the box is not cleared). */
  function Ask(st: AdvisoryState, res: string): (r: AdvisoryState)
    ensures AllWhitespace(st.query) ==> r == st
    ensures !AllWhitespace(st.query) ==> r == AdvisoryState(st.query, Some(res), false)
  {
    BlankIffAllWhitespace(st.query);
    if Blank(st.query) then st else Answered(Asking(st), res)
  }

  /** Only the latest answer is kept: asking again replaces it. */
  lemma LatestAnswerWins(st: AdvisoryState, r1: string, r2: string)
    requires !AllWhitespace(st.query)
    ensures Ask(Ask(st, r1), r2).answer == Some(r2)
  {
  }

  /** The live state of one `Advisory` instance; `lang` is its prop. */
  class Advisory {
    var query: string
    var answer: Option<string>
    var loading: bool
    const lang: string

    function State(): AdvisoryState
      reads this
    {
      AdvisoryState(query, answer, loading)
    }

    constructor (lang: string)
      ensures State() == InitialAdvisory && this.lang == lang
      ensures query == "" && answer == None && !loading
    {
      this.lang := lang;
      query := "";
      answer := None;
      loading := false;
    }

    method SetQuery(text: string)
      modifies this
      ensures query == text && answer == old(answer) && loading == old(loading)
      ensures State() == QueryTyped(old(State()), text)
    {
      query := text;
    }

    /** Returns the advisory call issued, or `None` for a blank question. */
    method BeginAsk() returns (call: Option<AdvisoryCall>)
      modifies this
      ensures State() == Asking(old(State()))
      ensures call == if Blank(old(query)) then None else Some(AdvisoryCall(old(query), lang))
    {
      if Trim(query) == [] {
        return None;
      }
      loading := true;
      call := Some(AdvisoryCall(query, lang));
    }

    method ReceiveAnswer(res: string)
      modifies this
      ensures answer == Some(res) && !loading && query == old(query)
      ensures State() == Answered(old(State()), res)
    {
      answer := Some(res);
      loading := false;
    }

    /** `handleAsk` run to completion with `res` as the service's answer. */
    method HandleAsk(res: string) returns (call: Option<AdvisoryCall>)
      modifies this
      ensures State() == Ask(old(State()), res)
      ensures call == if Blank(old(query)) then None else Some(AdvisoryCall(old(query), lang))
    {
      call := BeginAsk();
      if call.Some? {
        ReceiveAnswer(res);
      }
    }
  }
}
