/** The query router of app.py (lines 127-230). Streamlit re-runs the whole
    script on every interaction, so everything in flight lives in four
    session fields; one script pass is one call of `Step` (as a pure
    specification) or of `Session.Run` (the same pass, updating the fields
    in place). A `st.rerun()` is simply the next pass. */
module Router {
  import opened Wrappers
  import opened Text
  import opened Intent
  import Rag

  /** `st.session_state.web_permission`: None, 'yes' or 'no'. */
  datatype Permission = Unset | Granted | Denied

  /** The four session fields the router reads and writes. */
  datatype SessionState = SessionState(
    pendingQuery: Option<string>,
    webPermission: Permission,
    forceWeb: bool,
    lastQuery: string)

  /** Which consent button, if any, reports a click during this pass. */
  datatype Button = NoPress | PressYes | PressNo

  /** How a call the router does not guard with `try` ends: it returns a
      value, or it raises and the exception ends the script pass. */
  datatype Reply = Returned(text: string) | Raises

  /** What one pass receives from outside: the text box value, the consent
      buttons, and how the collaborators it may consult behave — the
      document search `retrieve_answer(pending_query)`, whether
      `web_search_full` raises (it calls the LLM outside its own `try`,
      tools.py:195) and whether the math attempt succeeded. */
  datatype Pass = Pass(textInput: string, button: Button, docReply: Reply, webRaises: bool, mathSolved: bool)

  /** What one pass does that can be observed, in order. */
  datatype Effect =
    | MathAttempt(query: string, solved: bool)
    | DocSearch(query: string)
    | ShowAnswer(answer: string)
    | AskConsent
    | Rerun
    | WebSearch(query: string)
    | Cancelled
    | Raised

  datatype Outcome = Outcome(state: SessionState, effects: seq<Effect>)

  /** The session fields as first initialised (app.py:29-32, 122-123). */
  const Init := SessionState(None, Unset, false, "")

  /** Python truthiness of `st.session_state.pending_query`. */
  predicate HasPending(s: SessionState) {
    s.pendingQuery.Some? && s.pendingQuery.value != ""
  }

  predicate Forced(s: SessionState) {
    s.forceWeb && s.webPermission == Granted
  }

  /** What every reachable session satisfies: a pending query is never the
      empty string, and a forced web search always has consent and a
      non-math query to search for. */
  predicate Inv(s: SessionState) {
    && (s.pendingQuery.Some? ==> s.pendingQuery.value != "")
    && (s.forceWeb ==> s.webPermission == Granted && s.pendingQuery.Some? && !IsMathQuery(s.pendingQuery.value))
  }

  /** Lines 128-136: a forced web search in progress ignores the text box;
      otherwise a non-empty input different from the last one becomes the
      pending query and resets consent. */
  function Intake(s: SessionState, q: string): SessionState {
    if Forced(s) then s
    else if q != "" && q != s.lastQuery then SessionState(Some(q), Unset, false, q)
    else s
  }

  function Cleared(t: SessionState): SessionState {
    t.(pendingQuery := None, webPermission := Unset, forceWeb := false)
  }

  /** Lines 138-230: act on the pending query, if any. A math query is
      tried first and always ends the turn. */
  function Dispatch(t: SessionState, p: Pass): Outcome {
    if !HasPending(t) then Outcome(t, [])
    else
      var q := t.pendingQuery.value;
      if IsMathQuery(q) then
        Outcome(t.(pendingQuery := None, forceWeb := false), [MathAttempt(q, p.mathSolved)])
      else
        Resolve(t, q, p)
  }

  /** Lines 174-230, for the non-math pending query `q`. `get_intent` is
      computed at line 174 but only logged, so it plays no part here. */
  function Resolve(t: SessionState, q: string, p: Pass): Outcome {
    if Forced(t) then
      WebOutcome(t, q, p)
    else if t.webPermission == Unset then
      if p.docReply.Raises? then
        Outcome(t, [DocSearch(q), Raised])
      else if !Contains(p.docReply.text, Rag.NotFound) then
        Outcome(t.(pendingQuery := None), [DocSearch(q), ShowAnswer(p.docReply.text)])
      else
        match p.button
        case NoPress => Outcome(t, [DocSearch(q), AskConsent])
        case PressYes =>
          Outcome(t.(webPermission := Granted, forceWeb := true), [DocSearch(q), AskConsent, Rerun])
        case PressNo =>
          Outcome(t.(webPermission := Denied, forceWeb := false), [DocSearch(q), AskConsent, Rerun])
    else if t.webPermission == Granted then
      WebOutcome(t, q, p)
    else
      Outcome(t.(webPermission := Unset, pendingQuery := None), [Cancelled])
  }

  /** Lines 180-186 and 218-224: the web search, then the three fields are
      cleared. When `web_search_full` raises, the pass ends before the
      clearing and the fields keep their values. */
  function WebOutcome(t: SessionState, q: string, p: Pass): Outcome {
    if p.webRaises then Outcome(t, [WebSearch(q), Raised])
    else Outcome(Cleared(t), [WebSearch(q)])
  }

  /** One script pass. */
  function Step(s: SessionState, p: Pass): Outcome {
    Dispatch(Intake(s, p.textInput), p)
  }

  /** The session fields, updated in place by each pass. */
  class Session {
    var pendingQuery: Option<string>
    var webPermission: Permission
    var forceWeb: bool
    var lastQuery: string

    function State(): SessionState
      reads this
    {
      SessionState(pendingQuery, webPermission, forceWeb, lastQuery)
    }

    constructor()
      ensures State() == Init
    {
      pendingQuery := None;
      webPermission := Unset;
      forceWeb := false;
      lastQuery := "";
    }

    /** One pass of the script over the session fields. */
    method Run(p: Pass) returns (effects: seq<Effect>)
      modifies this
      ensures State() == Step(old(State()), p).state
      ensures effects == Step(old(State()), p).effects
      ensures Inv(old(State())) ==> Inv(State())
    {
      ghost var s0 := State();
      TakeInput(p.textInput);
      effects := HandlePending(p);
      if Inv(s0) {
        StepPreservesInv(s0, p);
      }
    }

    /** Lines 128-136: intake of the text box value. */
    method TakeInput(query: string)
      modifies this
      ensures State() == Intake(old(State()), query)
    {
      if forceWeb && webPermission == Granted {
        // continue the forced web search; the pending query is already set
      } else if query != "" && query != lastQuery {
        pendingQuery := Some(query);
        webPermission := Unset;
        forceWeb := false;
        lastQuery := query;
      }
    }

    /** Lines 138-172: act on the pending query, if any. */
    method HandlePending(p: Pass) returns (effects: seq<Effect>)
      modifies this
      ensures State() == Dispatch(old(State()), p).state
      ensures effects == Dispatch(old(State()), p).effects
    {
      effects := [];
      if pendingQuery.Some? && pendingQuery.value != "" {
        var query := pendingQuery.value;
        if IsMathQuery(query) {
          effects := [MathAttempt(query, p.mathSolved)];
          pendingQuery := None;
          forceWeb := false;
        } else {
          effects := ResolveGeneral(query, p);
        }
      }
    }

    /** Lines 174-230: the forced web search, the document search with its
        consent buttons, and the two consent outcomes. */
    method ResolveGeneral(query: string, p: Pass) returns (effects: seq<Effect>)
      modifies this
      ensures State() == Resolve(old(State()), query, p).state
      ensures effects == Resolve(old(State()), query, p).effects
    {
      if forceWeb && webPermission == Granted {
        effects := [WebSearch(query)];
        if p.webRaises {
          return effects + [Raised];
        }
        pendingQuery := None;
        webPermission := Unset;
        forceWeb := false;
      } else if webPermission == Unset {
        effects := [DocSearch(query)];
        if p.docReply.Raises? {
          return effects + [Raised];
        }
        var docAns := p.docReply.text;
        if !Contains(docAns, Rag.NotFound) {
          effects := effects + [ShowAnswer(docAns)];
          pendingQuery := None;
        } else {
          effects := effects + [AskConsent];
          if p.button == PressYes {
            webPermission := Granted;
            forceWeb := true;
            effects := effects + [Rerun];
          } else if p.button == PressNo {
            webPermission := Denied;
            forceWeb := false;
            effects := effects + [Rerun];
          }
        }
      } else if webPermission == Granted {
        effects := [WebSearch(query)];
        if p.webRaises {
          return effects + [Raised];
        }
        webPermission := Unset;
        pendingQuery := None;
        forceWeb := false;
      } else if webPermission == Denied {
        effects := [Cancelled];
        webPermission := Unset;
        pendingQuery := None;
      }
    }
  }

  // ---------------------------------------------------------------------------
  // Properties of the router
  // ---------------------------------------------------------------------------

  lemma InitInv()
    ensures Inv(Init) && !HasPending(Init)
  {
  }

  /** Every pass preserves the invariant: `force_web` implies consent 'yes'
      and a pending (non-math) query. */
  lemma StepPreservesInv(s: SessionState, p: Pass)
    requires Inv(s)
    ensures Inv(Step(s, p).state)
  {
    var t := Intake(s, p.textInput);
    assert Inv(t);
    var o := Dispatch(t, p);
    if HasPending(t) {
      var q := t.pendingQuery.value;
      if IsMathQuery(q) {
        assert o.state == t.(pendingQuery := None, forceWeb := false);
      } else if Forced(t) {
        assert o == WebOutcome(t, q, p);
      } else if t.webPermission == Unset {
        assert !t.forceWeb;
      } else {
        assert !t.forceWeb;
      }
    }
  }

  /** While a forced web search is in progress, the pass does the same
      thing whatever the text box, the buttons or the document search say:
      one web search for the pending query. When it returns, the three
      fields are cleared; when it raises, the session stays as it was. */
  lemma ForcedPassIgnoresInput(s: SessionState, p1: Pass, p2: Pass)
    requires Inv(s) && s.forceWeb
    ensures p1.webRaises == p2.webRaises ==> Step(s, p1) == Step(s, p2)
    ensures Step(s, p1) ==
      if p1.webRaises then Outcome(s, [WebSearch(s.pendingQuery.value), Raised])
      else Outcome(Cleared(s), [WebSearch(s.pendingQuery.value)])
  {
  }

  /** The session after a sequence of passes. */
  function RunAll(s: SessionState, ps: seq<Pass>): SessionState
    decreases |ps|
  {
    if ps == [] then s else RunAll(Step(s, ps[0]).state, ps[1..])
  }

  /** A forced web search whose `web_search_full` keeps raising stays
      forced for good: whatever is typed or clicked, every pass tries the
      same web search again and leaves the session unchanged. */
  lemma {:induction false} FailingWebSearchStaysForced(s: SessionState, ps: seq<Pass>)
    requires Inv(s) && s.forceWeb
    requires forall i :: 0 <= i < |ps| ==> ps[i].webRaises
    ensures RunAll(s, ps) == s && Forced(RunAll(s, ps))
    ensures forall i :: 0 <= i < |ps| ==> Step(s, ps[i]).effects == [WebSearch(s.pendingQuery.value), Raised]
    decreases |ps|
  {
    if ps != [] {
      ForcedPassIgnoresInput(s, ps[0], ps[0]);
      FailingWebSearchStaysForced(s, ps[1..]);
      forall i | 0 <= i < |ps| ensures Step(s, ps[i]).effects == [WebSearch(s.pendingQuery.value), Raised] {
        ForcedPassIgnoresInput(s, ps[i], ps[i]);
      }
    }
  }

  /** A new non-empty query outside a forced web search discards whatever was
      in flight: the pass behaves exactly as on a fresh session. */
  lemma NewQueryResets(s: SessionState, p: Pass)
    requires !Forced(s) && p.textInput != "" && p.textInput != s.lastQuery
    ensures Intake(s, p.textInput) == SessionState(Some(p.textInput), Unset, false, p.textInput)
    ensures Step(s, p) == Step(Init, p)
  {
  }

  /** Unchanged or empty input outside a forced web search leaves the
      session fields as they were before the pending query is acted on. */
  lemma SameInputKeepsState(s: SessionState, q: string)
    requires !Forced(s) && (q == "" || q == s.lastQuery)
    ensures Intake(s, q) == s
  {
  }

  /** A math query ends the turn whether or not it was solved: no document
      search, no consent, `pending_query` and `force_web` cleared. */
  lemma MathEndsTurn(s: SessionState, p: Pass)
    requires var t := Intake(s, p.textInput); HasPending(t) && IsMathQuery(t.pendingQuery.value)
    ensures var t := Intake(s, p.textInput); var o := Step(s, p);
      && o.state == t.(pendingQuery := None, forceWeb := false)
      && o.effects == [MathAttempt(t.pendingQuery.value, p.mathSolved)]
      && Step(s, p.(mathSolved := !p.mathSolved)).state == o.state
  {
  }

  /** With no consent asked yet, a document answer without "NOT_FOUND" is
      shown and clears only `pending_query`; consent is never requested. */
  lemma DocumentAnswerClearsOnlyPending(s: SessionState, p: Pass)
    requires Inv(s)
    requires var t := Intake(s, p.textInput);
      HasPending(t) && !IsMathQuery(t.pendingQuery.value) && t.webPermission == Unset
    requires p.docReply.Returned? && !Contains(p.docReply.text, Rag.NotFound)
    ensures var t := Intake(s, p.textInput); var o := Step(s, p);
      && o.state == t.(pendingQuery := None)
      && o.effects == [DocSearch(t.pendingQuery.value), ShowAnswer(p.docReply.text)]
      && AskConsent !in o.effects
  {
  }

  /** A "NOT_FOUND" answer with no button click suspends: the session fields
      are left exactly as the intake made them, and consent is asked. */
  lemma NotFoundSuspends(s: SessionState, p: Pass)
    requires Inv(s)
    requires var t := Intake(s, p.textInput);
      HasPending(t) && !IsMathQuery(t.pendingQuery.value) && t.webPermission == Unset
    requires p.docReply.Returned? && Contains(p.docReply.text, Rag.NotFound) && p.button == NoPress
    ensures var t := Intake(s, p.textInput); var o := Step(s, p);
      o.state == t && o.effects == [DocSearch(t.pendingQuery.value), AskConsent]
  {
  }

  /** When `retrieve_answer` raises (app.py:191 has no `try`), the pass ends
      with the session as the intake made it; the next pass with the same
      or an empty text box searches the documents for the query again. */
  lemma DocSearchFailureRetries(s: SessionState, p: Pass, p2: Pass)
    requires Inv(s)
    requires var t := Intake(s, p.textInput);
      HasPending(t) && !IsMathQuery(t.pendingQuery.value) && t.webPermission == Unset
    requires p.docReply.Raises?
    requires p2.textInput == "" || p2.textInput == Intake(s, p.textInput).lastQuery
    ensures var t := Intake(s, p.textInput); var o := Step(s, p);
      var e2 := Step(o.state, p2).effects;
      && o == Outcome(t, [DocSearch(t.pendingQuery.value), Raised])
      && |e2| > 0 && e2[0] == DocSearch(t.pendingQuery.value)
  {
  }

  /** The consent scenario: a new non-math query whose documents answer
      "NOT_FOUND" suspends; clicking Yes (the pass that renders the buttons
      searches the documents again) grants consent and forces the web path;
      the rerun performs exactly one web search. If that search returns,
      `pending_query`, `web_permission` and `force_web` are cleared and
      `last_query` is kept; if it raises, the session stays forced. */
  lemma ConsentYesScenario(s: SessionState, q: string, doc1: string, doc2: string, w1: bool, w2: bool, p3: Pass, m1: bool, m2: bool)
    requires Inv(s) && !Forced(s)
    requires q != "" && q != s.lastQuery && !IsMathQuery(q)
    requires Contains(doc1, Rag.NotFound) && Contains(doc2, Rag.NotFound)
    ensures var o1 := Step(s, Pass(q, NoPress, Returned(doc1), w1, m1));
      var o2 := Step(o1.state, Pass(q, PressYes, Returned(doc2), w2, m2));
      var o3 := Step(o2.state, p3);
      && o1 == Outcome(SessionState(Some(q), Unset, false, q), [DocSearch(q), AskConsent])
      && o2 == Outcome(SessionState(Some(q), Granted, true, q), [DocSearch(q), AskConsent, Rerun])
      && o3 == (if p3.webRaises then Outcome(o2.state, [WebSearch(q), Raised])
                else Outcome(SessionState(None, Unset, false, q), [WebSearch(q)]))
      && multiset(o1.effects + o2.effects + o3.effects)[WebSearch(q)] == 1
  {
    var p1 := Pass(q, NoPress, Returned(doc1), w1, m1);
    var t1 := SessionState(Some(q), Unset, false, q);
    NewQueryResets(s, p1);
    NotFoundSuspends(s, p1);
    var p2 := Pass(q, PressYes, Returned(doc2), w2, m2);
    SameInputKeepsState(t1, q);
    var t2 := SessionState(Some(q), Granted, true, q);
    assert Step(t1, p2) == Outcome(t2, [DocSearch(q), AskConsent, Rerun]);
    ForcedPassIgnoresInput(t2, p3, p3);
  }

  /** The decline scenario: clicking No records the refusal; the next pass
      reports the cancellation and clears `web_permission` and
      `pending_query` but keeps `last_query`, so the same text in the box
      does not start the query again; no web search happens at all. */
  lemma ConsentNoScenario(s: SessionState, q: string, doc1: string, doc2: string, w1: bool, w2: bool, m1: bool, m2: bool, p3: Pass, p4: Pass)
    requires Inv(s) && !Forced(s)
    requires q != "" && q != s.lastQuery && !IsMathQuery(q)
    requires Contains(doc1, Rag.NotFound) && Contains(doc2, Rag.NotFound)
    requires p3.textInput == q && p4.textInput == q
    ensures var o1 := Step(s, Pass(q, NoPress, Returned(doc1), w1, m1));
      var o2 := Step(o1.state, Pass(q, PressNo, Returned(doc2), w2, m2));
      var o3 := Step(o2.state, p3);
      var o4 := Step(o3.state, p4);
      && o2 == Outcome(SessionState(Some(q), Denied, false, q), [DocSearch(q), AskConsent, Rerun])
      && o3 == Outcome(SessionState(None, Unset, false, q), [Cancelled])
      && o4 == Outcome(o3.state, [])
      && WebSearch(q) !in o1.effects + o2.effects + o3.effects + o4.effects
  {
  }

  /** Document search and router together: when the retriever finds nothing
      for the pending query, `retrieve_answer` yields the sentinel, and a
      pass without a click leaves the session as the intake made it and
      asks for consent. */
  lemma EmptyRetrievalAsksConsent(s: SessionState, p: Pass, llm: string -> string)
    requires Inv(s)
    requires var t := Intake(s, p.textInput);
      HasPending(t) && !IsMathQuery(t.pendingQuery.value) && t.webPermission == Unset
    requires p.docReply == Returned(Rag.RetrieveAnswer(Intake(s, p.textInput).pendingQuery.value, [], llm))
    requires p.button == NoPress
    ensures var t := Intake(s, p.textInput);
      Step(s, p) == Outcome(t, [DocSearch(t.pendingQuery.value), AskConsent])
  {
    Rag.EmptyRetrievalIsNotFound(Intake(s, p.textInput).pendingQuery.value, llm);
    NotFoundSuspends(s, p);
  }
}
