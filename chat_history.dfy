/**
 * The chat history kept in `st.session_state.messages` and what one run of
 * the page script does to it (app.py:35-37 and 62-80). The page itself, its
 * widgets and the remote call are not modelled: the text the user typed and
 * what the remote call produced are inputs.
 */
module ChatHistory {
  import opened Wrappers
  import opened GeminiReply

  datatype Role = User | Assistant

  /** One entry `{"role": ..., "content": ...}` of the history. */
  datatype Turn = Turn(role: Role, content: string)

  /** What is handed to the remote model: the model id and the prompt. */
  datatype Request = Request(modelId: string, prompt: string)

  /** The model used when the session holds no "selected_model". */
  const DefaultModel: string := "gemini-2.0-flash"

  /**
   * `st.session_state.get("selected_model", "gemini-2.0-flash")`: the stored
   * selection when there is one, the default model otherwise.
   */
  function ModelId(selected: Option<string>): (id: string)
    ensures selected.Some? ==> id == selected.value
    ensures selected.None? ==> id == DefaultModel
  {
    selected.GetOr(DefaultModel)
  }

  /** Python's `if user_prompt:`: false exactly for `None` and for the empty string. */
  predicate Submitted(input: Option<string>)
    ensures !Submitted(input) <==> input == None || input == Some("")
    ensures Submitted(input) ==> |input.value| > 0
  {
    input.Some? && input.value != ""
  }

  /**
   * The history after the submission block of the script: unchanged when
   * nothing was submitted, otherwise the user's turn and then the reply.
   */
  function AfterSubmit(history: seq<Turn>, input: Option<string>, outcome: Outcome): (h: seq<Turn>)
    ensures !Submitted(input) ==> h == history
    ensures Submitted(input) ==> |h| == |history| + 2 && h[..|history|] == history
    ensures Submitted(input) ==> h[|history|] == Turn(User, input.value)
    ensures Submitted(input) ==> h[|history| + 1] == Turn(Assistant, Reply(outcome))
  {
    if Submitted(input) then history + [Turn(User, input.value), Turn(Assistant, Reply(outcome))]
    else history
  }

  /** Turns come in (user, assistant) pairs, the user's first. */
  ghost predicate Paired(h: seq<Turn>)
  {
    |h| % 2 == 0 &&
    forall i :: 0 <= i < |h| ==> h[i].role == (if i % 2 == 0 then User else Assistant)
  }

  /** A submission keeps the history in (user, assistant) pairs. */
  lemma AfterSubmitKeepsPairs(history: seq<Turn>, input: Option<string>, outcome: Outcome)
    requires Paired(history)
    ensures Paired(AfterSubmit(history, input, outcome))
  {
  }

  /** One run of the script: what the user typed and what the remote call produced. */
  datatype Run = Run(input: Option<string>, outcome: Outcome)

  /** The history after a series of runs, oldest first. */
  function Replay(history: seq<Turn>, runs: seq<Run>): (h: seq<Turn>)
    ensures |history| <= |h| && h[..|history|] == history
    decreases |runs|
  {
    if runs == [] then history
    else Replay(AfterSubmit(history, runs[0].input, runs[0].outcome), runs[1..])
  }

  /** The contents of the user's turns, in order. */
  function UserPrompts(h: seq<Turn>): seq<string>
  {
    if h == [] then []
    else (if h[0].role == User then [h[0].content] else []) + UserPrompts(h[1..])
  }

  /** The non-empty inputs of a series of runs, in order. */
  function SubmittedPrompts(runs: seq<Run>): seq<string>
  {
    if runs == [] then []
    else (if Submitted(runs[0].input) then [runs[0].input.value] else []) + SubmittedPrompts(runs[1..])
  }

  lemma {:induction false} UserPromptsAppend(a: seq<Turn>, b: seq<Turn>)
    ensures UserPrompts(a + b) == UserPrompts(a) + UserPrompts(b)
    decreases |a|
  {
    if a == [] {
      assert a + b == b;
    } else {
      assert (a + b)[1..] == a[1..] + b;
      UserPromptsAppend(a[1..], b);
    }
  }

  /** A submission adds its prompt, and nothing else, to the user's side of the history. */
  lemma UserPromptsAfterSubmit(history: seq<Turn>, input: Option<string>, outcome: Outcome)
    ensures UserPrompts(AfterSubmit(history, input, outcome)) ==
            UserPrompts(history) + (if Submitted(input) then [input.value] else [])
  {
    if Submitted(input) {
      var pair := [Turn(User, input.value), Turn(Assistant, Reply(outcome))];
      UserPromptsAppend(history, pair);
      assert UserPrompts(pair) == [input.value] by {
        assert pair[1..][1..] == [];
        assert UserPrompts(pair[1..]) == [];
      }
    }
  }

  /** Over any series of runs the history records every submitted prompt once, in order. */
  lemma {:induction false} ReplayRecordsPromptsInOrder(history: seq<Turn>, runs: seq<Run>)
    ensures UserPrompts(Replay(history, runs)) == UserPrompts(history) + SubmittedPrompts(runs)
    decreases |runs|
  {
    if runs != [] {
      var next := AfterSubmit(history, runs[0].input, runs[0].outcome);
      UserPromptsAfterSubmit(history, runs[0].input, runs[0].outcome);
      ReplayRecordsPromptsInOrder(next, runs[1..]);
    }
  }

  /** The turns a series of runs adds: for each submitted run, its prompt and then its reply. */
  function Exchanges(runs: seq<Run>): seq<Turn>
  {
    if runs == [] then []
    else AfterSubmit([], runs[0].input, runs[0].outcome) + Exchanges(runs[1..])
  }

  /** A submission appends to any history the turns it would give an empty one. */
  lemma AfterSubmitAppends(history: seq<Turn>, input: Option<string>, outcome: Outcome)
    ensures AfterSubmit(history, input, outcome) == history + AfterSubmit([], input, outcome)
  {
  }

  /**
   * A series of runs appends exactly its exchanges to the history: each
   * submitted prompt is followed directly by the reply to that run's outcome.
   */
  lemma {:induction false} ReplayAppendsExchanges(history: seq<Turn>, runs: seq<Run>)
    ensures Replay(history, runs) == history + Exchanges(runs)
    decreases |runs|
  {
    if runs != [] {
      var step := AfterSubmit([], runs[0].input, runs[0].outcome);
      var rest := Exchanges(runs[1..]);
      AfterSubmitAppends(history, runs[0].input, runs[0].outcome);
      ReplayAppendsExchanges(history + step, runs[1..]);
      assert Exchanges(runs) == step + rest;
      assert history + step + rest == history + (step + rest);
    }
  }

  /** Replaying runs over a history in (user, assistant) pairs keeps it in such pairs. */
  lemma {:induction false} ReplayKeepsPairs(history: seq<Turn>, runs: seq<Run>)
    requires Paired(history)
    ensures Paired(Replay(history, runs))
    decreases |runs|
  {
    if runs != [] {
      AfterSubmitKeepsPairs(history, runs[0].input, runs[0].outcome);
      ReplayKeepsPairs(AfterSubmit(history, runs[0].input, runs[0].outcome), runs[1..]);
    }
  }

  /** The session state the script reads and writes. */
  class Session {
    /** `st.session_state.messages`; None while the key is absent. */
    var messages: Option<seq<Turn>>
    /** `st.session_state["selected_model"]`; None while the key is absent. */
    var selectedModel: Option<string>

    /** A new session: no history yet, and the given model selection. */
    constructor (selectedModel: Option<string>)
      ensures messages == None && this.selectedModel == selectedModel
    {
      messages := None;
      this.selectedModel := selectedModel;
    }

    /** app.py:36-37: create an empty history only when there is none. */
    method InitHistory()
      modifies this
      ensures old(messages).None? ==> messages == Some([])
      ensures old(messages).Some? ==> messages == old(messages)
      ensures selectedModel == old(selectedModel)
    {
      if messages.None? {
        messages := Some([]);
      }
    }

    /**
     * app.py:65-80: for a non-empty input, append the user's turn, ask the
     * model about that input alone, and append the reply. `sent` is the
     * request the page asks the client to make (model id and prompt);
     * `outcome` is what the client produced for it, which may be a failure
     * raised before anything reached the network.
     */
    method Submit(input: Option<string>, outcome: Outcome) returns (sent: Option<Request>)
      requires messages.Some?
      modifies this
      ensures Submitted(input) ==> sent == Some(Request(ModelId(selectedModel), input.value))
      ensures !Submitted(input) ==> sent == None
      ensures selectedModel.None? && sent.Some? ==> sent.value.modelId == DefaultModel
      ensures messages == Some(AfterSubmit(old(messages).value, input, outcome))
      ensures selectedModel == old(selectedModel)
    {
      sent := None;
      ghost var history := messages.value;
      if input.Some? && input.value != "" {
        var prompt := input.value;
        messages := Some(messages.value + [Turn(User, prompt)]);
        sent := Some(Request(ModelId(selectedModel), prompt));
        var response := Reply(outcome);
        messages := Some(messages.value + [Turn(Assistant, response)]);
        assert messages.value == history + [Turn(User, prompt), Turn(Assistant, response)];
      }
    }

    /** One run of the script: initialise the history if needed, then handle the input. */
    method RunScript(input: Option<string>, outcome: Outcome) returns (sent: Option<Request>)
      modifies this
      ensures messages == Some(AfterSubmit(old(messages).GetOr([]), input, outcome))
      ensures Submitted(input) ==> sent == Some(Request(ModelId(selectedModel), input.value))
      ensures !Submitted(input) ==> sent == None
      ensures selectedModel == old(selectedModel)
    {
      InitHistory();
      sent := Submit(input, outcome);
    }
  }

  /** "Explain gravity" answered with "Gravity is..." leaves exactly those two turns. */
  method GravityScenario()
  {
    var session := new Session(None);
    var sent := session.RunScript(Some("Explain gravity"), Success(Some("Gravity is...")));
    assert sent == Some(Request("gemini-2.0-flash", "Explain gravity"));
    assert session.messages ==
      Some([Turn(User, "Explain gravity"), Turn(Assistant, "Gravity is...")]);
  }

  /** An error mentioning a rate limit is stored as the fixed warning, after the user's turn. */
  method RateLimitScenario()
  {
    var session := new Session(Some("gemini-1.5-pro"));
    var sent := session.RunScript(Some("hi"), Failure("Rate limit exceeded"));
    MixedCaseRateLimit();
    assert sent == Some(Request("gemini-1.5-pro", "hi"));
    assert session.messages == Some([Turn(User, "hi"), Turn(Assistant, RateLimitWarning)]);
  }
}
