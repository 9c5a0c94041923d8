/**
 * The reply that `generate_gemini_response` (app.py:45-59) gives for one
 * remote call. The call itself (`model.generate_content(prompt)`) is not
 * modelled: what it produced is an input, an `Outcome`.
 */
module GeminiReply {
  import opened Wrappers
  import opened TextOps

  /**
   * What the remote call produced: a response whose `text` attribute is
   * present (`Some`) or missing (`None`), or a raised exception whose
   * `str(e)` is `msg`.
   */
  datatype Outcome = Success(text: Option<string>) | Failure(msg: string)

  /** Reply to a response that carries no usable text (one string, written in two pieces). */
  const Fallback: string := "I couldn't generate a response." + " Please try again."

  /** Reply to an error that looks like a quota or rate limit; it starts with U+26A0 U+FE0F. */
  const RateLimitWarning: string :=
    "\U{26A0}\U{FE0F} API rate limit reached." + " Please wait a moment before trying again."

  /** Every other error is reported as this prefix followed by the error's message. */
  const ErrorPrefix: string := "An error occurred: "

  /** The words whose presence in a lower-cased error message marks a rate limit. */
  const RateLimitKeywords: seq<string> := ["quota", "rate", "limit"]

  /** Keyword `kw` stands in `msg` at index `i`, whatever the case of its letters there. */
  ghost predicate KeywordAt(msg: string, kw: string, i: nat)
  {
    i + |kw| <= |msg| && Lower(msg[i..i + |kw|]) == kw
  }

  /** Some keyword stands somewhere in `msg`, as a plain substring, in any letter case. */
  ghost predicate MentionsRateLimit(msg: string)
  {
    exists kw, i: nat :: kw in RateLimitKeywords && KeywordAt(msg, kw, i)
  }

  /** `kw in msg.lower()` holds exactly when `kw` stands somewhere in `msg`, in any letter case. */
  lemma LoweredContains(msg: string, kw: string)
    ensures Contains(Lower(msg), kw) <==> exists i: nat :: KeywordAt(msg, kw, i)
  {
    var lowered := Lower(msg);
    ContainsCorrect(lowered, kw);
    forall i: nat | i + |kw| <= |msg|
      ensures OccursAt(lowered, kw, i) <==> KeywordAt(msg, kw, i)
    {
      LowerSlice(msg, i, i + |kw|);
    }
  }

  /**
   * The test of app.py:56: the lower-cased message contains one of the three
   * words. It holds exactly when the message mentions a keyword.
   */
  predicate IsRateLimitMessage(msg: string)
    ensures IsRateLimitMessage(msg) <==> MentionsRateLimit(msg)
  {
    LoweredContains(msg, "quota");
    LoweredContains(msg, "rate");
    LoweredContains(msg, "limit");
    var lowered := Lower(msg);
    Contains(lowered, "quota") || Contains(lowered, "rate") || Contains(lowered, "limit")
  }

  /** The reply string shown to the user and stored as the assistant's turn. */
  function Reply(outcome: Outcome): (r: string)
    ensures outcome.Success? && outcome.text.Some? && outcome.text.value != "" ==>
              r == outcome.text.value
    ensures outcome.Success? && (outcome.text.None? || outcome.text.value == "") ==>
              r == Fallback
    ensures outcome.Failure? && MentionsRateLimit(outcome.msg) ==>
              r == RateLimitWarning
    ensures outcome.Failure? && !MentionsRateLimit(outcome.msg) ==>
              r == ErrorPrefix + outcome.msg
  {
    match outcome
    case Success(text) =>
      if text.Some? && text.value != "" then text.value else Fallback
    case Failure(msg) =>
      if IsRateLimitMessage(msg) then RateLimitWarning else ErrorPrefix + msg
  }

  /** The three fixed reply forms differ from one another, whatever the error message. */
  lemma FixedRepliesDistinct(msg: string)
    ensures Fallback != RateLimitWarning
    ensures ErrorPrefix + msg != Fallback
    ensures ErrorPrefix + msg != RateLimitWarning
  {
    assert Fallback[0] == 'I' && RateLimitWarning[0] == '\U{26A0}';
    assert (ErrorPrefix + msg)[0] == 'A';
  }

  /**
   * An error's reply is the rate-limit warning exactly when a keyword is
   * mentioned, and the error template with the untouched message exactly
   * when none is.
   */
  lemma FailureReplyIff(msg: string)
    ensures Reply(Failure(msg)) == RateLimitWarning <==> MentionsRateLimit(msg)
    ensures Reply(Failure(msg)) == ErrorPrefix + msg <==> !MentionsRateLimit(msg)
  {
    FixedRepliesDistinct(msg);
  }

  /** A response without usable text gets the fixed retry prompt, never an error reply. */
  lemma EmptyResponseIsNotAnError(outcome: Outcome, msg: string)
    requires outcome.Success? && (outcome.text.None? || outcome.text.value == "")
    ensures Reply(outcome) == Fallback
    ensures Reply(outcome) != RateLimitWarning && Reply(outcome) != ErrorPrefix + msg
  {
    FixedRepliesDistinct(msg);
  }

  /** The keyword's first letter, lower-cased, is the character at the match. */
  lemma KeywordAtFirstChar(msg: string, kw: string, i: nat)
    requires |kw| > 0
    ensures KeywordAt(msg, kw, i) ==> i < |msg| && LowerChar(msg[i]) == kw[0]
  {
    if KeywordAt(msg, kw, i) {
      assert Lower(msg[i..i + |kw|])[0] == LowerChar(msg[i]);
    }
  }

  /** A message with no q, r or l in any case mentions no keyword, so it gets the error template. */
  lemma NoKeywordLetterMeansGenericError(msg: string)
    requires forall j :: 0 <= j < |msg| ==>
               LowerChar(msg[j]) != 'q' && LowerChar(msg[j]) != 'r' && LowerChar(msg[j]) != 'l'
    ensures !MentionsRateLimit(msg)
    ensures Reply(Failure(msg)) == ErrorPrefix + msg
  {
    forall kw, i: nat | kw in RateLimitKeywords
      ensures !KeywordAt(msg, kw, i)
    {
      KeywordAtFirstChar(msg, kw, i);
    }
  }

  /** Two messages equal up to ASCII letter case get the same classification. */
  lemma CaseDoesNotMatter(m1: string, m2: string)
    requires Lower(m1) == Lower(m2)
    ensures MentionsRateLimit(m1) <==> MentionsRateLimit(m2)
    ensures Reply(Failure(m1)) == RateLimitWarning <==> Reply(Failure(m2)) == RateLimitWarning
  {
    assert IsRateLimitMessage(m1) == IsRateLimitMessage(m2);
    FailureReplyIff(m1);
    FailureReplyIff(m2);
  }

  /** "generate" contains "rate", so this unrelated error is reported as a rate limit. */
  lemma GenerateCountsAsRateLimit()
    ensures Reply(Failure("failed to generate")) == RateLimitWarning
  {
    var msg := "failed to generate";
    assert msg[14..18] == "rate";
    assert KeywordAt(msg, "rate", 14);
  }

  /** An error message with the keywords in mixed case is a rate limit. */
  lemma MixedCaseRateLimit()
    ensures Reply(Failure("Rate limit exceeded")) == RateLimitWarning
  {
    assert "Rate limit exceeded"[0..4] == "Rate";
    assert Lower("Rate") == "rate";
    assert KeywordAt("Rate limit exceeded", "rate", 0);
  }

  /** An upper-case keyword is a rate limit. */
  lemma UpperCaseQuota()
    ensures Reply(Failure("QUOTA exceeded")) == RateLimitWarning
  {
    assert "QUOTA exceeded"[0..5] == "QUOTA";
    assert Lower("QUOTA") == "quota";
    assert KeywordAt("QUOTA exceeded", "quota", 0);
  }

  /** An error without any keyword is reported with its message appended to the template. */
  lemma GenericErrorExample()
    ensures Reply(Failure("Bad gateway")) == ErrorPrefix + "Bad gateway"
  {
    var msg := "Bad gateway";
    forall j | 0 <= j < |msg|
      ensures LowerChar(msg[j]) != 'q' && LowerChar(msg[j]) != 'r' && LowerChar(msg[j]) != 'l'
    {
      assert msg[j] in "Badgtewy ";
    }
    NoKeywordLetterMeansGenericError(msg);
  }
}
