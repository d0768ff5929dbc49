/**
 * What `handleApiException` makes of a Gemini `ApiException` message: whether it
 * is a quota error (a case-sensitive substring test) and the retry delay that
 * `extractRetryAfterSeconds` pulls out with the pattern `Please retry in ([\d.]+)s`.
 * The service only logs this classification; the generate methods return null.
 */
module ApiErrors {
  import opened Wrappers
  import opened Strings

  /** The message is non-null and contains "429", "quota" or "Quota exceeded". */
  predicate IsQuotaMessage(message: Option<string>) {
    message.Some? &&
    (Contains(message.value, "429") || Contains(message.value, "quota") ||
     Contains(message.value, "Quota exceeded"))
  }

  const RetryPrefix: string := "Please retry in "

  /** A character of the class `[\d.]` (Java's `\d` is ASCII digits only). */
  predicate IsDigitOrDot(c: char) {
    ('0' <= c <= '9') || c == '.'
  }

  /**
   * The regular expression `Please retry in ([\d.]+)s` matches `s` from offset
   * `p` to `e + 1`, capturing `s[p + |RetryPrefix| .. e]`.
   */
  ghost predicate PatternMatch(s: string, p: nat, e: nat) {
    var q := p + |RetryPrefix|;
    && p <= |s| && StartsWith(s[p..], RetryPrefix)
    && q < e < |s|
    && (forall k | q <= k < e :: IsDigitOrDot(s[k]))
    && s[e] == 's'
  }

  /** The end of the longest run of digits and dots that starts at `from`. */
  function RunEnd(s: string, from: nat): (e: nat)
    requires from <= |s|
    ensures from <= e <= |s|
    ensures forall k | from <= k < e :: IsDigitOrDot(s[k])
    ensures e < |s| ==> !IsDigitOrDot(s[e])
    decreases |s| - from
  {
    if from < |s| && IsDigitOrDot(s[from]) then RunEnd(s, from + 1) else from
  }

  /** The pattern matches at `p` with its greedy run of digits and dots. */
  predicate RetryMatchAt(s: string, p: nat) {
    p <= |s| && StartsWith(s[p..], RetryPrefix) &&
    var q := p + |RetryPrefix|;
    var e := RunEnd(s, q);
    q < e < |s| && s[e] == 's'
  }

  /**
   * At a given start the pattern has at most one match, and it ends after the
   * longest run of digits and dots: the greedy match is the only one.
   */
  lemma PatternMatchIsGreedyRun(s: string, p: nat, e: nat)
    requires p <= |s| && StartsWith(s[p..], RetryPrefix)
    ensures PatternMatch(s, p, e) <==> RetryMatchAt(s, p) && e == RunEnd(s, p + |RetryPrefix|)
  {
  }

  /** The captured group of the match at `p`. */
  function RetryCaptureAt(s: string, p: nat): (capture: string)
    requires RetryMatchAt(s, p)
    ensures |capture| > 0 && forall k | 0 <= k < |capture| :: IsDigitOrDot(capture[k])
  {
    s[p + |RetryPrefix| .. RunEnd(s, p + |RetryPrefix|)]
  }

  /** `Matcher.find()` from offset `from`: the capture of the leftmost match, if any. */
  function FindRetryFrom(s: string, from: nat): (r: Option<string>)
    ensures r.None? <==> forall p | from <= p < |s| :: !RetryMatchAt(s, p)
    ensures r.Some? ==> exists p | from <= p < |s| ::
              && RetryMatchAt(s, p) && r.value == RetryCaptureAt(s, p)
              && forall p' | from <= p' < p :: !RetryMatchAt(s, p')
    decreases |s| - from
  {
    if from >= |s| then None
    else if RetryMatchAt(s, from) then Some(RetryCaptureAt(s, from))
    else FindRetryFrom(s, from + 1)
  }

  /**
   * `extractRetryAfterSeconds`: `None` stands for the -1 the source returns for a
   * null message or a message without the pattern; otherwise the digits and
   * dots the source hands to `Double.parseDouble`.
   */
  function ExtractRetryAfterSeconds(message: Option<string>): (r: Option<string>)
    ensures message.None? ==> r.None?
    ensures message.Some? ==> (r.None? <==> forall p | 0 <= p < |message.value| :: !RetryMatchAt(message.value, p))
    ensures r.Some? ==> exists p | 0 <= p < |message.value| ::
              && RetryMatchAt(message.value, p) && r.value == RetryCaptureAt(message.value, p)
              && forall p' | 0 <= p' < p :: !RetryMatchAt(message.value, p')
  {
    if message.None? then None else FindRetryFrom(message.value, 0)
  }

  /** What `handleApiException` logs for an error message. */
  datatype ApiErrorReport = QuotaExceeded(retryAfterSeconds: Option<string>) | OtherApiError

  function HandleApiException(message: Option<string>): (report: ApiErrorReport)
    ensures report.QuotaExceeded? <==> IsQuotaMessage(message)
    ensures report.QuotaExceeded? ==> message.Some? && report.retryAfterSeconds == ExtractRetryAfterSeconds(message)
  {
    if IsQuotaMessage(message) then QuotaExceeded(ExtractRetryAfterSeconds(message)) else OtherApiError
  }

  /** A message without the letter 'P' carries no retry hint. */
  lemma NoRetryHintWithoutP(s: string)
    requires 'P' !in s
    ensures ExtractRetryAfterSeconds(Some(s)).None?
  {
    forall p | 0 <= p < |s| ensures !RetryMatchAt(s, p) {
      if StartsWith(s[p..], RetryPrefix) {
        assert s[p] == RetryPrefix[0];
      }
    }
  }

  /** The retry hint of a quota message is the run of digits after "Please retry in ". */
  lemma RetryHintOfQuotaMessage(head: string, digits: string)
    requires 'P' !in head
    requires |digits| > 0 && forall k | 0 <= k < |digits| :: IsDigitOrDot(digits[k])
    ensures ExtractRetryAfterSeconds(Some(head + RetryPrefix + digits + "s")) == Some(digits)
  {
    var s := head + RetryPrefix + digits + "s";
    var q := |head| + |RetryPrefix|;
    var e := q + |digits|;
    assert s[|head|..][..|RetryPrefix|] == RetryPrefix;
    assert s[e] == 's';
    assert forall k | q <= k < e :: s[k] == digits[k - q];
    assert RunEnd(s, e) == e;
    RunEndOfRun(s, q, e);
    assert s[q..e] == digits;
    assert RetryMatchAt(s, |head|);
    forall p | 0 <= p < |head| ensures !RetryMatchAt(s, p) {
      assert s[p] == head[p];
    }
    FirstMatchFound(s, 0, |head|);
  }

  /** Over a run of digits and dots, `RunEnd` reaches the end of the run. */
  lemma {:induction false} RunEndOfRun(s: string, from: nat, e: nat)
    requires from <= e <= |s| && RunEnd(s, e) == e
    requires forall k | from <= k < e :: IsDigitOrDot(s[k])
    ensures RunEnd(s, from) == e
    decreases e - from
  {
    if from < e {
      RunEndOfRun(s, from + 1, e);
    }
  }

  /** The scan returns the capture of the first offset that matches. */
  lemma {:induction false} FirstMatchFound(s: string, from: nat, p: nat)
    requires from <= p < |s| && RetryMatchAt(s, p)
    requires forall p' | from <= p' < p :: !RetryMatchAt(s, p')
    ensures FindRetryFrom(s, from) == Some(RetryCaptureAt(s, p))
    decreases p - from
  {
    if from < p {
      FirstMatchFound(s, from + 1, p);
    }
  }

  /** A message that starts with "429" and ends with a retry hint is a quota error with that hint. */
  lemma QuotaReportWithHint(rest: string, digits: string)
    requires 'P' !in rest
    requires |digits| > 0 && forall k | 0 <= k < |digits| :: IsDigitOrDot(digits[k])
    ensures HandleApiException(Some("429" + rest + RetryPrefix + digits + "s")) == QuotaExceeded(Some(digits))
  {
    var s := "429" + rest + RetryPrefix + digits + "s";
    assert s[..3] == "429";
    ContainsAt(s, "429", 0);
    assert 'P' !in "429" + rest;
    RetryHintOfQuotaMessage("429" + rest, digits);
  }

  /** A quota error with a retry hint is reported with the hint's digits. */
  lemma QuotaErrorWithRetryHint()
    ensures HandleApiException(Some("429 Quota exceeded. Please retry in 12.5s")) == QuotaExceeded(Some("12.5"))
  {
    assert "429 Quota exceeded. Please retry in 12.5s" == "429" + " Quota exceeded. " + RetryPrefix + "12.5" + "s";
    QuotaReportWithHint(" Quota exceeded. ", "12.5");
  }

  /** A quota error without a retry hint is reported without a delay (the source's -1). */
  lemma QuotaErrorWithoutRetryHint()
    ensures HandleApiException(Some("Quota exceeded")) == QuotaExceeded(None)
  {
    ContainsAt("Quota exceeded", "Quota exceeded", 0);
    NoRetryHintWithoutP("Quota exceeded");
  }

  /** A server error that names no quota is not a quota error. */
  lemma ServerErrorIsNotQuota()
    ensures HandleApiException(Some("500 internal error")) == OtherApiError
  {
    NotContainsFirstChar("500 internal error", "429");
    NotContainsFirstChar("500 internal error", "quota");
    NotContainsFirstChar("500 internal error", "Quota exceeded");
  }
}
