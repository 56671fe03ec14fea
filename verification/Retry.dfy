/** Calls to a language model provider, repeated while it fails transiently. */
module Retry {
  import opened Wrappers

  const DEFAULT_MAX_RETRIES := 2

  /** A provider's error: which sentinels it wraps, and its text. */
  datatype Error = Error(rateLimited: bool, unavailable: bool, message: string)

  datatype Reply = Ok(content: string) | Err(error: Error)

  datatype Outcome =
    | Answered(content: string)
    | Rejected(error: Error)
    | Exhausted(last: Error)
    | Cancelled

  predicate Contains(s: string, part: string) {
    part <= s || (s != [] && Contains(s[1..], part))
  }

  const RETRYABLE_TEXTS := [
    "status 429", "status 500", "status 502", "status 503", "status 504",
    "connection refused", "connection reset", "i/o timeout", "no such host",
    "context deadline exceeded", "Client.Timeout"]

  predicate IsRetryable(e: Error) {
    e.rateLimited || e.unavailable || exists i :: 0 <= i < |RETRYABLE_TEXTS| && Contains(e.message, RETRYABLE_TEXTS[i])
  }

  /** The worker's own, narrower test. */
  predicate IsTransient(e: Error) {
    e.rateLimited || e.unavailable || Contains(e.message, "context deadline exceeded") || Contains(e.message, "Client.Timeout")
  }

  ghost predicate StandsAt(part: string, s: string, i: nat) {
    i + |part| <= |s| && forall k :: 0 <= k < |part| ==> s[i + k] == part[k]
  }

  ghost predicate Occurs(part: string, s: string) {
    exists i: nat :: StandsAt(part, s, i)
  }

  lemma {:induction false} ContainsIff(s: string, part: string)
    ensures Contains(s, part) <==> Occurs(part, s)
  {
    AtStart(part, s);
    if !(part <= s) {
      if s != [] {
        ContainsIff(s[1..], part);
        Shifted(part, s);
        hide Occurs;
      }
    }
  }

  lemma AtStart(part: string, s: string)
    ensures part <= s <==> StandsAt(part, s, 0)
    ensures s == [] && Occurs(part, s) ==> part == []
  {
    if StandsAt(part, s, 0) {
      assert part == s[..|part|];
    }
  }

  lemma Shifted(part: string, s: string)
    requires s != [] && !StandsAt(part, s, 0)
    ensures Occurs(part, s) <==> Occurs(part, s[1..])
  {
    if Occurs(part, s[1..]) {
      var i: nat :| StandsAt(part, s[1..], i);
      forall k | 0 <= k < |part| ensures s[i + 1 + k] == part[k] { assert s[1..][i + k] == part[k]; }
      assert StandsAt(part, s, i + 1);
    }
    if Occurs(part, s) {
      var i: nat :| StandsAt(part, s, i);
      forall k | 0 <= k < |part| ensures s[1..][i - 1 + k] == part[k] { assert s[i + k] == part[k]; }
      assert StandsAt(part, s[1..], i - 1);
    }
  }

  /** An error is retried when it wraps one of two sentinels, or when its text says that the
      provider was overloaded or failing, or that the network or the time ran out. */
  lemma RetryableIff(e: Error)
    ensures IsRetryable(e) <==>
      || e.rateLimited || e.unavailable
      || Occurs("status 429", e.message) || Occurs("status 500", e.message) || Occurs("status 502", e.message)
      || Occurs("status 503", e.message) || Occurs("status 504", e.message)
      || Occurs("connection refused", e.message) || Occurs("connection reset", e.message)
      || Occurs("i/o timeout", e.message) || Occurs("no such host", e.message)
      || Occurs("context deadline exceeded", e.message) || Occurs("Client.Timeout", e.message)
  {
    var texts := RETRYABLE_TEXTS;
    forall i | 0 <= i < |texts| ensures Contains(e.message, texts[i]) <==> Occurs(texts[i], e.message) {
      ContainsIff(e.message, texts[i]);
    }
    assert texts[0] == "status 429" && texts[1] == "status 500" && texts[2] == "status 502";
    assert texts[3] == "status 503" && texts[4] == "status 504" && texts[5] == "connection refused";
    assert texts[6] == "connection reset" && texts[7] == "i/o timeout" && texts[8] == "no such host";
    assert texts[9] == "context deadline exceeded" && texts[10] == "Client.Timeout";
    hide Contains, Occurs;
  }

  /** The worker's own test knows the two sentinels and the two texts of a timeout only. */
  lemma TransientIff(e: Error)
    ensures IsTransient(e) <==>
      || e.rateLimited || e.unavailable
      || Occurs("context deadline exceeded", e.message) || Occurs("Client.Timeout", e.message)
  {
    ContainsIff(e.message, "context deadline exceeded");
    ContainsIff(e.message, "Client.Timeout");
    hide Contains, Occurs;
  }

  /** What the worker takes for transient was retried before it got there. */
  lemma TransientIsRetryable(e: Error)
    ensures IsTransient(e) ==> IsRetryable(e)
  {
    assert RETRYABLE_TEXTS[9] == "context deadline exceeded" && RETRYABLE_TEXTS[10] == "Client.Timeout";
    hide Contains;
  }

  /** The calls that are repeated: each failed transiently, and none but the first came after
      the context had ended. */
  ghost predicate Repeated(reply: nat -> Reply, done: nat -> bool, start: nat, calls: nat) {
    && (forall k: nat :: start <= k < start + calls ==> reply(k).Err? && IsRetryable(reply(k).error))
    && (forall k: nat :: start < k < start + calls ==> !done(k))
  }

  /** The only way a provider is used, from its `start`-th call on: `reply` gives the answer to
      each call, `done` whether the context ended while backing off before it. */
  ghost predicate Completes(reply: nat -> Reply, done: nat -> bool, start: nat, maxRetries: nat, calls: nat, outcome: Outcome) {
    && 1 <= calls <= maxRetries + 1
    && Repeated(reply, done, start, calls - 1)
    && (calls > 1 ==> !done(start + calls - 1))
    && var last := reply(start + calls - 1);
       match outcome
       case Answered(content) => last == Ok(content)
       case Rejected(e) => last == Err(e) && !IsRetryable(e)
       case Exhausted(e) => last == Err(e) && IsRetryable(e) && calls == maxRetries + 1
       case Cancelled => last.Err? && IsRetryable(last.error) && calls <= maxRetries && done(start + calls)
  }

  method RetryableComplete(reply: nat -> Reply, done: nat -> bool, start: nat, maxRetries: nat)
    returns (calls: nat, outcome: Outcome)
    ensures Completes(reply, done, start, maxRetries, calls, outcome)
  {
    calls := 0;
    var lastErr := Error(false, false, "");
    for attempt := 0 to maxRetries + 1
      invariant calls == attempt
      invariant Repeated(reply, done, start, calls)
      invariant calls > 0 ==> reply(start + calls - 1) == Err(lastErr) && IsRetryable(lastErr)
    {
      hide IsRetryable;
      if attempt > 0 && done(start + attempt) { return calls, Cancelled; }
      var response := reply(start + attempt);
      calls := calls + 1;
      if response.Ok? { return calls, Answered(response.content); }
      if !IsRetryable(response.error) { return calls, Rejected(response.error); }
      lastErr := response.error;
    }
    outcome := Exhausted(lastErr);
  }

  /** The number of calls and the outcome are determined: no answer is skipped, none is asked
      for twice. */
  lemma CompletesOnce(reply: nat -> Reply, done: nat -> bool, start: nat, maxRetries: nat,
                      calls: nat, outcome: Outcome, calls': nat, outcome': Outcome)
    requires Completes(reply, done, start, maxRetries, calls, outcome)
    requires Completes(reply, done, start, maxRetries, calls', outcome')
    ensures calls == calls' && outcome == outcome'
  {
  }
}
