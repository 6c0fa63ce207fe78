/**
  The bounded retry policies around the OpenAI calls of the pipeline. A call is an
  oracle `nat -> ...` answering the n-th call (counted from 1); the sleeps are
  returned as the sequence of waits taken, in order.
 */
module Retry {
  import opened Wrappers
  import opened Text
  import RateLimit

  /** `max_attempts` of the chat loops and `max_retries` of the transcription loop. */
  const MaxAttempts: nat := 5

  function Pow2(n: nat): (r: nat)
    ensures r >= 1
  {
    if n == 0 then 1 else 2 * Pow2(n - 1)
  }

  /** The record of one retry loop: its result, the waits between calls, and the number of calls made. */
  datatype Run<E> = Run(result: Result<string, E>, waits: seq<nat>, calls: nat)

  // ---------------------------------------------------------------------------------------------
  // Chat completions: `summarize_stream`, `summarize_chunk`, `combine_summaries`

  /**
    One chat completion request: a response, whose text extraction may itself fail,
    or an error, kept as its `Debug` text.
   */
  datatype ChatOutcome = Responded(text: Result<string, string>) | Failed(err: string)

  /**
    The wait in milliseconds after failure number `attempt`: the hint `hint` reads from
    the error text, else `2^attempt * 1000`. The pipeline's hint reader is
    `RateLimit.ExtractWaitTimeMs`; the policy is stated for any reader.
   */
  function ChatWait(hint: string -> Option<nat>, err: string, attempt: nat): nat {
    match hint(err)
    case Some(ms) => ms
    case None => Pow2(attempt) * 1000
  }

  /** The chat loop once `done` calls have failed. */
  function ChatRun(chat: nat -> ChatOutcome, hint: string -> Option<nat>, done: nat): Run<string>
    requires done < MaxAttempts
    decreases MaxAttempts - done
  {
    match chat(done + 1)
    case Responded(text) => Run(text, [], done + 1)
    case Failed(err) =>
      if done + 1 >= MaxAttempts then Run(Err(err), [], done + 1)
      else AfterWaits([ChatWait(hint, err, done + 1)], ChatRun(chat, hint, done + 1))
  }

  /** A run that is preceded by the waits `before`. */
  function AfterWaits<E>(before: seq<nat>, run: Run<E>): Run<E> {
    Run(run.result, before + run.waits, run.calls)
  }

  /** Waits taken in two stretches are the waits of both, in order. */
  lemma AfterWaitsAppend<E>(first: seq<nat>, second: seq<nat>, run: Run<E>)
    ensures AfterWaits(first, AfterWaits(second, run)) == AfterWaits(first + second, run)
  {
    assert first + (second + run.waits) == first + second + run.waits;
  }

  /** The retry loop of the three chat requests. */
  method ChatWithRetry(chat: nat -> ChatOutcome, hint: string -> Option<nat>)
    returns (r: Result<string, string>, waits: seq<nat>, calls: nat)
    ensures Run(r, waits, calls) == ChatRun(chat, hint, 0)
  {
    var attempt := 0;
    waits := [];
    while true
      invariant attempt < MaxAttempts
      invariant ChatRun(chat, hint, 0) == AfterWaits(waits, ChatRun(chat, hint, attempt))
      decreases MaxAttempts - attempt
    {
      match chat(attempt + 1)
      case Responded(text) =>
        return text, waits, attempt + 1;
      case Failed(err) =>
        attempt := attempt + 1;
        var waitMs := ChatWait(hint, err, attempt);
        if attempt >= MaxAttempts {
          return Err(err), waits, attempt;
        }
        assert waits + ([waitMs] + ChatRun(chat, hint, attempt).waits)
          == waits + [waitMs] + ChatRun(chat, hint, attempt).waits;
        waits := waits + [waitMs];
    }
  }

  /** A chat request of the pipeline: the retry loop reading hints with `extract_wait_time_ms_from_error`. */
  method ChatRequest(chat: nat -> ChatOutcome) returns (r: Result<string, string>, waits: seq<nat>, calls: nat)
    ensures Run(r, waits, calls) == ChatRun(chat, RateLimit.ExtractWaitTimeMs, 0)
  {
    r, waits, calls := ChatWithRetry(chat, RateLimit.ExtractWaitTimeMs);
  }

  /** What the chat loop does, call by call, from the point where `done` calls have failed. */
  lemma {:induction false} ChatRunFrom(chat: nat -> ChatOutcome, hint: string -> Option<nat>, done: nat)
    requires done < MaxAttempts
    ensures var run := ChatRun(chat, hint, done);
      && done < run.calls <= MaxAttempts
      && |run.waits| == run.calls - done - 1
      && (forall i :: done < i < run.calls ==> chat(i).Failed?)
      && (forall i :: 0 <= i < |run.waits| ==> run.waits[i] == ChatWait(hint, chat(done + i + 1).err, done + i + 1))
      && (chat(run.calls).Responded? ==> run.result == chat(run.calls).text)
      && (chat(run.calls).Failed? ==> run.calls == MaxAttempts && run.result == Err(chat(run.calls).err))
    decreases MaxAttempts - done
  {
    if chat(done + 1).Failed? && done + 1 < MaxAttempts {
      ChatRunFrom(chat, hint, done + 1);
    }
  }

  /**
    At most five calls; every call before the last failed, and each failure but the fifth
    is followed by its wait; a response ends the loop with its text extraction, failed or
    not; the fifth failure is returned.
   */
  lemma ChatRetryPolicy(chat: nat -> ChatOutcome, hint: string -> Option<nat>)
    ensures var run := ChatRun(chat, hint, 0);
      && 1 <= run.calls <= MaxAttempts
      && |run.waits| == run.calls - 1
      && (forall i :: 1 <= i < run.calls ==> chat(i).Failed?)
      && (forall i :: 0 <= i < |run.waits| ==> run.waits[i] == ChatWait(hint, chat(i + 1).err, i + 1))
      && (chat(run.calls).Responded? ==> run.result == chat(run.calls).text)
      && (chat(run.calls).Failed? ==> run.calls == MaxAttempts && run.result == Err(chat(run.calls).err))
  {
    ChatRunFrom(chat, hint, 0);
  }

  /** Without rate-limit hints the waits are 2, 4, 8 and 16 seconds. */
  lemma {:induction false} ChatFallbackWaits(chat: nat -> ChatOutcome, hint: string -> Option<nat>)
    requires forall i :: 1 <= i <= MaxAttempts && chat(i).Failed? ==> hint(chat(i).err).None?
    ensures var run := ChatRun(chat, hint, 0);
      run.waits == [2000, 4000, 8000, 16000][..run.calls - 1]
  {
    var run := ChatRun(chat, hint, 0);
    ChatRetryPolicy(chat, hint);
    forall i | 0 <= i < |run.waits| ensures run.waits[i] == [2000, 4000, 8000, 16000][i] {
      assert chat(i + 1).Failed?;
      assert Pow2(i + 1) * 1000 == [2000, 4000, 8000, 16000][i] by {
        assert Pow2(1) == 2 && Pow2(2) == 4 && Pow2(3) == 8 && Pow2(4) == 16;
      }
    }
  }

  /** A server hint replaces the fallback wait. */
  lemma ChatHintedWait(chat: nat -> ChatOutcome, hint: string -> Option<nat>, k: nat)
    requires 1 <= k < ChatRun(chat, hint, 0).calls && hint(chat(k).err).Some?
    ensures ChatRun(chat, hint, 0).waits[k - 1] == hint(chat(k).err).value
  {
    ChatRetryPolicy(chat, hint);
  }

  /** A request that always fails is made five times, with four waits in between. */
  lemma ChatAlwaysFailing(chat: nat -> ChatOutcome, hint: string -> Option<nat>)
    requires forall i :: chat(i).Failed?
    ensures ChatRun(chat, hint, 0).calls == MaxAttempts && ChatRun(chat, hint, 0).result == Err(chat(MaxAttempts).err)
    ensures |ChatRun(chat, hint, 0).waits| == MaxAttempts - 1
  {
    ChatRetryPolicy(chat, hint);
  }

  // ---------------------------------------------------------------------------------------------
  // Audio transcription: `transcribe_audio`

  /** Why a transcription gave up. */
  datatype TranscribeError =
    | JsonInsteadOfText(attempts: nat)
    | CallFailed(attempts: nat, err: string)

  /** The reply looks like a JSON error: its first non-whitespace character is `{`. */
  predicate LooksLikeJson(reply: string) {
    reply != [] && if IsWhitespace(reply[0]) then LooksLikeJson(reply[1..]) else reply[0] == '{'
  }

  /** `LooksLikeJson` is the check `reply.trim_start().starts_with('{')`. */
  lemma {:induction false} LooksLikeJsonIsTrimStart(reply: string)
    ensures LooksLikeJson(reply) <==> StartsWith(TrimStart(reply), "{")
  {
    if reply != [] && IsWhitespace(reply[0]) {
      LooksLikeJsonIsTrimStart(reply[1..]);
    }
  }

  /** An attempt fails when the call fails or its reply looks like JSON. */
  predicate AttemptFailed(transcribe: nat -> Result<string, string>, i: nat) {
    transcribe(i).Err? || LooksLikeJson(transcribe(i).value)
  }

  /** The transcription loop once `done` attempts have failed. */
  function TranscribeRun(transcribe: nat -> Result<string, string>, done: nat): Run<TranscribeError>
    requires done < MaxAttempts
    decreases MaxAttempts - done
  {
    var attempt := done + 1;
    if !AttemptFailed(transcribe, attempt) then Run(Ok(transcribe(attempt).value), [], attempt)
    else if attempt >= MaxAttempts then Run(Err(GiveUp(transcribe(attempt), attempt)), [], attempt)
    else AfterWaits([Pow2(attempt)], TranscribeRun(transcribe, attempt))
  }

  /** The error of the last failed attempt: the call's own error, or a reply that looks like JSON. */
  function GiveUp(outcome: Result<string, string>, attempt: nat): TranscribeError {
    match outcome
    case Ok(_) => JsonInsteadOfText(attempt)
    case Err(err) => CallFailed(attempt, err)
  }

  /** `transcribe_audio`: the waits are in seconds. */
  method TranscribeAudio(transcribe: nat -> Result<string, string>)
    returns (r: Result<string, TranscribeError>, waits: seq<nat>, calls: nat)
    ensures Run(r, waits, calls) == TranscribeRun(transcribe, 0)
  {
    var attempt := 0;
    waits := [];
    while true
      invariant attempt < MaxAttempts
      invariant TranscribeRun(transcribe, 0) == AfterWaits(waits, TranscribeRun(transcribe, attempt))
      decreases MaxAttempts - attempt
    {
      attempt := attempt + 1;
      match transcribe(attempt) {
        case Ok(reply) =>
          if LooksLikeJson(reply) {
            if attempt >= MaxAttempts {
              return Err(JsonInsteadOfText(attempt)), waits, attempt;
            }
          } else {
            return Ok(reply), waits, attempt;
          }
        case Err(err) =>
          if attempt >= MaxAttempts {
            return Err(CallFailed(attempt, err)), waits, attempt;
          }
      }
      TranscribeRunStep(transcribe, attempt - 1);
      AfterWaitsAppend(waits, [Pow2(attempt)], TranscribeRun(transcribe, attempt));
      waits := waits + [Pow2(attempt)];
    }
  }

  /** A failed attempt before the fifth is followed by its wait and the rest of the loop. */
  lemma TranscribeRunStep(transcribe: nat -> Result<string, string>, done: nat)
    requires done + 1 < MaxAttempts && AttemptFailed(transcribe, done + 1)
    ensures TranscribeRun(transcribe, done) == AfterWaits([Pow2(done + 1)], TranscribeRun(transcribe, done + 1))
  {
  }

  /** The seconds slept after the first four failed attempts: `2^attempt`. */
  const Backoffs: seq<nat> := [2, 4, 8, 16]

  /** From the point where `done` attempts have failed: the calls made, and the wait after each failed one. */
  lemma {:induction false} TranscribeRunWaits(transcribe: nat -> Result<string, string>, done: nat)
    requires done < MaxAttempts
    ensures var run := TranscribeRun(transcribe, done);
      && done < run.calls <= MaxAttempts
      && run.waits == Backoffs[done..run.calls - 1]
    decreases MaxAttempts - done
  {
    if AttemptFailed(transcribe, done + 1) && done + 1 < MaxAttempts {
      TranscribeRunStep(transcribe, done);
      TranscribeRunWaits(transcribe, done + 1);
      var run := TranscribeRun(transcribe, done);
      assert Pow2(done + 1) == Backoffs[done] by {
        assert Pow2(1) == 2 && Pow2(2) == 4 && Pow2(3) == 8 && Pow2(4) == 16;
      }
      assert Backoffs[done..run.calls - 1] == [Backoffs[done]] + Backoffs[done + 1..run.calls - 1];
    }
  }

  /**
    From the point where `done` attempts have failed: every attempt before the last failed,
    and the last one gives the result: its reply when it did not fail, else the loop gives up
    at the fifth attempt.
   */
  lemma {:induction false} TranscribeRunOutcome(transcribe: nat -> Result<string, string>, done: nat)
    requires done < MaxAttempts
    ensures var run := TranscribeRun(transcribe, done);
      && (forall i :: done < i < run.calls ==> AttemptFailed(transcribe, i))
      && (run.result.Ok? <==> !AttemptFailed(transcribe, run.calls))
      && (run.result.Ok? ==> run.result.value == transcribe(run.calls).value)
      && (run.result.Err? ==> run.calls == MaxAttempts)
    decreases MaxAttempts - done
  {
    if AttemptFailed(transcribe, done + 1) && done + 1 < MaxAttempts {
      TranscribeRunStep(transcribe, done);
      TranscribeRunOutcome(transcribe, done + 1);
    }
  }

  /**
    At most five calls; a failed attempt (an error, or a reply that looks like JSON)
    before the fifth is followed by a sleep of 2^attempt seconds; the first good reply is
    returned unchanged; after five failed attempts the loop gives up.
   */
  lemma TranscribePolicy(transcribe: nat -> Result<string, string>)
    ensures var run := TranscribeRun(transcribe, 0);
      && 1 <= run.calls <= MaxAttempts
      && run.waits == Backoffs[..run.calls - 1]
      && (forall i :: 1 <= i < run.calls ==> AttemptFailed(transcribe, i))
      && (run.result.Ok? <==> !AttemptFailed(transcribe, run.calls))
      && (run.result.Ok? ==> run.result.value == transcribe(run.calls).value)
      && (run.result.Err? ==> run.calls == MaxAttempts)
  {
    TranscribeRunWaits(transcribe, 0);
    TranscribeRunOutcome(transcribe, 0);
  }
}
