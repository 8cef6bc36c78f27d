/** Attach and its retry loop (sandbox.go): connect until it works, fails for good or times out. */
module Attach {
  import opened Types

  /** Durations count nanoseconds. */
  const SECOND: nat := 1_000_000_000
  const BAD_REQUEST := 400

  /** How one connection attempt ends; `Refused` carries the status of an AsyncSubresourceError. */
  datatype Attempt = Connected(connection: nat) | Refused(status: int) | OtherFailure

  /** What an attempt meets: how long it takes, how it ends, and how much longer than a second the sleep lasts. */
  datatype Round = Round(duration: nat, attempt: Attempt, oversleep: nat)

  datatype Answer = Connection(connection: nat) | Failure(attempt: Attempt) | Timeout

  /** The channel the caller receives one answer from: everything that was sent on it. */
  class ConnectionChannel {
    var sent: seq<Answer>

    constructor ()
      ensures sent == []
    {
      sent := [];
    }

    method Send(answer: Answer)
      modifies this
      ensures sent == old(sent) + [answer]
    {
      sent := sent + [answer];
    }
  }

  predicate Retries(attempt: Attempt) {
    attempt == Refused(BAD_REQUEST)
  }

  function AnswerOf(attempt: Attempt): Answer {
    match attempt
    case Connected(c) => Connection(c)
    case _ => Failure(attempt)
  }

  /** When the n-th attempt (counted from zero) starts, if all before it are retried; the goroutine itself starts
      `delay` after the ticker. */
  function StartOf(delay: nat, rounds: nat -> Round, n: nat): nat {
    if n == 0 then delay
    else StartOf(delay, rounds, n - 1) + rounds(n - 1).duration + SECOND + rounds(n - 1).oversleep
  }

  lemma {:induction false} StartAtLeast(delay: nat, rounds: nat -> Round, n: nat)
    ensures StartOf(delay, rounds, n) >= n * SECOND
  {
    if n > 0 {
      StartAtLeast(delay, rounds, n - 1);
    }
  }

  /** The sum of the first n values. */
  function Total(f: nat -> nat, n: nat): nat {
    if n == 0 then 0 else Total(f, n - 1) + f(n - 1)
  }

  /** An attempt starts after all earlier attempts, a second of sleep after each, and what every sleep took longer. */
  lemma {:induction false} StartExactly(delay: nat, rounds: nat -> Round, n: nat)
    ensures StartOf(delay, rounds, n) ==
      delay + Total(i => rounds(i).duration, n) + n * 1_000_000_000 + Total(i => rounds(i).oversleep, n)
  {
    if n > 0 {
      StartExactly(delay, rounds, n - 1);
      assert n * 1_000_000_000 == (n - 1) * 1_000_000_000 + 1_000_000_000;
    }
  }

  /** The number of whole or started seconds in a timeout. */
  function CeilSeconds(timeout: nat): nat {
    (timeout + SECOND - 1) / SECOND
  }

  lemma AttemptsFit(n: nat, timeout: nat)
    requires n * SECOND < timeout
    ensures n + 1 <= CeilSeconds(timeout)
  {
    assert (n + 1) * SECOND <= timeout + SECOND - 1 < (CeilSeconds(timeout) + 1) * SECOND;
  }

  /** The n-th attempt is started in time and its result makes the loop go on. */
  predicate Retried(delay: nat, rounds: nat -> Round, timeout: nat, n: nat) {
    StartOf(delay, rounds, n) < timeout && Retries(rounds(n).attempt)
  }

  ghost predicate AllRetried(delay: nat, rounds: nat -> Round, timeout: nat, n: nat) {
    forall i: nat :: i < n ==> Retried(delay, rounds, timeout, i)
  }

  /** The one answer after n attempts: the timeout, reached and not before; or the last attempt's own result, started
      in time, where that is a connection or an error that is not retried. */
  ghost predicate Outcome(delay: nat, rounds: nat -> Round, timeout: nat, n: nat, answer: Answer) {
    if answer == Timeout then AllRetried(delay, rounds, timeout, n) && StartOf(delay, rounds, n) >= timeout
    else
      && n > 0 && AllRetried(delay, rounds, timeout, n - 1) && StartOf(delay, rounds, n - 1) < timeout
      && !Retries(rounds(n - 1).attempt) && answer == AnswerOf(rounds(n - 1).attempt)
  }

  /** The answer is the truth about the attempts: a connection is the one that the last attempt made, a failure is that
      attempt's own error and is not status 400, and every earlier attempt ended with status 400. */
  ghost predicate Truthful(rounds: nat -> Round, n: nat, answer: Answer) {
    && (forall i: nat :: i + 1 < n ==> rounds(i).attempt == Refused(400))
    && match answer
       case Connection(c) => n > 0 && rounds(n - 1).attempt == Connected(c)
       case Failure(a) => n > 0 && rounds(n - 1).attempt == a && !a.Connected? && a != Refused(400)
       case Timeout => n > 0 ==> rounds(n - 1).attempt == Refused(400)
  }

  lemma OutcomeTruthful(delay: nat, rounds: nat -> Round, timeout: nat, n: nat, answer: Answer)
    requires Outcome(delay, rounds, timeout, n, answer)
    ensures Truthful(rounds, n, answer)
    ensures n > 0 ==> (n - 1) * 1_000_000_000 < timeout
  {
    forall i: nat | i + 1 < n
      ensures rounds(i).attempt == Refused(400)
    {
      assert Retried(delay, rounds, timeout, i);
    }
    if n > 0 {
      assert answer == Timeout <==> Retried(delay, rounds, timeout, n - 1);
      StartAtLeast(delay, rounds, n - 1);
    }
  }

  /** The bound is met: when every attempt is refused at once with status 400 and no sleep is longer than it must be,
      an attempt starts in every second of the timeout. */
  lemma BoundIsMet(rounds: nat -> Round, timeout: nat, n: nat, answer: Answer)
    requires timeout > 0 && Outcome(0, rounds, timeout, n, answer)
    requires forall i: nat :: rounds(i) == Round(0, Refused(400), 0)
    ensures answer == Timeout && (n - 1) * 1_000_000_000 < timeout <= n * 1_000_000_000
  {
    OutcomeTruthful(0, rounds, timeout, n, answer);
    StartExactly(0, rounds, n);
    NothingTotal(i => rounds(i).duration, n);
    NothingTotal(i => rounds(i).oversleep, n);
  }

  lemma {:induction false} NothingTotal(f: nat -> nat, n: nat)
    requires forall i: nat :: f(i) == 0
    ensures Total(f, n) == 0
  {
    if n > 0 {
      NothingTotal(f, n - 1);
    }
  }

  /** No more attempts are made than seconds fit into the timeout. */
  lemma AttemptBound(delay: nat, rounds: nat -> Round, timeout: nat, n: nat, answer: Answer)
    requires Outcome(delay, rounds, timeout, n, answer)
    ensures n <= CeilSeconds(timeout)
  {
    if n > 0 {
      assert answer == Timeout <==> Retried(delay, rounds, timeout, n - 1);
      StartAtLeast(delay, rounds, n - 1);
      AttemptsFit(n - 1, timeout);
    }
  }

  /** What happens outside decides both the answer and the number of attempts. */
  lemma OutcomeUnique(delay: nat, rounds: nat -> Round, timeout: nat, n: nat, a: Answer, m: nat, b: Answer)
    requires Outcome(delay, rounds, timeout, n, a) && Outcome(delay, rounds, timeout, m, b)
    ensures n == m && a == b
  {
    if n < m {
      OutcomeOrder(delay, rounds, timeout, n, a, m, b);
    } else if m < n {
      OutcomeOrder(delay, rounds, timeout, m, b, n, a);
    } else if n > 0 {
      assert a == Timeout <==> Retried(delay, rounds, timeout, n - 1);
      assert b == Timeout <==> Retried(delay, rounds, timeout, n - 1);
    }
  }

  lemma OutcomeOrder(delay: nat, rounds: nat -> Round, timeout: nat, n: nat, a: Answer, m: nat, b: Answer)
    requires Outcome(delay, rounds, timeout, n, a) && Outcome(delay, rounds, timeout, m, b)
    ensures n >= m
  {
    var last: nat := if a == Timeout then n else n - 1;
    assert !Retried(delay, rounds, timeout, last);
  }

  /** The goroutine: exactly one answer is sent, and it is the outcome. */
  method RetryLoop(delay: nat, rounds: nat -> Round, timeout: nat, channel: ConnectionChannel)
    returns (attempts: nat)
    requires timeout > 0
    modifies channel
    ensures |channel.sent| == |old(channel.sent)| + 1 && channel.sent[..|old(channel.sent)|] == old(channel.sent)
    ensures Outcome(delay, rounds, timeout, attempts, channel.sent[|old(channel.sent)|])
    ensures Truthful(rounds, attempts, channel.sent[|old(channel.sent)|])
  {
    attempts := 0;
    var now := delay;
    while true
      invariant channel.sent == old(channel.sent)
      invariant now == StartOf(delay, rounds, attempts) && AllRetried(delay, rounds, timeout, attempts)
      decreases timeout - now
    {
      if now >= timeout {
        channel.Send(Timeout);
        OutcomeTruthful(delay, rounds, timeout, attempts, Timeout);
        return;
      }
      var round := rounds(attempts);
      attempts := attempts + 1;
      if !round.attempt.Connected? {
        if round.attempt != Refused(BAD_REQUEST) {
          channel.Send(Failure(round.attempt));
          OutcomeTruthful(delay, rounds, timeout, attempts, Failure(round.attempt));
          return;
        }
        now := now + round.duration + SECOND + round.oversleep;
        continue;
      }
      channel.Send(Connection(round.attempt.connection));
      OutcomeTruthful(delay, rounds, timeout, attempts, Connection(round.attempt.connection));
      return;
    }
  }

  /** Attach: without options or with a zero timeout there is one attempt and its result; otherwise the answer that
      the retry loop sends. */
  method Attach(delay: nat, rounds: nat -> Round, timeout: Option<nat>) returns (answer: Answer, attempts: nat)
    ensures answer.Connection? ==> attempts > 0 && rounds(attempts - 1).attempt == Connected(answer.connection)
    ensures answer.Failure? ==>
      attempts > 0 && rounds(attempts - 1).attempt == answer.attempt && !answer.attempt.Connected?
    ensures timeout.None? || timeout.value == 0 ==> attempts == 1 && answer != Timeout
    ensures timeout.Some? && timeout.value > 0 ==>
      && Outcome(delay, rounds, timeout.value, attempts, answer) && attempts <= CeilSeconds(timeout.value)
      && Truthful(rounds, attempts, answer)
  {
    if timeout.None? || timeout.value == 0 {
      return AnswerOf(rounds(0).attempt), 1;
    }
    var channel := new ConnectionChannel();
    attempts := RetryLoop(delay, rounds, timeout.value, channel);
    answer := channel.sent[0];
    AttemptBound(delay, rounds, timeout.value, attempts, answer);
    OutcomeTruthful(delay, rounds, timeout.value, attempts, answer);
  }
}
