/** The back-off after the exchange has refused requests. Times are in nanoseconds. */
module Throttle {
  const DEFAULT_BACKOFF := 5_000_000_000
  const BLOCKED_BACKOFF := 600_000_000_000

  const FORBIDDEN := 403
  const TOO_MANY_REQUESTS := 429

  /** The end of a message: its status, and the clock when it is handled. */
  datatype Ended = Ended(status: int, now: int)

  function Max(a: int, b: int): int {
    if a < b then b else a
  }

  function Next(enabled: bool, suspendUntil: int, e: Ended): int {
    if !enabled then suspendUntil
    else if e.status == FORBIDDEN then Max(suspendUntil, e.now + BLOCKED_BACKOFF)
    else if e.status == TOO_MANY_REQUESTS && suspendUntil == 0 then e.now + DEFAULT_BACKOFF
    else suspendUntil
  }

  class RequestThrottle {
    const enabled: bool
    var suspendUntil: int

    constructor (enabled: bool)
      ensures this.enabled == enabled && suspendUntil == 0
    {
      this.enabled := enabled;
      suspendUntil := 0;
    }

    method MessageEnd(status: int, now: int)
      modifies this
      ensures suspendUntil == Next(enabled, old(suspendUntil), Ended(status, now))
    {
      if !enabled {
        return;
      }
      if status == FORBIDDEN {
        suspendUntil := Max(suspendUntil, now + BLOCKED_BACKOFF);
      } else if status == TOO_MANY_REQUESTS {
        if suspendUntil == 0 {
          suspendUntil := now + DEFAULT_BACKOFF;
        }
      }
    }
  }

  function Run(enabled: bool, history: seq<Ended>): int {
    if history == [] then 0 else Next(enabled, Run(enabled, history[..|history| - 1]), history[|history| - 1])
  }

  // --- in closed form

  predicate Refused(e: Ended) {
    e.status == 403 || e.status == 429
  }

  /** The index of the first refusal, or the length if there is none. */
  function FirstRefusal(history: seq<Ended>): (i: nat)
    ensures i <= |history| && (i < |history| ==> Refused(history[i]))
    ensures forall k :: 0 <= k < i ==> !Refused(history[k])
  {
    if history == [] then 0
    else
      var i := FirstRefusal(history[..|history| - 1]);
      if i < |history| - 1 || Refused(history[|history| - 1]) then i else i + 1
  }

  /** The candidates for the end of the suspension: ten minutes after each 403, and five seconds after the
      very first refusal if that is a 429. */
  ghost predicate Candidate(history: seq<Ended>, i: nat, until: int) {
    i < |history| && (
      || (history[i].status == 403 && until == history[i].now + 600_000_000_000)
      || (history[i].status == 429 && i == FirstRefusal(history) && until == history[i].now + 5_000_000_000))
  }

  ghost predicate IsLatest(history: seq<Ended>, until: int) {
    && (forall i, t :: Candidate(history, i, t) ==> t <= until)
    && (if FirstRefusal(history) == |history| then until == 0 else exists i :: Candidate(history, i, until))
  }

  predicate ClockValid(history: seq<Ended>) {
    forall e :: e in history ==> e.now >= 0
  }

  lemma CandidateAppend(history: seq<Ended>, e: Ended, i: nat, t: int)
    ensures Candidate(history + [e], i, t) <==>
              || Candidate(history, i, t)
              || (i == |history| && e.status == 403 && t == e.now + 600_000_000_000)
              || (i == |history| == FirstRefusal(history) && e.status == 429 && t == e.now + 5_000_000_000)
  {
    assert (history + [e])[..|history|] == history;
  }

  /** After any history of responses, an enabled throttle is suspended until the latest of the
      candidates, or not at all if nothing was refused. A 429 counts only if it is the first refusal. */
  lemma {:induction false} ClosedForm(history: seq<Ended>)
    requires ClockValid(history)
    ensures IsLatest(history, Run(true, history))
    ensures FirstRefusal(history) < |history| ==> Run(true, history) > 0
  {
    if history != [] {
      var front, e := history[..|history| - 1], history[|history| - 1];
      assert history == front + [e] && e in history;
      assert forall f :: f in front ==> f in history;
      ClosedForm(front);
      var before, after := Run(true, front), Run(true, history);
      forall i, t
        ensures Candidate(history, i, t) <==>
                  || Candidate(front, i, t)
                  || (i == |front| && e.status == 403 && t == e.now + 600_000_000_000)
                  || (i == |front| == FirstRefusal(front) && e.status == 429 && t == e.now + 5_000_000_000)
      {
        CandidateAppend(front, e, i, t);
      }
      if FirstRefusal(history) < |history| {
        if after == before {
          assert FirstRefusal(front) < |front|;
          var i :| Candidate(front, i, before);
          assert Candidate(history, i, after);
        } else {
          assert Candidate(history, |front|, after);
        }
      }
    }
  }

  /** The suspension is never shortened; in particular a 429 does not shorten that of a 403. A throttle that
      is switched off never suspends anything. */
  lemma {:induction false} NeverShortened(enabled: bool, history: seq<Ended>, k: nat)
    requires ClockValid(history) && k <= |history|
    ensures Run(enabled, history[..k]) <= Run(enabled, history)
    ensures Run(enabled, history) >= 0 && (!enabled ==> Run(enabled, history) == 0)
  {
    if k < |history| {
      var front := history[..|history| - 1];
      assert history[|history| - 1] in history;
      assert forall e :: e in front ==> e in history;
      assert front[..k] == history[..k];
      NeverShortened(enabled, front, k);
    } else {
      assert history[..k] == history;
      if history != [] {
        NeverShortened(enabled, history, |history| - 1);
      }
    }
  }

  /** A 429 has an effect exactly if it is the first refusal; later ones are ignored, even if the
      suspension has long ended. */
  lemma {:induction false} OnlyFirst429(history: seq<Ended>, now: int)
    requires ClockValid(history) && now >= 0
    ensures Next(true, Run(true, history), Ended(429, now)) != Run(true, history) <==> FirstRefusal(history) == |history|
  {
    ClosedForm(history);
  }
}
