/**
 * `BrowserContext.navigate` and `BrowserContext.get_page_source`: loading a
 * page with one retry at twice the timeout, waiting out a Cloudflare
 * challenge, and reading the page source with up to three attempts.
 *
 * Each `browser.get` and each read of the page source is an oracle
 * indexed by its attempt; the wait for network idle never raises and is
 * left out.
 */
module BrowserContexts {
  import opened Wrappers
  import opened Cloudflare

  /** The outcome of `browser.get(url)` under a page-load timeout. */
  datatype Load = Loaded | LoadTimedOut | LoadFailed(message: string)

  const BypassFailedMessage := "Unable to bypass Cloudflare challenge"
  const TimeoutMessage := "TimeoutException"

  /** The outcome of `navigate`, and the page-load timeouts set, one per `browser.get`. */
  datatype Navigation = Navigation(result: Result<(), string>, timeouts: seq<int>)

  /**
   * `navigate(url, timeout)`: `load(n, t)` is the outcome of the `n`-th
   * `browser.get` under timeout `t`; `afterLoad` is the page the first load
   * shows; `challenged`, `clock` and `start` drive the wait for the challenge.
   * A first load that times out is retried once at twice the timeout,
   * without looking for a challenge again.
   */
  function Navigate(timeout: int, load: (nat, int) -> Load, afterLoad: Snapshot,
                    challenged: nat -> bool, clock: nat -> int, start: int): Navigation
    requires Ticking(clock)
  {
    match load(0, timeout)
    case LoadFailed(m) => Navigation(Err(m), [timeout])
    case LoadTimedOut =>
      var retried :=
        match load(1, timeout * 2)
        case Loaded => Ok(())
        case LoadTimedOut => Err(TimeoutMessage)
        case LoadFailed(m) => Err(m);
      Navigation(retried, [timeout, timeout * 2])
    case Loaded =>
      if IsCloudflareChallenge(afterLoad) && !Waiting(challenged, clock, start, timeout, 0, 0).solved then
        Navigation(Err(BypassFailedMessage), [timeout])
      else Navigation(Ok(()), [timeout])
  }

  /**
   * At most two loads, the second only after the first timed out and at
   * twice the timeout; navigation raises when the challenge is not cleared
   * in time, and succeeds past a challenge only after a poll within the
   * timeout found the page clean.
   */
  lemma NavigateSound(timeout: int, load: (nat, int) -> Load, afterLoad: Snapshot,
                      challenged: nat -> bool, clock: nat -> int, start: int)
    requires Ticking(clock)
    ensures var r := Navigate(timeout, load, afterLoad, challenged, clock, start);
            && 1 <= |r.timeouts| <= 2 && r.timeouts[0] == timeout
            && (|r.timeouts| == 2 <==> load(0, timeout).LoadTimedOut?)
            && (|r.timeouts| == 2 ==> r.timeouts[1] == 2 * timeout && (r.result.Ok? <==> load(1, 2 * timeout).Loaded?))
            && (load(0, timeout).Loaded? && IsCloudflareChallenge(afterLoad) ==>
                  (r.result.Err? <==> !Waiting(challenged, clock, start, timeout, 0, 0).solved)
                  && (r.result.Err? ==> r.result.error == BypassFailedMessage)
                  && (r.result.Ok? ==> exists j :: !challenged(j) && clock(j) - start < timeout))
            && (load(0, timeout).Loaded? && !IsCloudflareChallenge(afterLoad) ==> r.result.Ok?)
  {
    WaitingSound(challenged, clock, start, timeout, 0, 0);
    var w := Waiting(challenged, clock, start, timeout, 0, 0);
    if w.solved {
      assert !challenged(w.polls - 1) && clock(w.polls - 1) - start < timeout;
    }
  }

  /** One read of `browser.page_source`. */
  datatype SourceRead = Source(text: string) | Stale | ReadFailed(message: string)

  const NoSourceMessage := "Unable to retrieve page source after retries"

  /**
   * `get_page_source`: up to three tries; a stale read is followed by a
   * pause and another read, any other exception propagates.
   */
  method GetPageSource(read: nat -> SourceRead) returns (r: Result<string, string>, tries: nat, pauses: nat)
    ensures 1 <= tries <= 3
    ensures forall a :: 0 <= a < tries - 1 ==> read(a).Stale?
    ensures read(tries - 1).Source? ==> r == Ok(read(tries - 1).text)
    ensures read(tries - 1).ReadFailed? ==> r == Err(read(tries - 1).message)
    ensures read(tries - 1).Stale? ==> tries == 3 && r == Err(NoSourceMessage)
    ensures pauses == if read(tries - 1).Stale? then tries else tries - 1
  {
    pauses := 0;
    var attempt := 0;
    while attempt < 3
      invariant 0 <= attempt <= 3
      invariant forall a :: 0 <= a < attempt ==> read(a).Stale?
      invariant pauses == attempt
    {
      var got := read(attempt);
      if got.Source? {
        return Ok(got.text), attempt + 1, pauses;
      }
      if got.ReadFailed? {
        return Err(got.message), attempt + 1, pauses;
      }
      pauses := pauses + 1;
      attempt := attempt + 1;
    }
    return Err(NoSourceMessage), 3, pauses;
  }
}
