/**
 * Cloudflare interstitial handling: detection over a snapshot of the page
 * (`CloudflareHandler.is_cloudflare_challenge`) and the bounded wait that
 * polls the detection and tries to solve the challenge at most three times
 * (`wait_for_challenge_completion`).
 *
 * The browser probes are the snapshot's parts; the clock is a function
 * from the poll number to the time it reads; the checkbox clicks of
 * `solve_challenge` are only counted.
 */
module Cloudflare {
  import opened Wrappers
  import opened Strings

  const ChallengeSelectors: seq<string> := [
    "#challenge-form",
    "#challenge-running",
    "div[class*='cf-browser-verification']",
    "#cf-challenge-running"]

  const SourceIndicators: seq<string> := [
    "cloudflare",
    "ray id:",
    "please wait while we verify",
    "please enable cookies",
    "please complete the security check"]

  /**
   * What the detection sees of the page: the title (None when reading it
   * raises), whether `find_element` finds a selector (a lookup that raises
   * counts as not found, as the source skips it), and the page source
   * (None when reading it raises).
   */
  datatype Snapshot = Snapshot(title: Option<string>, present: string -> bool, source: Option<string>)

  /** The title names a challenge. */
  predicate TitleFlags(title: string) {
    Contains(Lower(title), "just a moment") || Contains(Lower(title), "attention required")
  }

  /** `for selector in selectors: if find_element(selector): return True`. */
  function AnyPresent(sels: seq<string>, present: string -> bool): bool {
    if sels == [] then false else AnyPresent(sels[..|sels| - 1], present) || present(sels[|sels| - 1])
  }

  /** `any(ind in src for ind in indicators)`. */
  function AnyIndicator(src: string, inds: seq<string>): bool {
    if inds == [] then false else AnyIndicator(src, inds[..|inds| - 1]) || Contains(src, inds[|inds| - 1])
  }

  /** `is_cloudflare_challenge`: any probe that raises makes the answer False. */
  function IsCloudflareChallenge(s: Snapshot): bool {
    if s.title.None? then false
    else if TitleFlags(s.title.value) then true
    else if AnyPresent(ChallengeSelectors, s.present) then true
    else s.source.Some? && AnyIndicator(Lower(s.source.value), SourceIndicators)
  }

  lemma {:induction false} AnyPresentIff(sels: seq<string>, present: string -> bool)
    ensures AnyPresent(sels, present) <==> exists i :: 0 <= i < |sels| && present(sels[i])
  {
    if sels != [] {
      var init := sels[..|sels| - 1];
      AnyPresentIff(init, present);
      if exists i :: 0 <= i < |sels| && present(sels[i]) {
        var i :| 0 <= i < |sels| && present(sels[i]);
        if i < |sels| - 1 {
          assert init[i] == sels[i];
        }
      }
    }
  }

  lemma {:induction false} AnyIndicatorIff(src: string, inds: seq<string>)
    ensures AnyIndicator(src, inds) <==> exists i :: 0 <= i < |inds| && Contains(src, inds[i])
  {
    if inds != [] {
      var init := inds[..|inds| - 1];
      AnyIndicatorIff(src, init);
      if exists i :: 0 <= i < |inds| && Contains(src, inds[i]) {
        var i :| 0 <= i < |inds| && Contains(src, inds[i]);
        if i < |inds| - 1 {
          assert init[i] == inds[i];
        }
      }
    }
  }

  /**
   * A page is a challenge exactly when its title can be read and the
   * lowercased title names one, or one of the four challenge selectors is
   * present, or the lowercased source can be read and holds one of the five
   * indicators.
   */
  lemma IsCloudflareChallengeIff(s: Snapshot)
    ensures IsCloudflareChallenge(s) <==>
              s.title.Some? &&
              (|| TitleFlags(s.title.value)
               || (exists i :: 0 <= i < |ChallengeSelectors| && s.present(ChallengeSelectors[i]))
               || (s.source.Some? && exists i :: 0 <= i < |SourceIndicators| && Contains(Lower(s.source.value), SourceIndicators[i])))
  {
    AnyPresentIff(ChallengeSelectors, s.present);
    if s.source.Some? {
      AnyIndicatorIff(Lower(s.source.value), SourceIndicators);
    }
  }

  /** The wait's outcome: whether the challenge cleared, the solve attempts made, the polls done. */
  datatype WaitResult = WaitResult(solved: bool, attempts: nat, polls: nat)

  const MaxSolveAttempts := 3

  /** `n` solve attempts, capped at three. */
  function Capped(n: int): int {
    if n < MaxSolveAttempts then n else MaxSolveAttempts
  }

  /** Each poll ends with `asyncio.sleep(2)`, so the clock advances by at least two seconds a poll. */
  ghost predicate Ticking(clock: nat -> int) {
    forall k: nat :: clock(k) + 2 <= clock(k + 1)
  }

  /**
   * The wait from poll `k` on, with `attempts` solves made: while the clock
   * reads less than `timeout` seconds since `start`, a clean detection ends
   * the wait; otherwise a solve is attempted if fewer than three were.
   * `challenged(k)` is the detection at poll `k`.
   */
  function Waiting(challenged: nat -> bool, clock: nat -> int, start: int, timeout: int, k: nat, attempts: nat): (r: WaitResult)
    requires Ticking(clock)
    ensures r.polls >= k
    decreases start + timeout - clock(k)
  {
    if clock(k) - start >= timeout then WaitResult(false, attempts, k)
    else if !challenged(k) then WaitResult(true, attempts, k + 1)
    else Waiting(challenged, clock, start, timeout, k + 1, if attempts < MaxSolveAttempts then attempts + 1 else attempts)
  }

  /**
   * One solve is attempted per poll that shows the challenge, and at most
   * three in all; the wait succeeds exactly at the
   * first clean detection within the timeout, and fails with every poll
   * made before the timeout showing the challenge.
   */
  lemma {:induction false} WaitingSound(challenged: nat -> bool, clock: nat -> int, start: int, timeout: int, k: nat, attempts: nat)
    requires Ticking(clock)
    requires attempts <= MaxSolveAttempts
    ensures var r := Waiting(challenged, clock, start, timeout, k, attempts);
            && attempts <= r.attempts <= MaxSolveAttempts
            && r.attempts == Capped(attempts + r.polls - k - (if r.solved then 1 else 0))
            && (forall j :: k <= j < r.polls - 1 ==> challenged(j) && clock(j) - start < timeout)
            && (r.solved ==> r.polls > k && !challenged(r.polls - 1) && clock(r.polls - 1) - start < timeout)
            && (!r.solved ==> clock(r.polls) - start >= timeout && (r.polls > k ==> challenged(r.polls - 1)))
    decreases start + timeout - clock(k)
  {
    if clock(k) - start < timeout && challenged(k) {
      WaitingSound(challenged, clock, start, timeout, k + 1, if attempts < MaxSolveAttempts then attempts + 1 else attempts);
    }
  }

  /** `wait_for_challenge_completion(browser, timeout)`, with the poll loop. */
  method WaitForChallengeCompletion(challenged: nat -> bool, clock: nat -> int, start: int, timeout: int)
    returns (r: WaitResult)
    requires Ticking(clock)
    ensures r == Waiting(challenged, clock, start, timeout, 0, 0)
  {
    var attempts := 0;
    var k := 0;
    while clock(k) - start < timeout
      invariant Waiting(challenged, clock, start, timeout, k, attempts) == Waiting(challenged, clock, start, timeout, 0, 0)
      decreases start + timeout - clock(k)
    {
      if !challenged(k) {
        return WaitResult(true, attempts, k + 1);
      }
      if attempts < MaxSolveAttempts {
        attempts := attempts + 1;
      }
      k := k + 1;
    }
    return WaitResult(false, attempts, k);
  }
}
