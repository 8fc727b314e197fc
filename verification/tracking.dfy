/**
 * One run of the Celery task track_price_drop (main.py). A run's whole state
 * is its arguments (url, email, initial_price) and Celery's retry counter for
 * the run; given what the price check returned, the run does exactly one of:
 * schedule a retry of itself, give up, schedule a fresh follow-up check, or
 * send the drop alert and stop.
 */
module Tracking {
  import opened Wrappers
  import opened Prices
  import opened Email

  /** max_retries of the task decorator. */
  const MaxRetries: nat := 5
  /** default_retry_delay of the task decorator, in seconds. */
  const DefaultRetryDelay: nat := 300
  /** countdown of the follow-up check, in seconds. */
  const RecheckDelay: nat := 1200

  /** The task's arguments and its Celery retry counter (request.retries). */
  datatype Task = Task(url: string, email: string, initialPrice: Option<Price>, retries: nat)

  /** What a run leaves behind. */
  datatype Action =
    | Retry(next: Task, countdown: nat)        // self.retry(exc=e) scheduled the same call again
    | GiveUp                                   // retries exhausted: logged, nothing scheduled
    | Reschedule(next: Task, countdown: nat)   // self.apply_async((url, email, initial_price), countdown=1200)
    | Notify(alert: Message)                   // send_email(...) and return

  /** The task /track enqueues: no baseline yet, no retries. */
  function NewTask(url: string, email: string): (t: Task)
    ensures t.url == url && t.email == email && t.initialPrice.None? && t.retries == 0
  {
    Task(url, email, None, 0)
  }

  predicate Continues(a: Action) {
    a.Retry? || a.Reschedule?
  }

  /** The price the run compares against: the one it was given, or, on the
      first successful check, the price just observed. */
  function Baseline(t: Task, current: Price): (b: Price)
    ensures t.initialPrice.Some? ==> b == t.initialPrice.value
    ensures t.initialPrice.None? ==> b == current
  {
    if t.initialPrice.Some? then t.initialPrice.value else current
  }

  /** One run of track_price_drop, given what check_price returned. */
  function Step(t: Task, probe: Option<Price>): (a: Action)
    // a failed check: retry while the counter allows, with the same arguments
    ensures a.Retry? <==> probe.None? && t.retries < MaxRetries
    ensures a.GiveUp? <==> probe.None? && t.retries >= MaxRetries
    ensures a.Retry? ==> a.next == t.(retries := t.retries + 1) && a.countdown == DefaultRetryDelay
    // a price: alert exactly when it is strictly below the baseline given to the run
    ensures a.Notify? <==> probe.Some? && t.initialPrice.Some? && probe.value < t.initialPrice.value
    ensures a.Notify? ==> a.alert == DropAlertTo(t.email, probe.value, t.url)
    ensures a.Reschedule? <==> probe.Some? && probe.value >= Baseline(t, probe.value)
    ensures a.Reschedule? ==>
      a.countdown == RecheckDelay && a.next == Task(t.url, t.email, Some(Baseline(t, probe.value)), 0)
  {
    match probe
    case None =>
      if t.retries < MaxRetries then Retry(t.(retries := t.retries + 1), DefaultRetryDelay) else GiveUp
    case Some(current) =>
      var initial := Baseline(t, current);
      if current < initial then Notify(DropAlertTo(t.email, current, t.url))
      else Reschedule(Task(t.url, t.email, Some(initial), 0), RecheckDelay)
  }

  /** The first successful check of a chain sets the baseline and never alerts. */
  lemma FirstSuccessSetsBaseline(t: Task, current: Price)
    requires t.initialPrice.None?
    ensures Step(t, Some(current)) == Reschedule(Task(t.url, t.email, Some(current), 0), RecheckDelay)
  {
  }

  /** The actions of one tracking chain: the runs that follow one another
      through retries and follow-up checks, given the successive check results.
      The chain ends at the first run that gives up or alerts, or when the
      results run out. */
  function Trace(t: Task, results: seq<Option<Price>>): (acts: seq<Action>)
    ensures |acts| <= |results|
    ensures forall k :: 0 <= k < |acts| - 1 ==> Continues(acts[k])
    ensures |acts| < |results| ==> acts != [] && !Continues(acts[|acts| - 1])
    ensures acts != [] ==> acts[0] == Step(t, results[0])
    decreases |results|
  {
    if results == [] then []
    else
      var a := Step(t, results[0]);
      if Continues(a) then [a] + Trace(a.next, results[1..]) else [a]
  }

  /** Within one chain at most one alert is sent, and nothing follows it. */
  lemma AtMostOneAlert(t: Task, results: seq<Option<Price>>)
    ensures var acts := Trace(t, results);
      forall k :: 0 <= k < |acts| && acts[k].Notify? ==> k == |acts| - 1
  {
  }

  /** The first element of s that holds a value, if any. */
  function FirstSome(s: seq<Option<Price>>): (f: Option<Price>)
    ensures f.Some? ==> exists k :: 0 <= k < |s| && s[k] == f && forall j :: 0 <= j < k ==> s[j].None?
    ensures f.None? ==> forall k :: 0 <= k < |s| ==> s[k].None?
  {
    if s == [] then None
    else if s[0].Some? then s[0]
    else
      var f := FirstSome(s[1..]);
      assert forall k :: 1 <= k < |s| ==> s[k] == s[1..][k - 1];
      f
  }

  /** The baseline a chain carries after the results seen so far: the one it
      started with, else the first price it observed. */
  function CarriedBaseline(start: Option<Price>, seen: seq<Option<Price>>): Option<Price> {
    if start.Some? then start else FirstSome(seen)
  }

  /** Along a chain the baseline is set once, by the first successful check,
      and never changes after that; an alert fires only for a price strictly
      below it. */
  lemma {:induction false} BaselineSetOnce(t: Task, results: seq<Option<Price>>)
    ensures var acts := Trace(t, results);
      forall k :: 0 <= k < |acts| && Continues(acts[k]) ==>
        acts[k].next.initialPrice == CarriedBaseline(t.initialPrice, results[..k + 1])
    ensures var acts := Trace(t, results);
      forall k :: 0 <= k < |acts| && acts[k].Notify? ==>
        var b := CarriedBaseline(t.initialPrice, results[..k]);
        b.Some? && results[k].Some? && results[k].value < b.value
        && acts[k].alert == DropAlertTo(t.email, results[k].value, t.url)
    decreases |results|
  {
    if results != [] {
      var acts := Trace(t, results);
      var a := Step(t, results[0]);
      if Continues(a) {
        var rest := results[1..];
        BaselineSetOnce(a.next, rest);
        var tail := Trace(a.next, rest);
        assert acts == [a] + tail;
        assert a.next.initialPrice == CarriedBaseline(t.initialPrice, results[..1]);
        forall k | 0 <= k < |acts| && Continues(acts[k])
          ensures acts[k].next.initialPrice == CarriedBaseline(t.initialPrice, results[..k + 1])
        {
          if k > 0 {
            assert acts[k] == tail[k - 1];
            CarriedBaselineShift(t.initialPrice, results, k + 1);
          }
        }
        forall k | 0 <= k < |acts| && acts[k].Notify?
          ensures var b := CarriedBaseline(t.initialPrice, results[..k]);
            b.Some? && results[k].Some? && results[k].value < b.value
            && acts[k].alert == DropAlertTo(t.email, results[k].value, t.url)
        {
          assert k > 0 && acts[k] == tail[k - 1] && results[k] == rest[k - 1];
          CarriedBaselineShift(t.initialPrice, results, k);
        }
      }
    }
  }

  /** After the first result, the carried baseline of the rest of the results,
      started from the baseline the first run passed on, is the carried
      baseline of the whole prefix. */
  lemma CarriedBaselineShift(start: Option<Price>, results: seq<Option<Price>>, k: nat)
    requires 1 <= k <= |results|
    ensures CarriedBaseline(CarriedBaseline(start, results[..1]), results[1..][..k - 1]) == CarriedBaseline(start, results[..k])
  {
    assert results[..k][0] == results[0];
    assert results[..k][1..] == results[1..][..k - 1];
  }

  /** Celery's retry counter after the results seen so far: each failed check
      adds one, each successful one starts a fresh task whose counter is 0. */
  function RetryCounter(start: nat, seen: seq<Option<Price>>): nat
    decreases |seen|
  {
    if seen == [] then start
    else RetryCounter(if seen[0].None? then start + 1 else 0, seen[1..])
  }

  /** The retry counter a chain passes on counts the failed checks since its
      last successful one, and a chain gives up only on a failed check made
      when that count has reached max_retries. */
  lemma RetriesCountFailures(t: Task, results: seq<Option<Price>>)
    ensures var acts := Trace(t, results);
      forall k :: 0 <= k < |acts| && Continues(acts[k]) ==>
        acts[k].next.retries == RetryCounter(t.retries, results[..k + 1])
    ensures var acts := Trace(t, results);
      forall k :: 0 <= k < |acts| && acts[k].GiveUp? ==>
        results[k].None? && RetryCounter(t.retries, results[..k]) >= MaxRetries
  {
    var acts := Trace(t, results);
    forall k | 0 <= k < |acts| && Continues(acts[k])
      ensures acts[k].next.retries == RetryCounter(t.retries, results[..k + 1])
    {
      RetriesAt(t, results, k);
    }
    forall k | 0 <= k < |acts| && acts[k].GiveUp?
      ensures results[k].None? && RetryCounter(t.retries, results[..k]) >= MaxRetries
    {
      RetriesAt(t, results, k);
    }
  }

  /** The k-th run of a chain, by induction on k. */
  lemma {:induction false} RetriesAt(t: Task, results: seq<Option<Price>>, k: nat)
    requires k < |Trace(t, results)|
    ensures var a := Trace(t, results)[k];
      && (Continues(a) ==> a.next.retries == RetryCounter(t.retries, results[..k + 1]))
      && (a.GiveUp? ==> results[k].None? && RetryCounter(t.retries, results[..k]) >= MaxRetries)
    decreases k
  {
    var a := Step(t, results[0]);
    if k == 0 {
      assert results[..1][1..] == [];
    } else {
      assert Continues(a);
      var rest := results[1..];
      assert Trace(t, results)[k] == Trace(a.next, rest)[k - 1];
      RetriesAt(a.next, rest, k - 1);
      RetryCounterShift(t.retries, results, k);
      RetryCounterShift(t.retries, results, k + 1);
    }
  }

  /** The counter after a prefix is the counter the first run passes on,
      carried over the rest of that prefix. */
  lemma RetryCounterShift(start: nat, results: seq<Option<Price>>, k: nat)
    requires 1 <= k <= |results|
    ensures RetryCounter(start, results[..k])
         == RetryCounter(if results[0].None? then start + 1 else 0, results[1..][..k - 1])
  {
    assert results[..k][0] == results[0];
    assert results[..k][1..] == results[1..][..k - 1];
  }

  /** n consecutive failed checks. */
  function Failures(n: nat): (r: seq<Option<Price>>)
    ensures |r| == n && forall k :: 0 <= k < n ==> r[k].None?
  {
    if n == 0 then [] else [None] + Failures(n - 1)
  }

  /** A run of failed checks is bounded: a task whose counter is c retries
      max_retries - c times, each time with the counter one higher, and the
      next failure gives up. No alert is sent and no baseline appears. */
  lemma FailureRunBounded(t: Task, n: nat)
    requires t.retries <= MaxRetries
    ensures var acts := Trace(t, Failures(n)); var budget := MaxRetries - t.retries;
      && |acts| == (if n <= budget then n else budget + 1)
      && forall k :: 0 <= k < |acts| ==>
        if k < budget then acts[k] == Retry(t.(retries := t.retries + k + 1), DefaultRetryDelay)
        else acts[k] == GiveUp
  {
    FailureRunLength(t, n);
    var acts := Trace(t, Failures(n));
    forall k | 0 <= k < |acts|
      ensures if k < MaxRetries - t.retries then acts[k] == Retry(t.(retries := t.retries + k + 1), DefaultRetryDelay)
              else acts[k] == GiveUp
    {
      FailureAt(t, n, k);
    }
  }

  /** The number of runs in a run of failures. */
  lemma {:induction false} FailureRunLength(t: Task, n: nat)
    requires t.retries <= MaxRetries
    ensures |Trace(t, Failures(n))| == if n <= MaxRetries - t.retries then n else MaxRetries - t.retries + 1
    decreases n
  {
    if n > 0 {
      assert Failures(n)[0].None? && Failures(n)[1..] == Failures(n - 1);
      if t.retries < MaxRetries {
        FailureRunLength(t.(retries := t.retries + 1), n - 1);
      }
    }
  }

  /** The k-th run in a run of failures, by induction on k. */
  lemma {:induction false} FailureAt(t: Task, n: nat, k: nat)
    requires t.retries <= MaxRetries && k < |Trace(t, Failures(n))|
    ensures var a := Trace(t, Failures(n))[k];
      if k < MaxRetries - t.retries then a == Retry(t.(retries := t.retries + k + 1), DefaultRetryDelay)
      else a == GiveUp
    decreases k
  {
    assert Failures(n)[0].None? && Failures(n)[1..] == Failures(n - 1);
    if k > 0 {
      var next := t.(retries := t.retries + 1);
      assert Continues(Step(t, None));
      assert Step(t, None) == Retry(next, DefaultRetryDelay);
      assert Trace(t, Failures(n))[k] == Trace(next, Failures(n - 1))[k - 1];
      FailureAt(next, n - 1, k - 1);
    }
  }

  /** A fresh task whose page never yields a price is run six times (the first
      attempt and five retries) and then dropped. */
  lemma FreshChainGivesUpAfterSixFailures(url: string, email: string)
    ensures var acts := Trace(NewTask(url, email), Failures(6));
      |acts| == 6 && acts[5] == GiveUp && forall k :: 0 <= k < 5 ==> acts[k].Retry?
  {
    FailureRunBounded(NewTask(url, email), 6);
  }
}
