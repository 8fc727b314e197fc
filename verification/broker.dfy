/**
 * The service as a whole: the Celery queue of pending track_price_drop
 * messages, the mail handed to SMTP, and the module-level selector table,
 * changed in place by the /track and /reload-selectors handlers and by each
 * task run (main.py).
 */
module Broker {
  import opened Wrappers
  import opened Prices
  import opened Probe
  import opened Email
  import opened Tracking
  import opened Routing
  import Domain

  /** A task message in the queue. `root` is Celery's root_id: the id of the task
      /track enqueued, shared by every retry and follow-up descended from it.
      `countdown` is the delay, in seconds, it was scheduled with. */
  datatype Job = Job(root: nat, task: Task, countdown: nat)

  /** The message a run leaves in the queue, if any. */
  function FollowUp(root: nat, a: Action): (jobs: seq<Job>)
    ensures |jobs| <= 1
    ensures jobs != [] <==> Continues(a)
  {
    if Continues(a) then [Job(root, a.next, a.countdown)] else []
  }

  /** The mail a run sends, if any. */
  function Mailed(a: Action): (ms: seq<Message>)
    ensures |ms| <= 1
    ensures ms != [] <==> a.Notify?
  {
    if a.Notify? then [a.alert] else []
  }

  /** The mail a sequence of runs sends, in order. */
  function AlertsOf(acts: seq<Action>): (ms: seq<Message>)
    ensures |ms| <= |acts|
  {
    if acts == [] then []
    else AlertsOf(acts[..|acts| - 1]) + Mailed(acts[|acts| - 1])
  }

  /** Runs send mail exactly when one of them alerts. */
  lemma {:induction false} AlertsOfEmpty(acts: seq<Action>)
    ensures AlertsOf(acts) == [] <==> forall k :: 0 <= k < |acts| ==> !acts[k].Notify?
  {
    if acts != [] {
      var init := acts[..|acts| - 1];
      AlertsOfEmpty(init);
      assert forall k :: 0 <= k < |init| ==> init[k] == acts[k];
    }
  }

  /** The messages a sequence of runs leaves in the queue, in order; ran[k] is
      the message whose run was acts[k]. */
  function FollowUps(ran: seq<Job>, acts: seq<Action>): (jobs: seq<Job>)
    requires |ran| == |acts|
    ensures |jobs| <= |acts|
  {
    if acts == [] then []
    else FollowUps(ran[..|ran| - 1], acts[..|acts| - 1]) + FollowUp(ran[|ran| - 1].root, acts[|acts| - 1])
  }

  /** Runs queue something exactly when one of them continues its chain. */
  lemma {:induction false} FollowUpsEmpty(ran: seq<Job>, acts: seq<Action>)
    requires |ran| == |acts|
    ensures FollowUps(ran, acts) == [] <==> forall k :: 0 <= k < |acts| ==> !Continues(acts[k])
  {
    if acts != [] {
      var init, last := acts[..|acts| - 1], acts[|acts| - 1];
      var before := ran[..|ran| - 1];
      FollowUpsEmpty(before, init);
      assert FollowUps(ran, acts) == FollowUps(before, init) + FollowUp(ran[|ran| - 1].root, last);
      assert forall k :: 0 <= k < |init| ==> init[k] == acts[k];
      assert acts == init + [last];
    }
  }

  class Service {
    /** The selector table (the module global `selectors`). */
    var selectors: SelectorTable
    /** email_config['support_email']. */
    const supportEmail: string
    /** urlparse(...).netloc, or None where urlparse raises. */
    const hostOf: string -> Option<string>
    /** float(...), or None where it raises. */
    const parse: string -> Option<Price>

    /** Task messages not yet run, oldest first. */
    var pending: seq<Job>
    /** Every message handed to SMTP, oldest first. */
    var outbox: seq<Message>
    /** The root id the next /track task receives. */
    var nextRoot: nat

    /** For each message in outbox, the chain whose alert it is, or None for a
        message to the operator. */
    ghost var sentBy: seq<Option<nat>>
    /** The baseline each chain has fixed so far. */
    ghost var baselines: map<nat, Price>
    /** The (url, email) each chain was started with. */
    ghost var subscriptions: map<nat, (string, string)>

    /** A queued message carries its chain's arguments unchanged, a retry
        counter within max_retries, the baseline its chain fixed (and none
        while the chain has not fixed one), and belongs to a chain that has not
        alerted. */
    ghost predicate JobValid(j: Job)
      reads this`subscriptions, this`baselines, this`sentBy
    {
      && j.root in subscriptions
      && subscriptions[j.root] == (j.task.url, j.task.email)
      && j.task.retries <= MaxRetries
      && (j.task.initialPrice.Some? <==> j.root in baselines)
      && (j.root in baselines ==> j.task.initialPrice.value == baselines[j.root])
      && Some(j.root) !in sentBy
    }

    /** A sent alert went to its chain's subscriber, names the chain's URL, and
        reports a price strictly below the chain's baseline; every other message
        went to the operator. */
    ghost predicate SentValid(k: nat)
      reads this`outbox, this`sentBy, this`baselines, this`subscriptions
      requires k < |outbox| && k < |sentBy|
    {
      && (sentBy[k].Some? <==> outbox[k].content.DropAlert?)
      && (sentBy[k].Some? ==>
            var r := sentBy[k].value;
            && r in baselines && r in subscriptions
            && outbox[k] == DropAlertTo(subscriptions[r].1, outbox[k].content.price, subscriptions[r].0)
            && outbox[k].content.price < baselines[r])
      && (sentBy[k].None? ==> outbox[k].recipient == supportEmail && outbox[k].subject == SupportSubject)
    }

    /** At most one alert per chain. */
    ghost predicate AlertsOncePerChain()
      reads this`sentBy
    {
      forall a, b :: 0 <= a < b < |sentBy| && sentBy[a].Some? ==> sentBy[a] != sentBy[b]
    }

    /** A chain has at most one message in the queue. */
    ghost predicate OneJobPerChain()
      reads this`pending
    {
      forall a, b :: 0 <= a < b < |pending| ==> pending[a].root != pending[b].root
    }

    ghost predicate Valid()
      reads this
    {
      && |sentBy| == |outbox|
      && baselines.Keys <= subscriptions.Keys
      && (forall r :: r in subscriptions ==> r < nextRoot)
      && (forall k :: 0 <= k < |pending| ==> JobValid(pending[k]))
      && (forall k :: 0 <= k < |outbox| ==> SentValid(k))
      && OneJobPerChain()
      && AlertsOncePerChain()
    }

    constructor (table: SelectorTable, supportEmail: string, hostOf: string -> Option<string>,
                 parse: string -> Option<Price>)
      ensures Valid()
      ensures selectors == table && this.supportEmail == supportEmail
      ensures this.hostOf == hostOf && this.parse == parse
      ensures pending == [] && outbox == []
    {
      selectors := table;
      this.supportEmail := supportEmail;
      this.hostOf := hostOf;
      this.parse := parse;
      pending := [];
      outbox := [];
      nextRoot := 0;
      sentBy := [];
      baselines := map[];
      subscriptions := map[];
    }

    /** POST /track. */
    method Track(body: Option<Body>) returns (response: Response)
      requires Valid()
      modifies this`outbox, this`sentBy, this`pending, this`subscriptions, this`nextRoot
      ensures Valid()
      ensures var d := Route(body, selectors, hostOf, supportEmail);
        && response == d.response
        && pending == old(pending) + (if d.enqueued.Some? then [Job(old(nextRoot), d.enqueued.value, 0)] else [])
        && outbox == old(outbox) + (if d.sent.Some? then [d.sent.value] else [])
        && nextRoot == old(nextRoot) + (if d.enqueued.Some? then 1 else 0)
        && subscriptions == if d.enqueued.Some? then old(subscriptions)[old(nextRoot) := (d.enqueued.value.url, d.enqueued.value.email)]
                            else old(subscriptions)
      ensures selectors == old(selectors) && baselines == old(baselines)
    {
      var d := Route(body, selectors, hostOf, supportEmail);
      response := d.response;
      Perform(d);
    }

    /** The side effect, if any, of one /track request: mail to the operator or
        a new chain, never both. */
    method Perform(d: Decision)
      requires Valid() && !(d.sent.Some? && d.enqueued.Some?)
      requires d.sent.Some? ==> var m := d.sent.value;
        m.recipient == supportEmail && m.subject == SupportSubject && !m.content.DropAlert?
      requires d.enqueued.Some? ==> d.enqueued.value.initialPrice.None? && d.enqueued.value.retries == 0
      modifies this`outbox, this`sentBy, this`pending, this`subscriptions, this`nextRoot
      ensures Valid()
      ensures pending == old(pending) + (if d.enqueued.Some? then [Job(old(nextRoot), d.enqueued.value, 0)] else [])
      ensures outbox == old(outbox) + (if d.sent.Some? then [d.sent.value] else [])
      ensures nextRoot == old(nextRoot) + (if d.enqueued.Some? then 1 else 0)
      ensures subscriptions == if d.enqueued.Some? then old(subscriptions)[old(nextRoot) := (d.enqueued.value.url, d.enqueued.value.email)]
                               else old(subscriptions)
    {
      if d.sent.Some? {
        MailOperator(d.sent.value);
      } else if d.enqueued.Some? {
        StartChain(d.enqueued.value);
      }
    }

    /** send_email(...) to the operator. */
    method MailOperator(m: Message)
      requires Valid()
      requires m.recipient == supportEmail && m.subject == SupportSubject && !m.content.DropAlert?
      modifies this`outbox, this`sentBy
      ensures Valid() && outbox == old(outbox) + [m]
    {
      outbox := outbox + [m];
      sentBy := sentBy + [None];
      forall k | 0 <= k < |outbox|
        ensures SentValid(k)
      {
        if k < |outbox| - 1 {
          assert old(SentValid(k)) && outbox[k] == old(outbox[k]) && sentBy[k] == old(sentBy[k]);
        }
      }
    }

    /** track_price_drop.delay(url, email): a message with a new root id. */
    method StartChain(t: Task)
      requires Valid() && t.initialPrice.None? && t.retries == 0
      modifies this`pending, this`subscriptions, this`nextRoot
      ensures Valid() && pending == old(pending) + [Job(old(nextRoot), t, 0)]
      ensures nextRoot == old(nextRoot) + 1 && subscriptions == old(subscriptions)[old(nextRoot) := (t.url, t.email)]
    {
      var root := nextRoot;
      assert root !in subscriptions && root !in baselines;
      assert forall k :: 0 <= k < |pending| ==> pending[k].root != root;
      assert Some(root) !in sentBy by {
        assert forall k :: 0 <= k < |outbox| && sentBy[k].Some? ==> SentValid(k) && sentBy[k].value in subscriptions;
      }
      subscriptions := subscriptions[root := (t.url, t.email)];
      pending := pending + [Job(root, t, 0)];
      nextRoot := nextRoot + 1;
      assert JobValid(pending[|pending| - 1]);
      forall k | 0 <= k < |outbox|
        ensures SentValid(k)
      {
        assert old(SentValid(k));
      }
    }

    /** One run of the queued message at position i, against the page as the
        browser sees it now. */
    method RunJob(i: nat, page: string -> Option<string>) returns (action: Action)
      requires Valid() && i < |pending|
      modifies this`pending, this`outbox, this`sentBy, this`baselines
      ensures Valid()
      ensures var job := old(pending[i]);
        && action == Step(job.task, CheckPrice(job.task.url, selectors, hostOf, page, parse))
        && pending == old(pending[..i] + pending[i + 1..]) + FollowUp(job.root, action)
        && outbox == old(outbox) + Mailed(action)
      ensures selectors == old(selectors) && nextRoot == old(nextRoot)
      ensures forall r :: r in old(baselines) ==> r in baselines && baselines[r] == old(baselines[r])
    {
      var job := Dequeue(i);
      var probe := CheckPrice(job.task.url, selectors, hostOf, page, parse);
      action := Step(job.task, probe);
      Settle(job, probe, action);
    }

    /** What a run of `job` leaves behind once its check returned `probe`: the
        chain's next message, its baseline, or its alert. */
    method Settle(job: Job, probe: Option<Price>, action: Action)
      requires Valid() && JobValid(job) && action == Step(job.task, probe)
      requires forall k :: 0 <= k < |pending| ==> pending[k].root != job.root
      modifies this`pending, this`outbox, this`sentBy, this`baselines
      ensures Valid()
      ensures pending == old(pending) + FollowUp(job.root, action)
      ensures outbox == old(outbox) + Mailed(action)
      ensures forall r :: r in old(baselines) ==> r in baselines && baselines[r] == old(baselines[r])
    {
      match action {
        case Retry(next, countdown) =>
          Enqueue(Job(job.root, next, countdown));
        case GiveUp =>
        case Reschedule(next, countdown) =>
          FixBaseline(job.root, next.initialPrice.value);
          Enqueue(Job(job.root, next, countdown));
        case Notify(alert) =>
          MailAlert(job.root, alert);
      }
    }

    /** One run of the message at the head of the queue. */
    method RunHead(page: string -> Option<string>) returns (job: Job, action: Action)
      requires Valid() && pending != []
      modifies this`pending, this`outbox, this`sentBy, this`baselines
      ensures Valid()
      ensures job == old(pending[0])
      ensures action == Step(job.task, CheckPrice(job.task.url, selectors, hostOf, page, parse))
      ensures pending == old(pending[1..]) + FollowUp(job.root, action)
      ensures outbox == old(outbox) + Mailed(action)
      ensures forall r :: r in old(baselines) ==> r in baselines && baselines[r] == old(baselines[r])
    {
      job := pending[0];
      assert pending[..0] + pending[1..] == pending[1..];
      action := RunJob(0, page);
    }

    /** The worker takes the message at position i off the queue. */
    method Dequeue(i: nat) returns (job: Job)
      requires Valid() && i < |pending|
      modifies this`pending
      ensures Valid() && job == old(pending[i]) && pending == old(pending[..i] + pending[i + 1..])
      ensures JobValid(job) && forall k :: 0 <= k < |pending| ==> pending[k].root != job.root
    {
      job := pending[i];
      var rest := pending[..i] + pending[i + 1..];
      assert forall k :: 0 <= k < |rest| ==> rest[k] == pending[if k < i then k else k + 1];
      pending := rest;
    }

    /** self.retry(...) or self.apply_async(...): the chain's next message. */
    method Enqueue(job: Job)
      requires Valid() && JobValid(job)
      requires forall k :: 0 <= k < |pending| ==> pending[k].root != job.root
      modifies this`pending
      ensures Valid() && pending == old(pending) + [job]
    {
      pending := pending + [job];
    }

    /** The chain `root` passes `price` on as its baseline. */
    method FixBaseline(root: nat, price: Price)
      requires Valid() && root in subscriptions
      requires root in baselines ==> baselines[root] == price
      requires forall k :: 0 <= k < |pending| ==> pending[k].root != root
      modifies this`baselines
      ensures Valid() && baselines == old(baselines)[root := price]
    {
      baselines := baselines[root := price];
      assert forall k :: 0 <= k < |outbox| ==> SentValid(k) by {
        forall k | 0 <= k < |outbox|
          ensures SentValid(k)
        {
          assert old(SentValid(k));
        }
      }
    }

    /** send_email(...) of the drop alert for chain `root`. */
    method MailAlert(root: nat, alert: Message)
      requires Valid() && root in subscriptions && root in baselines
      requires alert.content.DropAlert? && alert.content.price < baselines[root]
      requires alert == DropAlertTo(subscriptions[root].1, alert.content.price, subscriptions[root].0)
      requires Some(root) !in sentBy
      requires forall k :: 0 <= k < |pending| ==> pending[k].root != root
      modifies this`outbox, this`sentBy
      ensures Valid() && outbox == old(outbox) + [alert]
    {
      outbox := outbox + [alert];
      sentBy := sentBy + [Some(root)];
      forall k | 0 <= k < |outbox|
        ensures SentValid(k)
      {
        if k < |outbox| - 1 {
          assert old(SentValid(k)) && outbox[k] == old(outbox[k]) && sentBy[k] == old(sentBy[k]);
        }
      }
    }

    /** POST /reload-selectors: the table is replaced by what was loaded before
        it is checked, so a failed load leaves no table behind. */
    method ReloadSelectors(loaded: SelectorTable) returns (response: Response)
      requires Valid()
      modifies this`selectors
      ensures Valid()
      ensures selectors == loaded
      ensures response == if loaded.None? || loaded.value == map[] then Response(500, ReloadFailed)
                          else Response(200, Reloaded)
      ensures pending == old(pending) && outbox == old(outbox)
    {
      selectors := loaded;
      if loaded.None? || loaded.value == map[] {
        response := Response(500, ReloadFailed);
      } else {
        response := Response(200, Reloaded);
      }
    }

    /** The worker taking messages from the head of the queue, one per page
        state in `pages`, until either runs out. ran[k] is the message whose
        run was actions[k]: the queue is first in, first out, so the messages
        run are the old queue followed by the follow-ups the runs queued, and
        what remains queued is the rest of that sequence. */
    method Drain(pages: seq<string -> Option<string>>) returns (actions: seq<Action>, ran: seq<Job>)
      requires Valid()
      modifies this`pending, this`outbox, this`sentBy, this`baselines
      ensures Valid()
      ensures |ran| == |actions| <= |pages|
      ensures |actions| < |pages| ==> pending == []
      ensures old(pending) != [] && pages != [] ==> actions != [] && ran[0] == old(pending[0])
      ensures forall k :: 0 <= k < |actions| ==>
        actions[k] == Step(ran[k].task, CheckPrice(ran[k].task.url, selectors, hostOf, pages[k], parse))
      ensures ran + pending == old(pending) + FollowUps(ran, actions)
      ensures outbox == old(outbox) + AlertsOf(actions)
      ensures forall r :: r in old(baselines) ==> r in baselines && baselines[r] == old(baselines[r])
    {
      actions, ran := [], [];
      while |actions| < |pages| && pending != []
        invariant Valid()
        invariant |ran| == |actions| <= |pages|
        invariant forall k :: 0 <= k < |actions| ==>
          actions[k] == Step(ran[k].task, CheckPrice(ran[k].task.url, selectors, hostOf, pages[k], parse))
        invariant ran + pending == old(pending) + FollowUps(ran, actions)
        invariant outbox == old(outbox) + AlertsOf(actions)
        invariant forall r :: r in old(baselines) ==> r in baselines && baselines[r] == old(baselines[r])
        invariant actions == [] ==> pending == old(pending)
        invariant old(pending) != [] && ran != [] ==> ran[0] == old(pending[0])
        decreases |pages| - |actions|
      {
        actions, ran := DrainStep(old(pending), old(outbox), old(baselines), pages, actions, ran);
      }
    }

    /** Drain's loop body: run the head of the queue against the next page. */
    method DrainStep(ghost start: seq<Job>, ghost sent: seq<Message>, ghost fixed: map<nat, Price>,
                     pages: seq<string -> Option<string>>, acts: seq<Action>, ran: seq<Job>)
      returns (acts': seq<Action>, ran': seq<Job>)
      requires Valid() && pending != [] && |ran| == |acts| < |pages|
      requires forall k :: 0 <= k < |acts| ==>
        acts[k] == Step(ran[k].task, CheckPrice(ran[k].task.url, selectors, hostOf, pages[k], parse))
      requires ran + pending == start + FollowUps(ran, acts)
      requires outbox == sent + AlertsOf(acts)
      requires forall r :: r in fixed ==> r in baselines && baselines[r] == fixed[r]
      modifies this`pending, this`outbox, this`sentBy, this`baselines
      ensures Valid() && |ran'| == |acts'| == |acts| + 1 && ran' == ran + [old(pending[0])]
      ensures forall k :: 0 <= k < |acts'| ==>
        acts'[k] == Step(ran'[k].task, CheckPrice(ran'[k].task.url, selectors, hostOf, pages[k], parse))
      ensures ran' + pending == start + FollowUps(ran', acts')
      ensures outbox == sent + AlertsOf(acts')
      ensures forall r :: r in fixed ==> r in baselines && baselines[r] == fixed[r]
    {
      ghost var before := pending;
      var job, a := RunHead(pages[|acts|]);
      QueueStep(start, ran, acts, before, job, a);
      AlertsOfSnoc(sent, acts, a);
      SteppedSnoc(acts, ran, pages, selectors, hostOf, parse, job, a);
      ran', acts' := ran + [job], acts + [a];
    }
  }

  /** One more run keeps the first-in, first-out view of the queue: running
      the head of `before` and queueing its follow-up extends the sequence of
      messages run by that head. */
  lemma QueueStep(start: seq<Job>, ran: seq<Job>, acts: seq<Action>, before: seq<Job>, job: Job, a: Action)
    requires |ran| == |acts|
    requires ran + before == start + FollowUps(ran, acts)
    requires before != [] && job == before[0]
    ensures (ran + [job]) + (before[1..] + FollowUp(job.root, a)) == start + FollowUps(ran + [job], acts + [a])
  {
    FollowUpsSnoc(ran, acts, job, a);
    ConcatAssoc(start, FollowUps(ran, acts), FollowUp(job.root, a));
    FifoStep(ran, before, FollowUp(job.root, a));
  }

  /** FollowUps grows by the follow-up of each further run. */
  lemma FollowUpsSnoc(ran: seq<Job>, acts: seq<Action>, job: Job, a: Action)
    requires |ran| == |acts|
    ensures FollowUps(ran + [job], acts + [a]) == FollowUps(ran, acts) + FollowUp(job.root, a)
  {
    assert (ran + [job])[..|ran|] == ran && (acts + [a])[..|acts|] == acts;
  }

  /** Moving the head of what is left over to what was taken, and appending
      f to what is left, appends f to the whole. */
  lemma FifoStep<T>(taken: seq<T>, left: seq<T>, f: seq<T>)
    requires left != []
    ensures (taken + [left[0]]) + (left[1..] + f) == (taken + left) + f
  {
    assert left == [left[0]] + left[1..];
  }

  lemma ConcatAssoc<T>(a: seq<T>, b: seq<T>, c: seq<T>)
    ensures a + (b + c) == (a + b) + c
  {
  }

  /** The outbox grows by the mail of each further run. */
  lemma AlertsOfSnoc(sent: seq<Message>, acts: seq<Action>, a: Action)
    ensures sent + AlertsOf(acts + [a]) == (sent + AlertsOf(acts)) + Mailed(a)
  {
    assert (acts + [a])[..|acts|] == acts;
    ConcatAssoc(sent, AlertsOf(acts), Mailed(a));
  }

  /** Each action recorded so far is the run of its message against its page;
      one more run keeps that so. */
  lemma SteppedSnoc(acts: seq<Action>, ran: seq<Job>, pages: seq<string -> Option<string>>,
                    table: SelectorTable, hostOf: string -> Option<string>, parse: string -> Option<Price>,
                    job: Job, a: Action)
    requires |ran| == |acts| < |pages|
    requires forall k :: 0 <= k < |acts| ==>
      acts[k] == Step(ran[k].task, CheckPrice(ran[k].task.url, table, hostOf, pages[k], parse))
    requires a == Step(job.task, CheckPrice(job.task.url, table, hostOf, pages[|acts|], parse))
    ensures forall k :: 0 <= k < |acts| + 1 ==>
      (acts + [a])[k] == Step((ran + [job])[k].task, CheckPrice((ran + [job])[k].task.url, table, hostOf, pages[k], parse))
  {
    forall k | 0 <= k < |acts| + 1
      ensures (acts + [a])[k] == Step((ran + [job])[k].task, CheckPrice((ran + [job])[k].task.url, table, hostOf, pages[k], parse))
    {
      if k < |acts| {
        assert (acts + [a])[k] == acts[k] && (ran + [job])[k] == ran[k];
      }
    }
  }

  /** Two identical /track requests for a supported shop start two separate
      chains: the handler keeps no record of what is already being tracked. */
  method DuplicateRequestsStartTwoChains(url: string, email: string, table: map<string, string>,
                                         hostOf: string -> Option<string>, parse: string -> Option<Price>,
                                         supportEmail: string)
    returns (jobs: seq<Job>)
    requires url != "" && email != ""
    requires hostOf(url).Some? && Domain.NormalizeDomain(hostOf(url).value) in table
    ensures |jobs| == 2 && jobs[0].task == jobs[1].task == NewTask(url, email)
    ensures jobs[0].root != jobs[1].root
  {
    var service := new Service(Some(table), supportEmail, hostOf, parse);
    var body := Some(Body(Some(url), Some(email)));
    SupportedShopStartsTracking(url, email, table, hostOf, supportEmail);
    var first := service.Track(body);
    var second := service.Track(body);
    jobs := service.pending;
    assert service.OneJobPerChain();
  }
}
