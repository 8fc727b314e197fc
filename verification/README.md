# Price-drop tracker: a verified model of its decision logic

The service (`main.py`) accepts `POST /track` requests carrying a product URL
and a subscriber's email address. It looks the shop up in a table of CSS
selectors keyed by host name without a leading `www.`. It then runs a Celery
task, `track_price_drop`, that reads the price off the page, remembers the
first price it sees as the baseline, re-checks every 20 minutes, and emails
the subscriber once the price falls strictly below the baseline. A failed
check is retried up to five times, 300 s apart. An unknown shop is reported
to the operator by email instead.

This project models that logic in Dafny and proves what it promises:

- `Domain`: `normalize_domain`.
- `PriceText`: the clean-up applied to the scraped text: remove `R` and `,`,
  then `strip()`, then keep the first line.
- `Probe`: `check_price`, with the browser, `urlparse` and `float` passed in
  as functions.
- `Email`: the two kinds of message.
- `Tracking`: one task run as a step function over the task's arguments and
  Celery's retry counter, and the trace of a whole tracking chain.
- `Routing`: the `/track` handler as a pure decision.
- `Broker`: a class holding the queue of pending task messages, the mail
  handed to SMTP and the selector table. Its methods (`Track`, `RunJob`,
  `ReloadSelectors`, `Drain`) keep an invariant. The invariant says at most
  one alert goes out per chain, a baseline once fixed never changes, every
  alert reports a price strictly below its chain's baseline, and every queued
  message carries its chain's URL and address unchanged.

A chain is every task descended from one `/track` request. It is identified
by Celery's `root_id`, which retries and follow-up tasks inherit.

## Model

| member | source | states |
|---|---|---|
| `Domain.NormalizeDomain` | main.py:58-61 | the key is a suffix of the host, and the host is exactly `"www."` + key when it starts with `"www."`, otherwise the key itself |
| `Domain.WwwVariantSameKey` | main.py:58-61 | `"www."` + h normalises to h; it has the same key as h exactly when h does not itself start with `"www."` |
| `Domain.IdempotentUnlessDoubleWww` | main.py:58-61 | normalising twice equals normalising once iff the host does not begin with `"www.www."` |
| `Domain.ExampleKeys` | main.py:58-61 | `www.shop.co.za` and `shop.co.za` share the key `shop.co.za` |
| `Domain.ExampleDoubleWww` | main.py:58-61 | `www.www.a.za` is a host whose key changes when normalised a second time |
| `PriceText.RemoveAll` | main.py:100 | `replace(c, '')` never lengthens the text |
| `PriceText.RemoveAllCounts` | main.py:100 | `replace(c, '')` removes every `c` and keeps every other character with its multiplicity |
| `PriceText.RemoveAllAppend` | main.py:100 | `replace(c, '')` distributes over concatenation |
| `PriceText.RemoveAllAbsent` | main.py:100 | `replace(c, '')` is the identity on a string without `c` |
| `PriceText.LeadingSpace` | main.py:100 | the counted prefix is all whitespace and is followed by a non-whitespace character or the end |
| `PriceText.TrailingSpace` | main.py:100 | the counted suffix is all whitespace and is preceded by a non-whitespace character or the start |
| `PriceText.Strip` | main.py:100 | `strip()` neither starts nor ends with whitespace |
| `PriceText.StripIsInfix` | main.py:100 | `strip()` returns a contiguous piece of its input with only whitespace on either side |
| `PriceText.StripAddsNothing` | main.py:100 | `strip()` introduces no character its input lacks |
| `PriceText.StripUnpadded` | main.py:100 | `strip()` leaves a string without surrounding whitespace unchanged |
| `PriceText.Trimmed` | main.py:100 | the text with `R` and `,` removed and `strip()` applied neither starts nor ends with whitespace |
| `PriceText.LineEnd` | main.py:101-102 | the index found has no newline before it and is a newline or the end |
| `PriceText.FirstLine` | main.py:101-102 | `split('\n')[0]` is a prefix of the text that contains no newline and is followed by a newline or the end |
| `PriceText.FirstLineOf` | main.py:101-102 | `split('\n')[0]` of `a + "\n" + b` is `a` when `a` has no newline |
| `PriceText.CleanPriceText` | main.py:100-102 | the cleaned text is the trimmed text up to, not including, its first newline, and does not start with whitespace |
| `PriceText.CleanedHasNoSeparators` | main.py:100-102 | no `R`, no `,` and no newline reaches the parser |
| `PriceText.CleanOfUnpadded` | main.py:100-102 | when the text without `R` and `,` has no surrounding whitespace, the result is its first line |
| `PriceText.CleanThousands` | main.py:100-102 | `"R" + a + "," + b` cleans to `a + b` for digit strings (`"R1,234.00"` gives `"1234.00"`) |
| `PriceText.CleanTwoPrices` | main.py:100-102 | `"R" + a + "\nR" + b` cleans to `a`: only the first amount shown is read |
| `Probe.SelectorFor` | main.py:87-89 | a selector is found exactly when the table is loaded and maps the key to a non-empty selector, and it is that entry |
| `Probe.CheckPrice` | main.py:81-106 | a price comes out only when the host parses, a selector exists and the element is found, and it is then the parse of the cleaned text |
| `Probe.NoSelectorNoPrice` | main.py:86-92 | a URL whose key has no selector never yields a price |
| `Probe.WwwHostSameProbe` | main.py:86-87 | URLs whose hosts differ only by a leading `www.` look up the same selector, so the same page text gives the same result |
| `Email.DropAlertTo` | main.py:134-136 | the alert goes to the subscriber under "Price Drop Alert!" and carries the new price and the URL |
| `Email.SupportRequestTo` | main.py:160-162 | the support request goes to the operator under "Website Support!" and names the key |
| `Tracking.NewTask` | main.py:166 | the task `/track` enqueues has the request's url and email, no baseline and a zero retry counter |
| `Tracking.Baseline` | main.py:128-129 | the baseline is the given initial price, or the current price when none was given |
| `Tracking.Step` | main.py:112-142 | a failed check retries with the same arguments and counter + 1 after 300 s exactly while the counter is below 5, else gives up; an alert is sent iff the price is strictly below a given baseline, to the subscriber with price and URL; otherwise one follow-up after 1200 s with the baseline passed on and a fresh counter |
| `Tracking.FirstSuccessSetsBaseline` | main.py:128-142 | the first successful check fixes the baseline to the price seen and reschedules without alerting |
| `Tracking.Trace` | main.py:112-142 | in a chain every action but the last continues it, and the chain ends only by giving up or alerting |
| `Tracking.AtMostOneAlert` | main.py:132-138 | a chain sends at most one alert, and nothing follows it |
| `Tracking.BaselineSetOnce` | main.py:128-142 | along a chain the baseline passed on is the start baseline or else the first price observed, so it never changes once set; every alert is for a price strictly below that baseline, to the chain's subscriber and URL |
| `Tracking.RetriesCountFailures` | main.py:112-142 | the retry counter passed on counts the failures since the last success, and a chain gives up only on a failure when that count has reached 5 |
| `Tracking.FailureRunBounded` | main.py:112-126 | a run of failures from counter c makes 5 - c retries, each with the counter one higher and 300 s delay, and then gives up; no alert, no baseline |
| `Tracking.FreshChainGivesUpAfterSixFailures` | main.py:112-126 | a new task whose checks all fail runs six times (first attempt and five retries) and is then dropped |
| `Routing.Route` | main.py:145-171 | a missing or empty url or email answers 400 and does nothing; an unknown key answers 200 "not supported yet" and sends exactly one support request naming the key; a known key answers 200 and enqueues exactly one task, with the request's url and email and no baseline; never both; a body that is not JSON, a URL urlparse rejects, or no loaded table answers 500 and does nothing |
| `Routing.SupportedShopStartsTracking` | main.py:152-168 | a well-formed request for a shop in the table always starts tracking |
| `Routing.EmptySelectorTrackedButNeverPriced` | main.py:87-158 | a key mapped to an empty selector is accepted by `/track` but every check of it fails |
| `Broker.FollowUp` | main.py:123-142 | a run leaves a message in the queue exactly when it retries or reschedules |
| `Broker.Mailed` | main.py:132-138 | a run mails exactly when it alerts |
| `Broker.AlertsOf` | main.py:132-138 | a sequence of runs mails at most one message per run |
| `Broker.AlertsOfEmpty` | main.py:132-138 | a sequence of runs mails nothing exactly when none of them alerts |
| `Broker.FollowUps` | main.py:123-142 | a sequence of runs queues at most one message per run |
| `Broker.FollowUpsEmpty` | main.py:123-142 | a sequence of runs queues nothing exactly when none of them retries or reschedules |
| `Broker.QueueStep` | main.py:123-142 | running the head of the queue and queueing its follow-up extends "messages run + messages left = initial queue + follow-ups" by that run |
| `Broker.Service.constructor` | main.py:54-55 | a service starts with the loaded table, nothing queued and nothing sent |
| `Broker.Service.Track` | main.py:145-171 | the response, queue and outbox follow `Route` on the current table; the root id advances and the chain is recorded exactly when a task is enqueued; the invariant is kept |
| `Broker.Service.Perform` | main.py:158-168 | an unknown shop adds one support request to the outbox, a known one adds one new task to the queue under the next root id, never both; the root id advances only for a new task |
| `Broker.Service.MailOperator` | main.py:162 | the support request is appended to the outbox |
| `Broker.Service.StartChain` | main.py:166 | the new task is queued under a fresh root id; the next root id is one higher and the new chain's url and email are recorded |
| `Broker.Service.RunJob` | main.py:112-142 | the message at position i is taken off the queue and run against the current table; its follow-up is queued and its alert mailed as `Step` says; no fixed baseline changes; the invariant is kept |
| `Broker.Service.Settle` | main.py:116-142 | after a run, the chain's follow-up message is queued, its baseline recorded or its alert mailed, as the run's action says |
| `Broker.Service.Dequeue` | main.py:113 | the message is removed and no other message of its chain is queued |
| `Broker.Service.Enqueue` | main.py:123-142 | the chain's next message is appended to the queue |
| `Broker.Service.FixBaseline` | main.py:128-142 | the chain's baseline is recorded; one already recorded is only ever re-recorded with the same value |
| `Broker.Service.MailAlert` | main.py:136 | the alert is appended to the outbox, at most once per chain |
| `Broker.Service.ReloadSelectors` | main.py:174-182 | the table becomes whatever was loaded, and the answer is 500 when that is missing or empty, else 200 |
| `Broker.Service.RunHead` | main.py:112-142 | the oldest queued message is run against the current table; the queue loses it and gains its follow-up at the end; the outbox gains its alert, if any; no fixed baseline changes; the invariant is kept |
| `Broker.Service.DrainStep` | main.py:112-142 | one more run from the head of the queue keeps every fact `Drain` promises about the runs so far |
| `Broker.Service.Drain` | main.py:112-142 | the queue is worked first in, first out: the first message run is the oldest queued, each action is its message's run against the table and its page, the messages run followed by those left are the old queue followed by the runs' follow-ups, the outbox gains exactly the runs' alerts in order, it stops early only on an empty queue, no fixed baseline changes, and the invariant is kept |
| `Broker.DuplicateRequestsStartTwoChains` | main.py:145-168 | two identical supported requests queue two identical tasks under different root ids |

## Left out

- Selenium (loading the page, the 20 s wait, finding the element) is the `page` parameter of `CheckPrice`: a selector maps to the element's text, or to None when any browser step raises.
- `urllib.parse.urlparse(url).netloc` is the `hostOf` parameter; None stands for urlparse raising.
- `float(price)` is the `parse` parameter, to integer cents. IEEE behaviour (NaN, infinities, rounding) and the `:.2f` formatting in the alert and log text are not modelled; an alert carries the price value.
- SMTP delivery is not modelled: a message counts as sent when it is handed over, as `send_email` swallows delivery errors.
- `email_config` is assumed loaded. The `KeyError`/`TypeError` a missing configuration would raise in the alert and support branches is not modelled.
- The JSON body's `url` and `email` are modelled as strings. A field of another type is not modelled: a falsy one (`0`, `false`, `[]`) answers 400 like a missing one; a truthy non-string `url` makes urlparse raise, which answers 500; a truthy non-string `email` is never parsed and is accepted and tracked like a string.
- The selector table's values are modelled as strings. A `price_selectors.json` entry whose value is `0`, `null` or a list is not modelled.
- Celery timing: each queued message records its countdown (0, 300 or 1200 s), but the order in which due messages run is left to the caller of `RunJob` (`Drain` takes the oldest first).
- `Broker.Service.RunJob` reads the same `selectors` field that `ReloadSelectors` replaces, as if the handler and the task ran in one process. Deployed, the task runs in a separate Celery worker that imported `main.py` on its own, so its table is the one loaded at the worker's start-up (main.py:54). `/reload-selectors` rebinds only the web process's global and never reaches the checks. The model does not capture this second copy of the table.
- Concurrent workers are not modelled. Logging is not modelled, including the critical "Max retries exceeded" line, which is also logged when a retry was in fact scheduled: the `Retry` signal is caught by the same `except Exception`.
- Reading `price_selectors.json` is file I/O and is not modelled: `ReloadSelectors` receives the loaded value, None when loading failed.
- `/status`, `/`, CORS and logging set-up carry no decision logic and are not modelled.

Behaviour of the code that the model keeps:

- A chain gives up after five retries, so after six failed checks, not five: Celery retries while `request.retries < max_retries`.
- `/reload-selectors` replaces the table before checking it, so the previous table never stays in effect after a failed reload. A load that failed leaves the web process with no table: afterwards `/track` answers 500. A load that gave an empty table also answers 500 but leaves that empty table: afterwards `/track` answers 200 "not supported yet" and mails the operator for every shop.
- Identical `/track` requests are not deduplicated; each starts its own chain (`Broker.DuplicateRequestsStartTwoChains`).
- A key mapped to an empty selector passes `/track` but can never be priced (`Routing.EmptySelectorTrackedButNeverPriced`).
