/**
 * The POST /track handler (main.py, track_discount): validate the JSON body,
 * look the URL's key up in the selector table, and either reject the request,
 * ask the operator to support the shop, or start tracking.
 */
module Routing {
  import opened Wrappers
  import opened Domain
  import opened Prices
  import opened Probe
  import opened Email
  import opened Tracking

  /** The fields of the JSON body; None when a field is missing or null. */
  datatype Body = Body(url: Option<string>, email: Option<string>)

  /** The JSON answers of the service's POST routes. */
  datatype Reply = FieldsRequired | NotSupportedYet | TrackingStarted | InternalError | ReloadFailed | Reloaded

  datatype Response = Response(status: int, reply: Reply)

  /** What one request does: the response, the task it enqueues with delay(),
      and the message it sends. */
  datatype Decision = Decision(response: Response, enqueued: Option<Task>, sent: Option<Message>)

  /** Python truthiness of an optional string field: present and non-empty. */
  predicate Given(field: Option<string>) {
    field.Some? && field.value != ""
  }

  /** Handling of one request. `body` is None when request.get_json() yields no
      object; `hostOf` is urlparse(...).netloc as for the price check; every
      exception raised inside the handler becomes the 500 answer. */
  function Route(body: Option<Body>, table: SelectorTable, hostOf: string -> Option<string>,
                 supportEmail: string): (d: Decision)
    // at most one side effect, and only on a 200 answer
    ensures !(d.enqueued.Some? && d.sent.Some?)
    ensures (d.enqueued.Some? || d.sent.Some?) ==> d.response.status == 200
    // a missing url or email is a 400 and nothing else
    ensures body.Some? && !(Given(body.value.url) && Given(body.value.email)) <==> d.response == Response(400, FieldsRequired)
    // a shop without a key in the table: one message to the operator
    ensures d.response == Response(200, NotSupportedYet) <==> d.sent.Some?
    ensures d.sent.Some? ==>
      && body.Some? && Given(body.value.url) && Given(body.value.email)
      && hostOf(body.value.url.value).Some? && table.Some?
      && var domain := NormalizeDomain(hostOf(body.value.url.value).value);
         domain !in table.value && d.sent.value == SupportRequestTo(supportEmail, domain)
    // otherwise exactly one task, with no baseline
    ensures d.response == Response(200, TrackingStarted) <==> d.enqueued.Some?
    ensures d.enqueued.Some? ==>
      && body.Some? && Given(body.value.url) && Given(body.value.email)
      && hostOf(body.value.url.value).Some? && table.Some?
      && NormalizeDomain(hostOf(body.value.url.value).value) in table.value
      && d.enqueued.value == NewTask(body.value.url.value, body.value.email.value)
    // no JSON object: the exception handler's 500, and nothing else
    ensures body.None? ==> d == Decision(Response(500, InternalError), None, None)
    ensures body.Some? && !(Given(body.value.url) && Given(body.value.email)) ==>
      d == Decision(Response(400, FieldsRequired), None, None)
    // a well-formed request: 500 when urlparse raises or no table is loaded,
    // else the key decides between the support request and a new task
    ensures body.Some? && Given(body.value.url) && Given(body.value.email) ==>
      var url := body.value.url.value;
      if hostOf(url).None? || table.None? then d == Decision(Response(500, InternalError), None, None)
      else
        var key := NormalizeDomain(hostOf(url).value);
        if key !in table.value then
          d == Decision(Response(200, NotSupportedYet), None, Some(SupportRequestTo(supportEmail, key)))
        else
          d == Decision(Response(200, TrackingStarted), Some(NewTask(url, body.value.email.value)), None)
  {
    match body
    case None => Decision(Response(500, InternalError), None, None)
    case Some(b) =>
      if !Given(b.url) || !Given(b.email) then Decision(Response(400, FieldsRequired), None, None)
      else
        match hostOf(b.url.value)
        case None => Decision(Response(500, InternalError), None, None)
        case Some(host) =>
          var domain := NormalizeDomain(host);
          match table
          case None => Decision(Response(500, InternalError), None, None)
          case Some(selectors) =>
            if domain !in selectors then
              Decision(Response(200, NotSupportedYet), None, Some(SupportRequestTo(supportEmail, domain)))
            else
              Decision(Response(200, TrackingStarted), Some(NewTask(b.url.value, b.email.value)), None)
  }

  /** A well-formed request for a shop in the table always starts tracking. */
  lemma SupportedShopStartsTracking(url: string, email: string, table: map<string, string>,
                                    hostOf: string -> Option<string>, supportEmail: string)
    requires url != "" && email != ""
    requires hostOf(url).Some? && NormalizeDomain(hostOf(url).value) in table
    ensures Route(Some(Body(Some(url), Some(email))), Some(table), hostOf, supportEmail)
         == Decision(Response(200, TrackingStarted), Some(NewTask(url, email)), None)
  {
  }

  /** A key mapped to an empty selector is accepted here (the handler asks only
      whether the key is present) yet no check of such a URL ever yields a
      price, so its chain can only retry and give up. */
  lemma EmptySelectorTrackedButNeverPriced(url: string, email: string, table: map<string, string>,
                                           hostOf: string -> Option<string>, supportEmail: string,
                                           page: string -> Option<string>, parse: string -> Option<Price>)
    requires url != "" && email != ""
    requires hostOf(url).Some? && NormalizeDomain(hostOf(url).value) in table
    requires table[NormalizeDomain(hostOf(url).value)] == ""
    ensures Route(Some(Body(Some(url), Some(email))), Some(table), hostOf, supportEmail).enqueued.Some?
    ensures CheckPrice(url, Some(table), hostOf, page, parse).None?
  {
    NoSelectorNoPrice(url, Some(table), hostOf, page, parse);
  }
}
