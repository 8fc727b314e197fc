/**
 * One price check (main.py, check_price). The browser, urllib's urlparse and
 * Python's float() are outside the model and enter as parameters:
 *   - hostOf(url) is urlparse(url).netloc, or None when urlparse raises;
 *   - page(selector) is the text of the element the selector finds once the
 *     page has loaded, or None when loading, waiting or finding it raises;
 *   - parse(text) is float(text), or None when it raises.
 * Every failure becomes None, which is what the tracker sees.
 */
module Probe {
  import opened Wrappers
  import opened Domain
  import opened PriceText
  import opened Prices

  /** The module-level table from selector-table key to CSS selector;
      None when the JSON file could not be loaded. */
  type SelectorTable = Option<map<string, string>>

  /** selectors.get(domain), where a missing key and an empty selector are both
      "no selector" (Python's `if not selector`). */
  function SelectorFor(table: SelectorTable, domain: string): (sel: Option<string>)
    ensures sel.Some? <==> table.Some? && domain in table.value && table.value[domain] != ""
    ensures sel.Some? ==> sel.value == table.value[domain]
  {
    if table.Some? && domain in table.value && table.value[domain] != "" then Some(table.value[domain]) else None
  }

  /** The price the page currently shows for `url`, or None. */
  function CheckPrice(url: string, table: SelectorTable, hostOf: string -> Option<string>,
                      page: string -> Option<string>, parse: string -> Option<Price>): (p: Option<Price>)
    ensures p.Some? ==> hostOf(url).Some?
    ensures hostOf(url).Some? ==>
      var sel := SelectorFor(table, NormalizeDomain(hostOf(url).value));
      p == if sel.Some? && page(sel.value).Some? then parse(CleanPriceText(page(sel.value).value)) else None
  {
    match hostOf(url)
    case None => None
    case Some(host) =>
      match SelectorFor(table, NormalizeDomain(host))
      case None => None
      case Some(selector) =>
        match page(selector)
        case None => None
        case Some(text) => parse(CleanPriceText(text))
  }

  /** A URL whose key has no selector never yields a price, whatever the page shows. */
  lemma NoSelectorNoPrice(url: string, table: SelectorTable, hostOf: string -> Option<string>,
                          page: string -> Option<string>, parse: string -> Option<Price>)
    requires hostOf(url).Some?
    requires SelectorFor(table, NormalizeDomain(hostOf(url).value)).None?
    ensures CheckPrice(url, table, hostOf, page, parse).None?
  {
  }

  /** The two spellings of a shop's host look up the same selector, so the same
      page text gives the same result. */
  lemma WwwHostSameProbe(url1: string, url2: string, table: SelectorTable, hostOf: string -> Option<string>,
                         page: string -> Option<string>, parse: string -> Option<Price>)
    requires hostOf(url2).Some? && !HasWwwPrefix(hostOf(url2).value)
    requires hostOf(url1) == Some(WwwPrefix + hostOf(url2).value)
    ensures CheckPrice(url1, table, hostOf, page, parse) == CheckPrice(url2, table, hostOf, page, parse)
  {
    WwwVariantSameKey(hostOf(url2).value);
  }
}
