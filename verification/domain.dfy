/**
 * Selector-table keys. A host name is turned into a key by stripping one
 * leading "www." label (main.py, normalize_domain).
 */
module Domain {

  const WwwPrefix: string := "www."

  predicate HasWwwPrefix(host: string) {
    |host| >= 4 && host[..4] == WwwPrefix
  }

  /** The selector-table key for a host: the host without one leading "www.". */
  function NormalizeDomain(host: string): (key: string)
    ensures |key| <= |host| && key == host[|host| - |key|..]
    ensures host == (if HasWwwPrefix(host) then WwwPrefix + key else key)
    ensures HasWwwPrefix(host) ==> |key| == |host| - 4
  {
    if HasWwwPrefix(host) then host[4..] else host
  }

  /** Prepending "www." to a host leaves its key unchanged exactly when the host
      does not itself start with "www.". */
  lemma WwwVariantSameKey(host: string)
    ensures NormalizeDomain(WwwPrefix + host) == host
    ensures NormalizeDomain(WwwPrefix + host) == NormalizeDomain(host) <==> !HasWwwPrefix(host)
  {
    var w := WwwPrefix + host;
    assert w[..4] == WwwPrefix;
    assert w[4..] == host;
    if HasWwwPrefix(host) {
      assert |NormalizeDomain(host)| == |host| - 4;
    }
  }

  /** Normalising twice is the same as normalising once exactly when the host does
      not begin with two "www." labels. */
  lemma IdempotentUnlessDoubleWww(host: string)
    ensures NormalizeDomain(NormalizeDomain(host)) == NormalizeDomain(host)
        <==> !(HasWwwPrefix(host) && HasWwwPrefix(host[4..]))
  {
    if HasWwwPrefix(host) {
      var k := host[4..];
      assert NormalizeDomain(host) == k;
      if HasWwwPrefix(k) {
        assert |NormalizeDomain(k)| == |k| - 4;
      }
    }
  }

  /** A shop's key does not depend on whether the link carries "www.". */
  lemma ExampleKeys()
    ensures NormalizeDomain("www.shop.co.za") == NormalizeDomain("shop.co.za") == "shop.co.za"
  {
    var h := "shop.co.za";
    assert h[..4] != WwwPrefix by { assert h[0] != 'w'; }
    assert "www.shop.co.za" == WwwPrefix + h;
    WwwVariantSameKey(h);
  }

  /** A host starting "www.www." loses only its first "www.". */
  lemma ExampleDoubleWww()
    ensures NormalizeDomain(NormalizeDomain("www.www.a.za")) != NormalizeDomain("www.www.a.za")
  {
    var d := "www.www.a.za";
    assert d == WwwPrefix + (WwwPrefix + "a.za");
    assert d[4..] == WwwPrefix + "a.za";
    IdempotentUnlessDoubleWww(d);
  }
}
