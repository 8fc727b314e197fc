/**
 * Clean-up of the scraped price element's text before it is parsed as a
 * number (main.py, check_price): every 'R' and every ',' is removed, the
 * result is stripped of surrounding whitespace, and if a newline remains only
 * the text before the first newline is kept.
 */
module PriceText {

  /** The characters Python's str.strip() removes when called without arguments. */
  const SpaceChars: set<char> := {
    '\t', '\n', '\U{B}', '\U{C}', '\r', '\U{1C}', '\U{1D}', '\U{1E}', '\U{1F}', ' ',
    '\U{85}', '\U{A0}', '\U{1680}', '\U{2000}', '\U{2001}', '\U{2002}', '\U{2003}',
    '\U{2004}', '\U{2005}', '\U{2006}', '\U{2007}', '\U{2008}', '\U{2009}', '\U{200A}',
    '\U{2028}', '\U{2029}', '\U{202F}', '\U{205F}', '\U{3000}'
  }

  predicate IsSpace(c: char) {
    c in SpaceChars
  }

  predicate AllSpace(s: string) {
    forall k {:trigger IsSpace(s[k])} :: 0 <= k < |s| ==> IsSpace(s[k])
  }

  /** s.replace(c, ''): s with every occurrence of c dropped. */
  function RemoveAll(s: string, c: char): (r: string)
    ensures |r| <= |s|
  {
    if s == [] then [] else (if s[0] == c then [] else [s[0]]) + RemoveAll(s[1..], c)
  }

  /** replace(c, '') removes every c and keeps every other character, as often as it occurs. */
  lemma {:induction false} RemoveAllCounts(s: string, c: char)
    ensures multiset(RemoveAll(s, c)) == multiset(s)[c := 0]
    ensures c !in RemoveAll(s, c)
  {
    if s != [] {
      var u := s[1..];
      assert s == [s[0]] + u;
      RemoveAllCons(s[0], u, c);
      RemoveAllCounts(u, c);
    }
  }

  /** The number of whitespace characters at the start of s. */
  function LeadingSpace(s: string): (n: nat)
    ensures n <= |s| && AllSpace(s[..n])
    ensures n < |s| ==> !IsSpace(s[n])
    ensures n == 0 <==> s == [] || !IsSpace(s[0])
  {
    if s != [] && IsSpace(s[0]) then
      var n := 1 + LeadingSpace(s[1..]);
      assert s[..n] == [s[0]] + s[1..][..n - 1];
      n
    else 0
  }

  /** The number of whitespace characters at the end of s. */
  function TrailingSpace(s: string): (n: nat)
    ensures n <= |s| && AllSpace(s[|s| - n..])
    ensures n < |s| ==> !IsSpace(s[|s| - n - 1])
    ensures n == 0 <==> s == [] || !IsSpace(s[|s| - 1])
  {
    if s != [] && IsSpace(s[|s| - 1]) then
      var n := 1 + TrailingSpace(s[..|s| - 1]);
      assert s[|s| - n..] == s[..|s| - 1][|s| - n..] + [s[|s| - 1]];
      n
    else 0
  }

  /** s.lstrip() */
  function StripLeft(s: string): string {
    s[LeadingSpace(s)..]
  }

  /** s.rstrip() */
  function StripRight(s: string): string {
    s[..|s| - TrailingSpace(s)]
  }

  /** s.strip(): s without its leading and trailing whitespace. */
  function Strip(s: string): (r: string)
    ensures r == [] || (!IsSpace(r[0]) && !IsSpace(r[|r| - 1]))
  {
    StripRight(StripLeft(s))
  }

  /** What strip() returns is a contiguous piece of its input, and only
      whitespace lies on either side of it. */
  lemma {:induction false} StripIsInfix(s: string)
    ensures var r := Strip(s); var i := LeadingSpace(s);
      i + |r| <= |s| && r == s[i..i + |r|] && AllSpace(s[..i]) && AllSpace(s[i + |r|..])
  {
    var i := LeadingSpace(s);
    StripInfixAt(s, i, TrailingSpace(s[i..]), Strip(s));
  }

  lemma {:induction false} StripInfixAt(s: string, i: nat, j: nat, r: string)
    requires i == LeadingSpace(s) && j == TrailingSpace(s[i..]) && r == Strip(s)
    ensures i + |r| <= |s| && r == s[i..i + |r|] && AllSpace(s[..i]) && AllSpace(s[i + |r|..])
  {
    StripShape(s, i, j);
    TrimmedSlices(s, i, j, r);
  }

  /** strip() is lstrip() followed by rstrip(), written out as slices. */
  lemma {:induction false} StripShape(s: string, i: nat, j: nat)
    requires i == LeadingSpace(s) && j == TrailingSpace(s[i..])
    ensures i + j <= |s| && Strip(s) == s[i..][..|s| - i - j]
    ensures AllSpace(s[..i]) && AllSpace(s[i..][|s| - i - j..])
  {
    var t := StripLeft(s);
    assert t == s[i..] && |t| == |s| - i;
    assert Strip(s) == StripRight(t) == t[..|t| - j];
  }

  /** Dropping i characters in front and then j behind leaves s[i..|s| - j]. */
  lemma {:induction false} TrimmedSlices(s: string, i: nat, j: nat, r: string)
    requires i + j <= |s| && r == s[i..][..|s| - i - j]
    requires AllSpace(s[..i]) && AllSpace(s[i..][|s| - i - j..])
    ensures i + |r| <= |s| && r == s[i..i + |r|] && AllSpace(s[..i]) && AllSpace(s[i + |r|..])
  {
    assert s[i + (|s| - i - j)..] == s[i..][|s| - i - j..];
  }

  lemma {:induction false} StripAddsNothing(s: string, c: char)
    requires c !in s
    ensures c !in Strip(s)
  {
    StripIsInfix(s);
  }

  /** The index of the first newline in s, or |s| when there is none. */
  function LineEnd(s: string): (n: nat)
    ensures n <= |s| && '\n' !in s[..n]
    ensures n < |s| ==> s[n] == '\n'
  {
    if s == [] || s[0] == '\n' then 0
    else
      var n := 1 + LineEnd(s[1..]);
      assert s[..n] == [s[0]] + s[1..][..n - 1];
      n
  }

  /** s.split('\n')[0]: the text before the first newline, or all of s if it has none. */
  function FirstLine(s: string): (r: string)
    ensures |r| <= |s| && r == s[..|r|] && '\n' !in r
    ensures |r| < |s| ==> s[|r|] == '\n'
  {
    s[..LineEnd(s)]
  }

  /** The text after 'R' and ',' are removed and surrounding whitespace stripped. */
  function Trimmed(text: string): (r: string)
    ensures r == [] || (!IsSpace(r[0]) && !IsSpace(r[|r| - 1]))
  {
    Strip(RemoveAll(RemoveAll(text, 'R'), ','))
  }

  /** The string handed to the number parser for an element whose text is `text`:
      the trimmed text up to, not including, its first newline. */
  function CleanPriceText(text: string): (r: string)
    ensures |r| <= |Trimmed(text)| && r == Trimmed(text)[..|r|]
    ensures |r| < |Trimmed(text)| ==> Trimmed(text)[|r|] == '\n'
    ensures r == [] || !IsSpace(r[0])
  {
    var t := Trimmed(text);
    if '\n' in t then FirstLine(t) else t
  }

  /** No currency letter, no thousands separator and no line break reaches the parser. */
  lemma {:induction false} CleanedHasNoSeparators(text: string)
    ensures var r := CleanPriceText(text); 'R' !in r && ',' !in r && '\n' !in r
  {
    var u := RemoveAll(RemoveAll(text, 'R'), ',');
    RemoveAllCounts(text, 'R');
    RemoveAllCounts(RemoveAll(text, 'R'), ',');
    assert multiset(u)['R'] == 0;
    StripAddsNothing(u, 'R');
    StripAddsNothing(u, ',');
    var t := Strip(u);
    if '\n' in t {
      var r := FirstLine(t);
      assert r == t[..|r|];
    }
  }

  /** replace(c, '') acts on the two halves of a concatenation independently. */
  lemma {:induction false} RemoveAllAppend(s: string, t: string, c: char)
    ensures RemoveAll(s + t, c) == RemoveAll(s, c) + RemoveAll(t, c)
  {
    if s == [] {
      assert s + t == t;
    } else {
      var u := s[1..];
      var h := if s[0] == c then [] else [s[0]];
      assert s == [s[0]] + u && s + t == [s[0]] + (u + t);
      RemoveAllCons(s[0], u, c);
      RemoveAllCons(s[0], u + t, c);
      RemoveAllAppend(u, t, c);
      assert h + (RemoveAll(u, c) + RemoveAll(t, c)) == (h + RemoveAll(u, c)) + RemoveAll(t, c);
    }
  }

  /** One step of replace(c, ''): the first character is dropped exactly when it is c. */
  lemma {:induction false} RemoveAllCons(x: char, u: string, c: char)
    ensures RemoveAll([x] + u, c) == (if x == c then [] else [x]) + RemoveAll(u, c)
  {
    assert ([x] + u)[0] == x && ([x] + u)[1..] == u;
  }

  lemma {:induction false} RemoveAllSingle(x: char, c: char)
    ensures RemoveAll([x], c) == if x == c then [] else [x]
  {
    assert [x][1..] == [];
  }

  /** replace(c, '') leaves a string without c unchanged. */
  lemma {:induction false} RemoveAllAbsent(s: string, c: char)
    requires c !in s
    ensures RemoveAll(s, c) == s
  {
    if s != [] {
      RemoveAllAbsent(s[1..], c);
    }
  }

  /** strip() leaves a string that neither starts nor ends with whitespace unchanged. */
  lemma {:induction false} StripUnpadded(s: string)
    requires s == [] || (!IsSpace(s[0]) && !IsSpace(s[|s| - 1]))
    ensures Strip(s) == s
  {
    assert LeadingSpace(s) == 0;
    assert StripLeft(s) == s;
    assert TrailingSpace(s) == 0;
  }

  /** Digits and decimal points, as a shop prints an amount once 'R' and ',' are gone. */
  predicate Numeral(s: string) {
    s != [] && forall k :: 0 <= k < |s| ==> ('0' <= s[k] <= '9' || s[k] == '.')
  }

  lemma {:induction false} NumeralPlain(s: string)
    requires Numeral(s)
    ensures 'R' !in s && ',' !in s && '\n' !in s
    ensures !IsSpace(s[0]) && !IsSpace(s[|s| - 1])
  {
  }

  lemma {:induction false} DropCurrency(a: string, sep: char, b: string)
    requires 'R' !in a && 'R' !in b && sep != 'R'
    ensures RemoveAll("R" + a + [sep] + b, 'R') == a + ([sep] + b)
  {
    RemoveAllAbsent(a, 'R');
    RemoveAllAbsent(b, 'R');
    assert "R" + a + [sep] + b == "R" + (a + ([sep] + b));
    RemoveAllAppend("R", a + ([sep] + b), 'R');
    RemoveAllAppend(a, [sep] + b, 'R');
    RemoveAllAppend([sep], b, 'R');
    RemoveAllSingle('R', 'R');
    RemoveAllSingle(sep, 'R');
  }

  lemma {:induction false} DropSeparator(a: string, sep: char, b: string)
    requires sep !in a && sep !in b
    ensures RemoveAll(a + ([sep] + b), sep) == a + b
  {
    calc {
      RemoveAll(a + ([sep] + b), sep);
      == { RemoveAllAppend(a, [sep] + b, sep); }
      RemoveAll(a, sep) + RemoveAll([sep] + b, sep);
      == { RemoveAllAppend([sep], b, sep); }
      RemoveAll(a, sep) + (RemoveAll([sep], sep) + RemoveAll(b, sep));
      == { RemoveAllSingle(sep, sep); RemoveAllAbsent(a, sep); RemoveAllAbsent(b, sep); }
      a + ([] + b);
    }
    assert [] + b == b;
  }

  lemma {:induction false} DropBothCurrencies(a: string, b: string)
    requires 'R' !in a && 'R' !in b
    ensures RemoveAll("R" + a + "\nR" + b, 'R') == a + ("\n" + b)
  {
    var s := "R" + a + "\nR" + b;
    assert s == ['R'] + (a + (['\n'] + (['R'] + b)));
    calc {
      RemoveAll(s, 'R');
      == { RemoveAllAppend(['R'], a + (['\n'] + (['R'] + b)), 'R'); RemoveAllSingle('R', 'R'); }
      [] + RemoveAll(a + (['\n'] + (['R'] + b)), 'R');
      == { RemoveAllAppend(a, ['\n'] + (['R'] + b), 'R'); RemoveAllAbsent(a, 'R'); }
      [] + (a + RemoveAll(['\n'] + (['R'] + b), 'R'));
      == { RemoveAllAppend(['\n'], ['R'] + b, 'R'); RemoveAllSingle('\n', 'R'); }
      [] + (a + (['\n'] + RemoveAll(['R'] + b, 'R')));
      == { RemoveAllAppend(['R'], b, 'R'); RemoveAllSingle('R', 'R'); RemoveAllAbsent(b, 'R'); }
      [] + (a + (['\n'] + ([] + b)));
    }
    assert [] + (a + (['\n'] + ([] + b))) == a + ("\n" + b);
  }

  /** When removing 'R' and ',' leaves no surrounding whitespace, the cleaned
      text is the first line of what remains. */
  lemma {:induction false} CleanOfUnpadded(text: string)
    requires var v := RemoveAll(RemoveAll(text, 'R'), ',');
      v == [] || (!IsSpace(v[0]) && !IsSpace(v[|v| - 1]))
    ensures CleanPriceText(text) == FirstLine(RemoveAll(RemoveAll(text, 'R'), ','))
  {
    var v := RemoveAll(RemoveAll(text, 'R'), ',');
    StripUnpadded(v);
    if '\n' !in v {
      assert LineEnd(v) == |v|;
    }
  }

  /** "R1,234.00" and its like clean to the bare digits "1234.00". */
  lemma {:induction false} CleanThousands(a: string, b: string)
    requires Numeral(a) && Numeral(b)
    ensures CleanPriceText("R" + a + "," + b) == a + b
  {
    NumeralPlain(a);
    NumeralPlain(b);
    DropCurrency(a, ',', b);
    DropSeparator(a, ',', b);
    var u := a + b;
    assert u[0] == a[0] && u[|u| - 1] == b[|b| - 1];
    StripUnpadded(u);
    assert '\n' !in u;
  }

  /** An element showing the current price above a struck-out former one
      ("R99" on one line, "R120" on the next) yields only the first amount. */
  lemma {:induction false} CleanTwoPrices(a: string, b: string)
    requires Numeral(a) && Numeral(b)
    ensures CleanPriceText("R" + a + "\nR" + b) == a
  {
    NumeralPlain(a);
    NumeralPlain(b);
    DropBothCurrencies(a, b);
    var u := a + ("\n" + b);
    assert ',' !in u;
    RemoveAllAbsent(u, ',');
    assert u[0] == a[0] && u[|u| - 1] == b[|b| - 1];
    CleanOfUnpadded("R" + a + "\nR" + b);
    FirstLineOf(a, b);
  }

  /** split('\n')[0] of a text with a newline after its first part is that part. */
  lemma {:induction false} FirstLineOf(a: string, b: string)
    requires '\n' !in a
    ensures FirstLine(a + ("\n" + b)) == a
  {
    var u := a + ("\n" + b);
    assert u[|a|] == '\n';
    assert u[..|a|] == a;
  }
}
