/** Quotes served by the two price endpoints, and the normalisation of their names
    into price-index keys (markets/widget.go:24-35, 133-136). */
module Quotes {

  /** One element of the JSON array an endpoint returns. Only `selling` and `name`
      are used downstream; the other fields are carried but never read. */
  datatype Quote = Quote(
    selling: real,
    updateDate: real,
    buying: real,
    changeRate: real,
    name: string,
    fullName: string,
    shortName: string,
    sourceName: string,
    sourceFullName: string,
    code: string)

  /** The suffix appended to every formatted price: a space followed by the three
      characters U+00E2 U+201A U+00BA, which is what the literal holds as written
      (the UTF-8 bytes of the Turkish lira sign U+20BA read as Windows-1252). */
  const LiraSuffix: string := " \U{E2}\U{201A}\U{BA}"

  /** `s` with every '-' removed and every other character kept. */
  function RemoveHyphens(s: string): (r: string)
    ensures '-' !in r
    ensures |r| <= |s|
  {
    if s == [] then []
    else if s[0] == '-' then RemoveHyphens(s[1..])
    else [s[0]] + RemoveHyphens(s[1..])
  }

  /** The normalised name holds no '-' and keeps every other character of the name,
      each as often as it occurs there. */
  lemma {:induction false} RemoveHyphensRemovesAll(s: string)
    ensures '-' !in RemoveHyphens(s)
    ensures multiset(RemoveHyphens(s)) == multiset(s)['-' := 0]
  {
    if s != [] {
      assert s == [s[0]] + s[1..];
      RemoveHyphensRemovesAll(s[1..]);
    }
  }

  /** Removing hyphens commutes with concatenation: together with the one-character
      cases below this pins down that the other characters keep their order. */
  lemma {:induction false} RemoveHyphensAppend(a: string, b: string)
    ensures RemoveHyphens(a + b) == RemoveHyphens(a) + RemoveHyphens(b)
  {
    if a == [] {
      assert a + b == b;
    } else {
      assert (a + b)[0] == a[0];
      assert (a + b)[1..] == a[1..] + b;
      RemoveHyphensAppend(a[1..], b);
    }
  }

  /** A single character is dropped exactly when it is '-'. */
  lemma RemoveHyphensChar(c: char)
    ensures RemoveHyphens([c]) == if c == '-' then [] else [c]
  {
    assert [c][1..] == [];
  }

  /** A name is left untouched exactly when it holds no '-'. */
  lemma {:induction false} RemoveHyphensFixed(s: string)
    ensures RemoveHyphens(s) == s <==> '-' !in s
  {
    if s != [] {
      assert s == [s[0]] + s[1..];
      RemoveHyphensFixed(s[1..]);
      if s[0] == '-' {
        assert '-' in s;
        assert |RemoveHyphens(s)| < |s| by { RemoveHyphensShorter(s); }
      }
    }
  }

  /** Removing a hyphen shortens the string; otherwise the length is kept. */
  lemma {:induction false} RemoveHyphensShorter(s: string)
    ensures |RemoveHyphens(s)| <= |s|
    ensures '-' in s ==> |RemoveHyphens(s)| < |s|
  {
    if s != [] {
      RemoveHyphensShorter(s[1..]);
    }
  }

  /** Normalising twice is the same as normalising once. */
  lemma RemoveHyphensIdempotent(s: string)
    ensures RemoveHyphens(RemoveHyphens(s)) == RemoveHyphens(s)
  {
    RemoveHyphensFixed(RemoveHyphens(s));
  }

  /** The price-index key of a quote: its name with every '-' removed. */
  function Key(q: Quote): string
  {
    RemoveHyphens(q.name)
  }

  /** The price-index value of a quote: its selling price formatted by `formatPrice`
      (fixed point, three decimals, float32 precision) and the currency suffix. */
  function Price(q: Quote, formatPrice: real -> string): string
  {
    formatPrice(q.selling) + LiraSuffix
  }
}
