/** The price index that the widget's template is executed against: the two colour
    entries, then one entry per quote in list order (markets/widget.go:129-136). */
module PriceIndex {
  import opened Quotes

  /** The colour tokens the widget was configured with. */
  datatype Colors = Colors(name: string, value: string)

  const NameColorKey: string := "nameColor"
  const ValueColorKey: string := "valueColor"

  /** The map literal the index starts from. */
  function Seed(colors: Colors): (m: map<string, string>)
    ensures m.Keys == {NameColorKey, ValueColorKey}
    ensures m[NameColorKey] == colors.name && m[ValueColorKey] == colors.value
  {
    assert NameColorKey[0] != ValueColorKey[0];
    map[NameColorKey := colors.name, ValueColorKey := colors.value]
  }

  /** The index after the loop has consumed all of `quotes`, one insertion per quote
      in order, so that a later quote overwrites an earlier one with the same key. */
  function Index(colors: Colors, quotes: seq<Quote>, formatPrice: real -> string): (index: map<string, string>)
    ensures NameColorKey in index && ValueColorKey in index
    ensures forall i :: 0 <= i < |quotes| ==> Key(quotes[i]) in index
  {
    if quotes == [] then Seed(colors)
    else
      var front, last := quotes[..|quotes| - 1], quotes[|quotes| - 1];
      assert forall i :: 0 <= i < |front| ==> front[i] == quotes[i];
      Index(colors, front, formatPrice)[Key(last) := Price(last, formatPrice)]
  }

  /** The normalised names of all quotes in the list. */
  function NormalisedNames(quotes: seq<Quote>): set<string>
  {
    set i | 0 <= i < |quotes| :: Key(quotes[i])
  }

  lemma NormalisedNamesSnoc(quotes: seq<Quote>)
    requires quotes != []
    ensures NormalisedNames(quotes)
         == NormalisedNames(quotes[..|quotes| - 1]) + {Key(quotes[|quotes| - 1])}
  {
    var front := quotes[..|quotes| - 1];
    forall k | k in NormalisedNames(quotes)
      ensures k in NormalisedNames(front) + {Key(quotes[|quotes| - 1])}
    {
      var i :| 0 <= i < |quotes| && Key(quotes[i]) == k;
      if i < |quotes| - 1 {
        assert front[i] == quotes[i];
      }
    }
    forall k | k in NormalisedNames(front)
      ensures k in NormalisedNames(quotes)
    {
      var i :| 0 <= i < |front| && Key(front[i]) == k;
      assert quotes[i] == front[i];
    }
  }

  /** The key set is exactly the two colour keys and the normalised names. */
  lemma {:induction false} IndexKeys(colors: Colors, quotes: seq<Quote>, formatPrice: real -> string)
    ensures Index(colors, quotes, formatPrice).Keys
         == {NameColorKey, ValueColorKey} + NormalisedNames(quotes)
  {
    if quotes != [] {
      IndexKeys(colors, quotes[..|quotes| - 1], formatPrice);
      NormalisedNamesSnoc(quotes);
    }
  }

  /** Last write wins: a key carried by some quote maps to the price of the last
      quote in the list that carries it. */
  lemma {:induction false} IndexLastWriteWins(colors: Colors, quotes: seq<Quote>, formatPrice: real -> string, j: nat)
    requires j < |quotes|
    requires forall l :: j < l < |quotes| ==> Key(quotes[l]) != Key(quotes[j])
    ensures Key(quotes[j]) in Index(colors, quotes, formatPrice)
    ensures Index(colors, quotes, formatPrice)[Key(quotes[j])] == Price(quotes[j], formatPrice)
  {
    if j < |quotes| - 1 {
      var front := quotes[..|quotes| - 1];
      assert front[j] == quotes[j];
      forall l | j < l < |front| ensures Key(front[l]) != Key(front[j]) {
        assert front[l] == quotes[l];
      }
      IndexLastWriteWins(colors, front, formatPrice, j);
      assert Key(quotes[|quotes| - 1]) != Key(quotes[j]);
    }
  }

  /** A key that no quote normalises to keeps what the seed gave it: the colour
      entries survive unless a quote's normalised name collides with them. */
  lemma {:induction false} IndexUntouched(colors: Colors, quotes: seq<Quote>, formatPrice: real -> string, k: string)
    requires k !in NormalisedNames(quotes)
    ensures k in Index(colors, quotes, formatPrice) <==> k in Seed(colors)
    ensures k in Seed(colors) ==> Index(colors, quotes, formatPrice)[k] == Seed(colors)[k]
  {
    if quotes != [] {
      NormalisedNamesSnoc(quotes);
      IndexUntouched(colors, quotes[..|quotes| - 1], formatPrice, k);
    }
  }

  /** The colour entries hold the configured colours when no quote name collides
      with them. */
  lemma IndexColors(colors: Colors, quotes: seq<Quote>, formatPrice: real -> string)
    ensures NameColorKey in Index(colors, quotes, formatPrice)
    ensures ValueColorKey in Index(colors, quotes, formatPrice)
    ensures NameColorKey !in NormalisedNames(quotes)
        ==> Index(colors, quotes, formatPrice)[NameColorKey] == colors.name
    ensures ValueColorKey !in NormalisedNames(quotes)
        ==> Index(colors, quotes, formatPrice)[ValueColorKey] == colors.value
  {
    IndexKeys(colors, quotes, formatPrice);
    if NameColorKey !in NormalisedNames(quotes) {
      IndexUntouched(colors, quotes, formatPrice, NameColorKey);
    }
    if ValueColorKey !in NormalisedNames(quotes) {
      IndexUntouched(colors, quotes, formatPrice, ValueColorKey);
    }
  }

  /** Appending one more list to `first` unfolds like the list on its own. */
  lemma IndexAppendLast(colors: Colors, first: seq<Quote>, second: seq<Quote>, formatPrice: real -> string)
    requires second != []
    ensures Index(colors, first + second, formatPrice)
         == Index(colors, first + second[..|second| - 1], formatPrice)
              [Key(second[|second| - 1]) := Price(second[|second| - 1], formatPrice)]
  {
    var all := first + second;
    var last := second[|second| - 1];
    assert all != [];
    assert all[..|all| - 1] == first + second[..|second| - 1];
    assert all[|all| - 1] == last;
    assert Index(colors, all, formatPrice)
        == Index(colors, all[..|all| - 1], formatPrice)[Key(last) := Price(last, formatPrice)];
  }

  /** When the gold list is followed by the currency list, every key the currency
      list carries takes its value from the currency list, whatever the gold list held. */
  lemma {:induction false} IndexLaterListWins(colors: Colors, first: seq<Quote>, second: seq<Quote>,
                                               formatPrice: real -> string, k: string)
    requires k in NormalisedNames(second)
    ensures k in Index(colors, first + second, formatPrice)
    ensures k in Index(colors, second, formatPrice)
    ensures Index(colors, first + second, formatPrice)[k] == Index(colors, second, formatPrice)[k]
    decreases |second|
  {
    assert second != [];
    var front := second[..|second| - 1];
    NormalisedNamesSnoc(second);
    IndexAppendLast(colors, first, second, formatPrice);
    if Key(second[|second| - 1]) != k {
      IndexLaterListWins(colors, first, front, formatPrice, k);
    }
  }

  /** With pairwise distinct normalised names, none equal to a colour key, the index
      holds one entry per quote plus the two colour entries. */
  lemma {:induction false} IndexSize(colors: Colors, quotes: seq<Quote>, formatPrice: real -> string)
    requires forall i, j :: 0 <= i < j < |quotes| ==> Key(quotes[i]) != Key(quotes[j])
    requires NameColorKey !in NormalisedNames(quotes) && ValueColorKey !in NormalisedNames(quotes)
    ensures |Index(colors, quotes, formatPrice)| == |quotes| + 2
  {
    if quotes == [] {
      assert Seed(colors).Keys == {NameColorKey, ValueColorKey};
    } else {
      var front := quotes[..|quotes| - 1];
      var last := quotes[|quotes| - 1];
      NormalisedNamesSnoc(quotes);
      IndexSize(colors, front, formatPrice);
      IndexKeys(colors, front, formatPrice);
      assert Key(last) !in NormalisedNames(front);
      var m := Index(colors, front, formatPrice);
      assert Key(last) !in m;
      assert m[Key(last) := Price(last, formatPrice)].Keys == m.Keys + {Key(last)};
    }
  }

  /** The position of the last quote before position `n` whose normalised name is
      `key`, or -1 when none of them carries it. */
  function LastCarryingBefore(quotes: seq<Quote>, key: string, n: nat): (j: int)
    requires n <= |quotes|
    ensures -1 <= j < n
    ensures 0 <= j ==> Key(quotes[j]) == key
    ensures forall l :: j < l < n ==> Key(quotes[l]) != key
  {
    if n == 0 then -1
    else if Key(quotes[n - 1]) == key then n - 1
    else LastCarryingBefore(quotes, key, n - 1)
  }

  /** The position of the last quote whose normalised name is `key`, or -1 when no
      quote carries it. */
  function LastCarrying(quotes: seq<Quote>, key: string): (j: int)
    ensures -1 <= j < |quotes|
    ensures 0 <= j ==> Key(quotes[j]) == key
    ensures 0 <= j ==> forall l :: j < l < |quotes| ==> Key(quotes[l]) != key
    ensures j == -1 <==> key !in NormalisedNames(quotes)
  {
    LastCarryingBefore(quotes, key, |quotes|)
  }

  /** Looking an instrument key up in the index finds the price of the last quote
      carrying it, and nothing when no quote carries it. */
  lemma IndexAt(colors: Colors, quotes: seq<Quote>, formatPrice: real -> string, key: string)
    requires key != NameColorKey && key != ValueColorKey
    ensures key in Index(colors, quotes, formatPrice) <==> LastCarrying(quotes, key) >= 0
    ensures LastCarrying(quotes, key) >= 0
        ==> Index(colors, quotes, formatPrice)[key] == Price(quotes[LastCarrying(quotes, key)], formatPrice)
  {
    var j := LastCarrying(quotes, key);
    var m := Index(colors, quotes, formatPrice);
    IndexKeys(colors, quotes, formatPrice);
    assert key in m <==> key in NormalisedNames(quotes);
    if j >= 0 {
      IndexLastWriteWins(colors, quotes, formatPrice, j);
    }
  }
}
