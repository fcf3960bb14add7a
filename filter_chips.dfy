/** The price chips above a listing: each copies the current query string,
    sets `price` on the copy and navigates to it. */
module FilterChips {
  import opened Common

  type Entry = (string, string)

  /** The entries of `e` whose key is not `k`, in order. */
  function Without(e: seq<Entry>, k: string): (r: seq<Entry>)
    ensures forall x :: x in r <==> x in e && x.0 != k
    ensures |r| <= |e|
  {
    if e == [] then []
    else if e[0].0 == k then Without(e[1..], k)
    else [e[0]] + Without(e[1..], k)
  }

  /** The values under key `k`, in order. */
  function ValuesOf(e: seq<Entry>, k: string): seq<string> {
    if e == [] then []
    else if e[0].0 == k then [e[0].1] + ValuesOf(e[1..], k)
    else ValuesOf(e[1..], k)
  }

  /** `URLSearchParams.set(k, v)`: the first entry under `k` takes the value
      `v` in place and later ones are removed; without one, the pair is
      appended. */
  function SetParam(e: seq<Entry>, k: string, v: string): seq<Entry> {
    if e == [] then [(k, v)]
    else if e[0].0 == k then [(k, v)] + Without(e[1..], k)
    else [e[0]] + SetParam(e[1..], k, v)
  }

  lemma {:induction false} ValuesOfWithout(e: seq<Entry>, k: string)
    ensures ValuesOf(Without(e, k), k) == []
  {
    if e != [] {
      ValuesOfWithout(e[1..], k);
      if e[0].0 != k {
        assert ([e[0]] + Without(e[1..], k))[1..] == Without(e[1..], k);
      }
    }
  }

  lemma {:induction false} WithoutTwice(e: seq<Entry>, k: string)
    ensures Without(Without(e, k), k) == Without(e, k)
  {
    if e != [] {
      WithoutTwice(e[1..], k);
      if e[0].0 != k {
        assert ([e[0]] + Without(e[1..], k))[1..] == Without(e[1..], k);
      }
    }
  }

  /** After setting, `k` has exactly the one value `v`. */
  lemma {:induction false} SetParamValue(e: seq<Entry>, k: string, v: string)
    ensures ValuesOf(SetParam(e, k, v), k) == [v]
  {
    if e == [] {
    } else if e[0].0 == k {
      ValuesOfWithout(e[1..], k);
      assert ([(k, v)] + Without(e[1..], k))[1..] == Without(e[1..], k);
    } else {
      SetParamValue(e[1..], k, v);
      assert ([e[0]] + SetParam(e[1..], k, v))[1..] == SetParam(e[1..], k, v);
    }
  }

  /** Setting `k` leaves every other entry as it was, in the same order. */
  lemma {:induction false} SetParamKeepsOthers(e: seq<Entry>, k: string, v: string)
    ensures Without(SetParam(e, k, v), k) == Without(e, k)
  {
    if e == [] {
      assert Without([(k, v)], k) == Without([(k, v)][1..], k);
    } else if e[0].0 == k {
      WithoutTwice(e[1..], k);
      assert ([(k, v)] + Without(e[1..], k))[1..] == Without(e[1..], k);
    } else {
      SetParamKeepsOthers(e[1..], k, v);
      assert ([e[0]] + SetParam(e[1..], k, v))[1..] == SetParam(e[1..], k, v);
    }
  }

  /** Setting `k` twice is setting it to the second value: the last chip
      wins, and applying one chip twice is applying it once. */
  lemma {:induction false} SetParamLastWins(e: seq<Entry>, k: string, v1: string, v2: string)
    ensures SetParam(SetParam(e, k, v1), k, v2) == SetParam(e, k, v2)
  {
    if e == [] {
      assert SetParam([(k, v1)], k, v2) == [(k, v2)] + Without([], k);
    } else if e[0].0 == k {
      WithoutTwice(e[1..], k);
      assert ([(k, v1)] + Without(e[1..], k))[1..] == Without(e[1..], k);
    } else {
      SetParamLastWins(e[1..], k, v1, v2);
      assert ([e[0]] + SetParam(e[1..], k, v1))[1..] == SetParam(e[1..], k, v1);
    }
  }

  /** A query string as an ordered list of key/value pairs. */
  class SearchParams {
    var entries: seq<Entry>

    /** `new URLSearchParams(other)`: a copy. */
    constructor (other: SearchParams)
      ensures entries == other.entries
    {
      entries := other.entries;
    }

    method Set(k: string, v: string)
      modifies this
      ensures entries == SetParam(old(entries), k, v)
    {
      entries := SetParam(entries, k, v);
    }
  }

  /** A chip: its label (`name`) and the value its `set` gives to `price`. */
  datatype Chip = Chip(name: string, price: string)

  const PriceChips: seq<Chip> := [Chip("Under $50", "50"), Chip("Under $100", "100"), Chip("Under $200", "200")]

  /** Each chip's label names its price cap, and the labels, the chips'
      React keys, are distinct. */
  lemma ChipLabelsNamePrices()
    ensures forall c :: c in PriceChips ==> c.name == "Under $" + c.price
    ensures forall i, j :: 0 <= i < j < |PriceChips| ==> PriceChips[i].name != PriceChips[j].name
  {
  }

  /** `applyChip`: the returned copy carries the chip's price; the current
      parameters are not touched. */
  method ApplyChip(current: SearchParams, chip: Chip) returns (params: SearchParams)
    ensures fresh(params)
    ensures params.entries == SetParam(current.entries, "price", chip.price)
    ensures current.entries == old(current.entries)
  {
    params := new SearchParams(current);
    params.Set("price", chip.price);
  }
}
