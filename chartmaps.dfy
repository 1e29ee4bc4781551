/** The category map of a report: a java.util.LinkedHashMap from category key
    to chart, modelled as the sequence of its entries in insertion order. */
module ChartMaps {
  /** One series of a chart: its name and its points. */
  datatype Line = Line(name: string, xs: seq<real>, ys: seq<real>)

  /** The chart of one category key, with its series in the order they are added. */
  datatype Chart = Chart(key: string, lines: seq<Line>)

  predicate NoDup(s: seq<string>) {
    forall a, b :: 0 <= a < b < |s| ==> s[a] != s[b]
  }

  function Keys(m: seq<Chart>): (ks: seq<string>)
    ensures |ks| == |m|
  {
    seq(|m|, p requires 0 <= p < |m| => m[p].key)
  }

  /** The key order of an insertion-ordered map: a new key goes last, a known
      key keeps its place. */
  function Insert(ks: seq<string>, x: string): seq<string> {
    if x in ks then ks else ks + [x]
  }

  /** The key order after putting the keys xs, in order, into an empty map. */
  function InsertAll(xs: seq<string>): seq<string> {
    if |xs| == 0 then [] else Insert(InsertAll(xs[..|xs| - 1]), xs[|xs| - 1])
  }

  /** LinkedHashMap.put: a new key is appended; a known key keeps its place and
      gets the new chart. */
  function Put(m: seq<Chart>, c: Chart): (r: seq<Chart>)
    ensures Keys(r) == Insert(Keys(m), c.key)
    ensures c.key !in Keys(m) ==> r == m + [c]
    ensures c.key in Keys(m) ==> |r| == |m|
  {
    if |m| == 0 then [c]
    else if m[0].key == c.key then
      assert c.key in Keys(m) by { assert Keys(m)[0] == c.key; }
      assert Keys([c] + m[1..]) == Keys(m);
      [c] + m[1..]
    else
      var rest := Put(m[1..], c);
      assert Keys(m) == [m[0].key] + Keys(m[1..]);
      assert Keys([m[0]] + rest) == [m[0].key] + Keys(rest);
      [m[0]] + rest
  }

  /** The puts of cs, one after the other. */
  function PutAll(m: seq<Chart>, cs: seq<Chart>): seq<Chart> {
    if |cs| == 0 then m else Put(PutAll(m, cs[..|cs| - 1]), cs[|cs| - 1])
  }

  lemma PutAllOne(m: seq<Chart>, a: Chart)
    ensures PutAll(m, [a]) == Put(m, a)
  {
    assert [a][..0] == [];
  }

  lemma PutAllTwo(m: seq<Chart>, a: Chart, b: Chart)
    ensures PutAll(m, [a, b]) == Put(Put(m, a), b)
  {
    assert [a, b][..1] == [a];
    PutAllOne(m, a);
  }

  lemma KeysConcat(a: seq<Chart>, b: seq<Chart>)
    ensures Keys(a + b) == Keys(a) + Keys(b)
  {
  }

  lemma NoDupPrefix(s: seq<string>, n: nat)
    requires NoDup(s) && n <= |s|
    ensures NoDup(s[..n])
  {
    forall a, b | 0 <= a < b < n
      ensures s[..n][a] != s[..n][b]
    {
      assert s[..n][a] == s[a] && s[..n][b] == s[b];
    }
  }

  /** Every chart of a put is the new one or one that was there. */
  lemma {:induction false} PutMembers(m: seq<Chart>, c: Chart)
    ensures c in Put(m, c)
    ensures forall x :: x in Put(m, c) ==> x in m || x == c
  {
    if |m| > 0 && m[0].key != c.key {
      PutMembers(m[1..], c);
    }
  }

  lemma InsertAllSnoc(a: seq<string>, x: string)
    ensures InsertAll(a + [x]) == Insert(InsertAll(a), x)
  {
    assert (a + [x])[..|a|] == a;
  }

  /** The map holds exactly the keys put. */
  lemma {:induction false} InsertAllMembers(xs: seq<string>)
    ensures forall x :: x in InsertAll(xs) <==> x in xs
  {
    if |xs| > 0 {
      InsertAllMembers(xs[..|xs| - 1]);
      assert xs == xs[..|xs| - 1] + [xs[|xs| - 1]];
    }
  }

  /** When no key is put twice, the map's key order is the put order. */
  lemma {:induction false} InsertAllDistinct(xs: seq<string>)
    requires NoDup(xs)
    ensures InsertAll(xs) == xs
  {
    if |xs| > 0 {
      var init := xs[..|xs| - 1];
      var last := xs[|xs| - 1];
      NoDupPrefix(xs, |xs| - 1);
      InsertAllDistinct(init);
      assert xs == init + [last];
      forall q | 0 <= q < |init|
        ensures init[q] != last
      {
        assert init[q] == xs[q];
      }
    }
  }

  /** Putting cs continues the key order of the puts before. */
  lemma {:induction false} PutAllKeys(m: seq<Chart>, cs: seq<Chart>, a: seq<string>)
    requires Keys(m) == InsertAll(a)
    ensures Keys(PutAll(m, cs)) == InsertAll(a + Keys(cs))
  {
    if |cs| == 0 {
      assert a + Keys(cs) == a;
    } else {
      var init := cs[..|cs| - 1];
      var c := cs[|cs| - 1];
      PutAllKeys(m, init, a);
      assert cs == init + [c];
      KeysConcat(init, [c]);
      assert a + Keys(cs) == (a + Keys(init)) + [c.key];
      InsertAllSnoc(a + Keys(init), c.key);
    }
  }

  /** Putting charts with new, distinct keys appends them. */
  lemma {:induction false} PutAllFresh(m: seq<Chart>, cs: seq<Chart>)
    requires NoDup(Keys(m) + Keys(cs))
    ensures PutAll(m, cs) == m + cs
  {
    if |cs| > 0 {
      var init := cs[..|cs| - 1];
      var c := cs[|cs| - 1];
      var all := Keys(m) + Keys(cs);
      assert cs == init + [c];
      KeysConcat(init, [c]);
      assert Keys(m) + Keys(init) == all[..|all| - 1];
      NoDupPrefix(all, |all| - 1);
      PutAllFresh(m, init);
      KeysConcat(m, init);
      forall q | 0 <= q < |m + init|
        ensures Keys(m + init)[q] != c.key
      {
        assert Keys(m + init)[q] == all[q];
        assert all[|all| - 1] == c.key;
      }
      assert m + cs == (m + init) + [c];
    }
  }

  /** Every chart after the puts is one that was there or one put. */
  lemma {:induction false} PutAllMembers(m: seq<Chart>, cs: seq<Chart>)
    ensures forall x :: x in PutAll(m, cs) ==> x in m || x in cs
  {
    if |cs| > 0 {
      var init := cs[..|cs| - 1];
      PutAllMembers(m, init);
      PutMembers(PutAll(m, init), cs[|cs| - 1]);
      assert forall x :: x in init ==> x in cs;
    }
  }
}
