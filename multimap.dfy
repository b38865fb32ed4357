/**
 The value-level view of an HTTP header set: a map from keys to value lists,
 with the append that Go's `http.Header.Add` performs, the result of copying one
 header set into another key block by key block (in whichever order the map
 iteration visits the keys), and the properties that
 `copyHeader` (main.go:83-89) establishes.
 The key canonicaliser (Go's `textproto.CanonicalMIMEHeaderKey`) is a
 parameter `canon`: nothing is assumed about it unless a lemma says so.
 */
module HeaderMultimap {

  type Multimap = map<string, seq<string>>
  type Canonicaliser = string -> string

  /** The value list of `key`; a missing key reads as the empty (nil) list. */
  function Lookup(h: Multimap, key: string): seq<string>
  {
    if key in h then h[key] else []
  }

  /** What `Header.Get(key)` returns: the first value of the canonical form of
      `key`, or "" when it has none. */
  function FirstValue(canon: Canonicaliser, h: Multimap, key: string): (r: string)
    ensures Lookup(h, canon(key)) == [] ==> r == ""
    ensures Lookup(h, canon(key)) != [] ==> r == h[canon(key)][0]
  {
    var vs := Lookup(h, canon(key));
    if |vs| == 0 then "" else vs[0]
  }

  /** The state `Header.Add(key, value)` leaves behind: the value appended to
      the list of the canonical form of `key`. */
  function AddValue(canon: Canonicaliser, h: Multimap, key: string, value: string): (r: Multimap)
    ensures Lookup(r, canon(key)) == Lookup(h, canon(key)) + [value]
    ensures r.Keys == h.Keys + {canon(key)}
  {
    h[canon(key) := Lookup(h, canon(key)) + [value]]
  }

  /** `Header.Add` leaves every other key's list as it was. */
  lemma AddValueFrame(canon: Canonicaliser, h: Multimap, key: string, value: string)
    ensures forall c :: c in h && c != canon(key) ==> AddValue(canon, h, key, value)[c] == h[c]
  {
  }

  /** `Get` after `Add`: a key of the same canonical form reads the added value
      when it had none before and its old first value otherwise; any other key
      reads as before. */
  lemma FirstValueAfterAdd(canon: Canonicaliser, h: Multimap, key: string, value: string, other: string)
    ensures canon(other) == canon(key) ==>
              FirstValue(canon, AddValue(canon, h, key, value), other)
              == if Lookup(h, canon(key)) == [] then value else FirstValue(canon, h, key)
    ensures canon(other) != canon(key) ==>
              FirstValue(canon, AddValue(canon, h, key, value), other) == FirstValue(canon, h, other)
  {
  }

  /** `values` appended one after the other to the list of the canonical form
      of `key`. No values add nothing, not even the key. */
  function AddValues(canon: Canonicaliser, h: Multimap, key: string, values: seq<string>): (r: Multimap)
    ensures values == [] ==> r == h
    ensures values != [] ==> r.Keys == h.Keys + {canon(key)}
    ensures Lookup(r, canon(key)) == Lookup(h, canon(key)) + values
    ensures forall c :: c in h && c != canon(key) ==> r[c] == h[c]
  {
    if values == [] then h
    else h[canon(key) := Lookup(h, canon(key)) + values]
  }

  /** All values of `src[key]` added to `h`: what the inner loop of `copyHeader` does. */
  function AddBlock(canon: Canonicaliser, h: Multimap, src: Multimap, key: string): Multimap
  {
    AddValues(canon, h, key, Lookup(src, key))
  }

  /** Adding values one `Add` at a time builds the block: one more `Add`
      extends the appended values by one. */
  lemma AddValuesSnoc(canon: Canonicaliser, h: Multimap, key: string, values: seq<string>, v: string)
    ensures AddValues(canon, h, key, values + [v]) == AddValue(canon, AddValues(canon, h, key, values), key, v)
  {
    if values != [] {
      var c, prior := canon(key), Lookup(h, canon(key));
      var once := h[c := prior + values];
      assert Lookup(once, c) == prior + values;
      assert prior + (values + [v]) == (prior + values) + [v];
      assert once[c := (prior + values) + [v]] == h[c := prior + (values + [v])];
    } else {
      assert values + [v] == [v];
    }
  }

  /** The inner loop's step: adding value `i` extends the first `i` values added by one. */
  lemma AddValuesStep(canon: Canonicaliser, h: Multimap, key: string, values: seq<string>, i: nat)
    requires i < |values|
    ensures AddValues(canon, h, key, values[..i + 1]) == AddValue(canon, AddValues(canon, h, key, values[..i]), key, values[i])
  {
    assert values[..i + 1] == values[..i] + [values[i]];
    AddValuesSnoc(canon, h, key, values[..i], values[i]);
  }

  /** `dst` after the key blocks of `src` have been appended in the order `order`. */
  function Copied(canon: Canonicaliser, dst: Multimap, src: Multimap, order: seq<string>): (r: Multimap)
    // every old key stays, and every visited key that has values is present under its canonical form
    ensures dst.Keys <= r.Keys
    ensures forall k :: k in order && Lookup(src, k) != [] ==> canon(k) in r
    decreases |order|
  {
    if order == [] then dst
    else
      AddBlock(canon, Copied(canon, dst, src, order[..|order| - 1]), src, order[|order| - 1])
  }

  /** One more visited key appends its block to the copy so far. */
  lemma CopiedSnoc(canon: Canonicaliser, dst: Multimap, src: Multimap, order: seq<string>, key: string)
    ensures Copied(canon, dst, src, order + [key]) == AddBlock(canon, Copied(canon, dst, src, order), src, key)
  {
    assert (order + [key])[..|order|] == order;
  }

  ghost predicate Distinct(s: seq<string>)
  {
    forall i, j :: 0 <= i < j < |s| ==> s[i] != s[j]
  }

  /** `order` visits every key of `src` exactly once: one possible iteration
      order of a Go `range` over the map. */
  ghost predicate IsKeyOrder(order: seq<string>, src: Multimap)
  {
    Distinct(order) && forall k :: k in order <==> k in src
  }

  /** Part way through an iteration over the keys of `src`: `order` lists the
      keys visited so far, each once, and `remaining` the keys still to visit. */
  ghost predicate Visiting(order: seq<string>, remaining: set<string>, src: Multimap)
  {
    remaining <= src.Keys && Distinct(order) && forall k :: k in order <==> k in src && k !in remaining
  }

  lemma VisitingStart(src: Multimap)
    ensures Visiting([], src.Keys, src)
  {
  }

  lemma VisitingStep(order: seq<string>, remaining: set<string>, src: Multimap, k: string)
    requires Visiting(order, remaining, src) && k in remaining
    ensures Visiting(order + [k], remaining - {k}, src)
  {
  }

  lemma VisitingDone(order: seq<string>, src: Multimap)
    requires Visiting(order, {}, src)
    ensures IsKeyOrder(order, src)
  {
  }

  /** No two keys of `src` have the same canonical form. */
  ghost predicate CanonInjective(canon: Canonicaliser, src: Multimap)
  {
    forall k1, k2 :: k1 in src && k2 in src && canon(k1) == canon(k2) ==> k1 == k2
  }

  /** The canonical forms of the keys of `src`: the only keys a copy can touch. */
  ghost function CanonImage(canon: Canonicaliser, src: Multimap): set<string>
  {
    set k | k in src :: canon(k)
  }

  /** The number of values held in a header set, over all keys. */
  ghost function TotalValues(h: Multimap): nat
    decreases |h|
  {
    if h == map[] then 0
    else
      var k := PickKey(h);
      |h[k]| + TotalValues(h - {k})
  }

  ghost function PickKey(h: Multimap): (k: string)
    requires h != map[]
    ensures k in h
  {
    var k :| k in h; k
  }

  /** The number of values of `src` stored under the keys listed in `order`. */
  function SumOver(src: Multimap, order: seq<string>): nat
    decreases |order|
  {
    if order == [] then 0
    else SumOver(src, order[..|order| - 1]) + |Lookup(src, order[|order| - 1])|
  }

  // ---------------------------------------------------------------------------
  // Counting values

  /** The total can be taken apart at any key, not only at the one `TotalValues` picks. */
  lemma {:induction false} TotalValuesRemove(h: Multimap, k: string)
    requires k in h
    ensures TotalValues(h) == |h[k]| + TotalValues(h - {k})
    decreases |h|
  {
    var j := PickKey(h);
    if j != k {
      assert |h - {j}| < |h|;
      TotalValuesRemove(h - {j}, k);
      assert |h - {k}| < |h|;
      TotalValuesRemove(h - {k}, j);
      assert h - {j} - {k} == h - {k} - {j};
    }
  }

  /** Replacing one key's list changes the total by the difference in lengths. */
  lemma TotalValuesUpdate(h: Multimap, c: string, s: seq<string>)
    ensures TotalValues(h[c := s]) + |Lookup(h, c)| == TotalValues(h) + |s|
  {
    var u := h[c := s];
    TotalValuesRemove(u, c);
    if c in h {
      TotalValuesRemove(h, c);
      assert u - {c} == h - {c};
    } else {
      assert u - {c} == h;
    }
  }

  lemma {:induction false} SumOverAgree(m1: Multimap, m2: Multimap, order: seq<string>)
    requires forall x :: x in order ==> Lookup(m1, x) == Lookup(m2, x)
    ensures SumOver(m1, order) == SumOver(m2, order)
    decreases |order|
  {
    if order != [] {
      var init := order[..|order| - 1];
      assert forall x :: x in init ==> x in order;
      SumOverAgree(m1, m2, init);
      assert order[|order| - 1] in order;
    }
  }

  /** Summing over a key order of `src` counts every value of `src` once. */
  lemma {:induction false} KeyOrderSum(src: Multimap, order: seq<string>)
    requires IsKeyOrder(order, src)
    ensures SumOver(src, order) == TotalValues(src)
    decreases |order|
  {
    if order != [] {
      var n := |order| - 1;
      var k := order[n];
      var init := order[..n];
      var rest := src - {k};
      assert k in order;
      forall x | x in init ensures x != k && x in src {
        var i :| 0 <= i < n && init[i] == x;
        assert order[i] == x;
      }
      forall x | x in rest ensures x in init {
        assert x in order;
        var i :| 0 <= i < |order| && order[i] == x;
        assert i != n;
        assert init[i] == x;
      }
      assert IsKeyOrder(init, rest);
      KeyOrderSum(rest, init);
      SumOverAgree(src, rest, init);
      TotalValuesRemove(src, k);
    }
  }

  /** Appending a key block adds exactly that block's values to the total. */
  lemma AddBlockTotal(canon: Canonicaliser, h: Multimap, src: Multimap, key: string)
    ensures TotalValues(AddBlock(canon, h, src, key)) == TotalValues(h) + |Lookup(src, key)|
  {
    if Lookup(src, key) != [] {
      TotalValuesUpdate(h, canon(key), Lookup(h, canon(key)) + Lookup(src, key));
    }
  }

  // ---------------------------------------------------------------------------
  // Properties of a copy

  /** Copying never removes a key or a value: every old list is a prefix of the new one. */
  lemma {:induction false} CopiedKeepsValues(canon: Canonicaliser, dst: Multimap, src: Multimap, order: seq<string>)
    ensures forall c :: c in dst ==> c in Copied(canon, dst, src, order) && dst[c] <= Copied(canon, dst, src, order)[c]
    decreases |order|
  {
    if order != [] {
      CopiedKeepsValues(canon, dst, src, order[..|order| - 1]);
    }
  }

  /** A key that is not the canonical form of any visited key keeps its list,
      and is present afterwards exactly when it was before. */
  lemma {:induction false} CopiedUntouched(canon: Canonicaliser, dst: Multimap, src: Multimap, order: seq<string>, c: string)
    requires forall k :: k in order ==> canon(k) != c
    ensures Lookup(Copied(canon, dst, src, order), c) == Lookup(dst, c)
    ensures c in Copied(canon, dst, src, order) <==> c in dst
    decreases |order|
  {
    if order != [] {
      var init := order[..|order| - 1];
      assert forall k :: k in init ==> k in order;
      assert order[|order| - 1] in order;
      CopiedUntouched(canon, dst, src, init, c);
    }
  }

  /** When the visited keys have pairwise different canonical forms, the list
      of each one's canonical form is its old list followed by the source's
      values, in their original order. */
  lemma {:induction false} CopiedAt(canon: Canonicaliser, dst: Multimap, src: Multimap, order: seq<string>, k: string)
    requires forall i, j :: 0 <= i < j < |order| ==> canon(order[i]) != canon(order[j])
    requires k in order
    ensures Lookup(Copied(canon, dst, src, order), canon(k)) == Lookup(dst, canon(k)) + Lookup(src, k)
    decreases |order|
  {
    var n := |order| - 1;
    var init := order[..n];
    var last := order[n];
    if last == k {
      forall x | x in init ensures canon(x) != canon(k) {
        var i :| 0 <= i < n && init[i] == x;
        assert order[i] == x;
      }
      CopiedUntouched(canon, dst, src, init, canon(k));
    } else {
      var i :| 0 <= i < |order| && order[i] == k;
      assert i < n && init[i] == k;
      assert canon(order[i]) != canon(order[n]);
      CopiedAt(canon, dst, src, init, k);
    }
  }

  /** A key order of a source whose keys have distinct canonical forms visits
      keys with distinct canonical forms. */
  lemma InjectiveOrder(canon: Canonicaliser, src: Multimap, order: seq<string>)
    requires IsKeyOrder(order, src) && CanonInjective(canon, src)
    ensures forall i, j :: 0 <= i < j < |order| ==> canon(order[i]) != canon(order[j])
  {
  }

  /** `Get` after a copy, whatever the key order: a source key with values whose
      canonical form the destination had no values for reads the first source
      value, provided no two source keys share a canonical form. */
  lemma GetAfterCopy(canon: Canonicaliser, dst: Multimap, src: Multimap, order: seq<string>, k: string)
    requires IsKeyOrder(order, src) && CanonInjective(canon, src)
    requires k in src && src[k] != [] && Lookup(dst, canon(k)) == []
    ensures FirstValue(canon, Copied(canon, dst, src, order), k) == src[k][0]
  {
    InjectiveOrder(canon, src, order);
    CopiedAt(canon, dst, src, order, k);
  }

  /** The total number of values grows by exactly the number of values copied. */
  lemma {:induction false} CopiedTotal(canon: Canonicaliser, dst: Multimap, src: Multimap, order: seq<string>)
    ensures TotalValues(Copied(canon, dst, src, order)) == TotalValues(dst) + SumOver(src, order)
    decreases |order|
  {
    if order != [] {
      var init := order[..|order| - 1];
      CopiedTotal(canon, dst, src, init);
      AddBlockTotal(canon, Copied(canon, dst, src, init), src, order[|order| - 1]);
    }
  }

  /** What `copyHeader` promises about the header set `before` and the header
      set `after` a copy of `src` into it: no value is removed; keys outside the
      canonical image of `src` keep their lists; the number of values grows by
      the number of values of `src`; an empty source changes nothing; and, when
      no two keys of `src` share a canonical form, each canonical list is the
      old list followed by the source list. */
  ghost predicate CopyPromises(canon: Canonicaliser, before: Multimap, after: Multimap, src: Multimap)
  {
    && (forall c :: c in before ==> c in after && before[c] <= after[c])
    && (forall c :: c !in CanonImage(canon, src) ==>
          Lookup(after, c) == Lookup(before, c) && (c in after <==> c in before))
    && TotalValues(after) == TotalValues(before) + TotalValues(src)
    && (src == map[] ==> after == before)
    && (CanonInjective(canon, src) ==>
          forall k :: k in src ==> Lookup(after, canon(k)) == Lookup(before, canon(k)) + src[k])
  }

  /** An empty source has only the empty key order, and copying it changes nothing. */
  lemma CopiedEmptySource(canon: Canonicaliser, dst: Multimap, order: seq<string>)
    requires IsKeyOrder(order, map[])
    ensures Copied(canon, dst, map[], order) == dst
  {
  }

  /** The promises hold of any header set equal to a copy in a key order of the source. */
  lemma CopyKeepsPromises(canon: Canonicaliser, before: Multimap, after: Multimap, src: Multimap, order: seq<string>)
    requires IsKeyOrder(order, src) && after == Copied(canon, before, src, order)
    ensures CopyPromises(canon, before, after, src)
  {
    CopyProperties(canon, before, src, order);
  }

  /** Copying a whole source, in any iteration order, keeps the promises of `copyHeader`. */
  lemma CopyProperties(canon: Canonicaliser, dst: Multimap, src: Multimap, order: seq<string>)
    requires IsKeyOrder(order, src)
    ensures CopyPromises(canon, dst, Copied(canon, dst, src, order), src)
  {
    var after := Copied(canon, dst, src, order);
    CopiedKeepsValues(canon, dst, src, order);
    forall c | c !in CanonImage(canon, src)
      ensures Lookup(after, c) == Lookup(dst, c) && (c in after <==> c in dst)
    {
      forall k | k in order ensures canon(k) != c {
        assert k in src;
      }
      CopiedUntouched(canon, dst, src, order, c);
    }
    CopiedTotal(canon, dst, src, order);
    KeyOrderSum(src, order);
    if src == map[] {
      CopiedEmptySource(canon, dst, order);
    }
    if CanonInjective(canon, src) {
      InjectiveOrder(canon, src, order);
      forall k | k in src
        ensures Lookup(after, canon(k)) == Lookup(dst, canon(k)) + src[k]
      {
        CopiedAt(canon, dst, src, order, k);
      }
    }
  }
}
