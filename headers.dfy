/**
 The mutable header set a Go handler writes through (`http.Header`, a map that
 `Add` updates in place) and `copyHeader` (main.go:83-89), which appends every
 value of a source header set to it.
 */
module Headers {
  import opened HeaderMultimap

  /** An `http.Header`: the map it holds, updated in place by `Add`, and the
      key canonicaliser its `Add` and `Get` apply. */
  class Header {
    const canon: Canonicaliser
    var values: Multimap

    /** `make(http.Header)`: an empty header set. */
    constructor (canon: Canonicaliser)
      ensures this.canon == canon && values == map[]
    {
      this.canon := canon;
      values := map[];
    }

    /** `Header.Add`: appends `value` to the list of the canonical form of `key`. */
    method Add(key: string, value: string)
      modifies this
      ensures values == AddValue(canon, old(values), key, value)
    {
      values := values[canon(key) := Lookup(values, canon(key)) + [value]];
    }

    /** `Header.Get`: the first value of the canonical form of `key`, or "" when it has none. */
    function Get(key: string): (r: string)
      reads this
      ensures Lookup(values, canon(key)) == [] ==> r == ""
      ensures Lookup(values, canon(key)) != [] ==> r == values[canon(key)][0]
    {
      FirstValue(canon, values, key)
    }
  }

  /** `copyHeader(dst, src)`: for each key of `src`, in an order the model
      does not fix (Go's map iteration order is unspecified), every value of
      that key is added to `dst` in its original order. The ghost `order` is
      the iteration order this run took. */
  method CopyHeader(dst: Header, src: Multimap) returns (ghost order: seq<string>)
    modifies dst
    ensures IsKeyOrder(order, src)
    ensures dst.values == Copied(dst.canon, old(dst.values), src, order)
    ensures CopyPromises(dst.canon, old(dst.values), dst.values, src)
  {
    ghost var canon, init := dst.canon, dst.values;
    var remaining := src.Keys;
    order := [];
    VisitingStart(src);
    while remaining != {}
      invariant Visiting(order, remaining, src)
      invariant dst.values == Copied(canon, init, src, order)
      decreases remaining
    {
      var k :| k in remaining;
      var vv := src[k];
      ghost var before := dst.values;
      var i := 0;
      while i < |vv|
        invariant 0 <= i <= |vv|
        invariant dst.values == AddValues(canon, before, k, vv[..i])
      {
        AddValuesStep(canon, before, k, vv, i);
        dst.Add(k, vv[i]);
        i := i + 1;
      }
      assert vv[..i] == Lookup(src, k);
      CopiedSnoc(canon, init, src, order, k);
      VisitingStep(order, remaining, src, k);
      order := order + [k];
      remaining := remaining - {k};
    }
    VisitingDone(order, src);
    CopyKeepsPromises(canon, init, dst.values, src, order);
  }

  /** The source header set of main_test.go:11-22, built with two `Add`s. */
  function ExampleSource(canon: Canonicaliser): Multimap
  {
    AddValue(canon, AddValue(canon, map[], "Content-Type", "text/html"), "Content-Length", "123")
  }

  /** The scenario of main_test.go:11-22: whatever key order `CopyHeader`
      takes, copying the example source into an empty header set makes `Get`
      return each source value. It needs only that the canonicaliser fixes the
      canonical forms of both keys and keeps them apart. */
  lemma CopyHeaderExample(canon: Canonicaliser, order: seq<string>)
    requires canon(canon("Content-Type")) == canon("Content-Type")
    requires canon(canon("Content-Length")) == canon("Content-Length")
    requires canon("Content-Type") != canon("Content-Length")
    requires IsKeyOrder(order, ExampleSource(canon))
    ensures FirstValue(canon, Copied(canon, map[], ExampleSource(canon), order), "Content-Type") == "text/html"
    ensures FirstValue(canon, Copied(canon, map[], ExampleSource(canon), order), "Content-Length") == "123"
  {
    var src := ExampleSource(canon);
    var typeKey, lengthKey := canon("Content-Type"), canon("Content-Length");
    assert [] + ["text/html"] == ["text/html"] && [] + ["123"] == ["123"];
    assert src == map[typeKey := ["text/html"], lengthKey := ["123"]];
    assert CanonInjective(canon, src);
    InjectiveOrder(canon, src, order);
    assert typeKey in order && lengthKey in order;
    CopiedAt(canon, map[], src, order, typeKey);
    CopiedAt(canon, map[], src, order, lengthKey);
  }
}
