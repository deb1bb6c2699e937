/** The world state as the contract sees it through the platform's stub: point reads,
    point writes and an ordered scan over all keys. Storage failures are explicit input. */
module WorldState {
  import opened Outcomes
  import opened Houses

  type Ledger = map<string, Stored>

  /** Which storage calls fail in this invocation: GetState (and the scan's iterator)
      for the keys in `get`, PutState for the keys in `put`, and opening the scan when `scan`. */
  datatype Faults = Faults(get: set<string>, put: set<string>, scan: bool)

  const NoFaults := Faults({}, {}, false)

  /** What GetState reports: a failure, no value (Go's nil), or the stored value. */
  datatype Lookup = LookupFailed | Absent | Present(value: Stored)

  /** The outcome of one contract operation and the world state after it. */
  datatype Step<T> = Step(result: Result<T>, ledger: Ledger)

  function GetState(ledger: Ledger, faults: Faults, key: string): Lookup
  {
    if key in faults.get then LookupFailed
    else if key in ledger then Present(ledger[key])
    else Absent
  }

  function PutState(ledger: Ledger, faults: Faults, key: string, v: Stored): Step<()>
  {
    if key in faults.put then Step(Err(WriteFailed(key)), ledger)
    else Step(Ok(()), ledger[key := v])
  }

  /** A key an open-ended range scan can return. The scan starts at U+0001, so it never
      returns the empty key or a key in the composite-key namespace, which starts with U+0000. */
  predicate SimpleKey(k: string)
  {
    k != [] && k[0] != 0 as char
  }

  /** Lexicographic order of keys by code point, which is the byte order of their
      UTF-8 encodings, the order the platform's range scan returns keys in. */
  predicate KeyLess(a: string, b: string)
    decreases |a|
  {
    if a == [] then b != []
    else if b == [] then false
    else if a[0] != b[0] then a[0] < b[0]
    else KeyLess(a[1..], b[1..])
  }

  lemma {:induction false} KeyLessAsymmetric(a: string, b: string)
    ensures KeyLess(a, b) ==> !KeyLess(b, a)
    decreases |a|
  {
    if a != [] && b != [] && a[0] == b[0] {
      KeyLessAsymmetric(a[1..], b[1..]);
    }
  }

  predicate StrictlyAscending(keys: seq<string>)
  {
    forall i, j :: 0 <= i < j < |keys| ==> KeyLess(keys[i], keys[j])
  }

  /** `keys` is what an open-ended range scan of `ledger` visits: every stored key,
      once, in ascending order. */
  predicate ScanOrder(ledger: Ledger, keys: seq<string>)
  {
    && StrictlyAscending(keys)
    && (forall k :: k in ledger ==> k in keys)
    && (forall i :: 0 <= i < |keys| ==> keys[i] in ledger)
  }

  lemma FirstIsMember(keys: seq<string>)
    requires keys != []
    ensures keys[0] in keys
  {
  }

  /** Two ascending listings of the same keys are the same listing. */
  lemma {:induction false} AscendingUnique(xs: seq<string>, ys: seq<string>)
    requires StrictlyAscending(xs) && StrictlyAscending(ys)
    requires forall k :: k in xs <==> k in ys
    ensures xs == ys
    decreases |xs|
  {
    if xs == [] {
      if ys != [] {
        FirstIsMember(ys);
        assert false;
      }
    } else {
      assert xs[0] in ys;
      assert ys != [];
      assert ys[0] in xs;
      var i :| 0 <= i < |xs| && xs[i] == ys[0];
      var j :| 0 <= j < |ys| && ys[j] == xs[0];
      if j > 0 {
        // ys[0] precedes ys[j] == xs[0], yet xs[0] == ys[0] or xs[0] precedes xs[i] == ys[0]
        KeyLessAsymmetric(ys[0], ys[j]);
        assert false;
      }
      assert xs[0] == ys[0];
      forall k
        ensures k in xs[1..] <==> k in ys[1..]
      {
        if k in xs[1..] {
          var m :| 1 <= m < |xs| && xs[m] == k;
          assert KeyLess(xs[0], xs[m]);
          KeyLessAsymmetric(xs[0], xs[m]);
          assert k in ys;
        }
        if k in ys[1..] {
          var m :| 1 <= m < |ys| && ys[m] == k;
          assert KeyLess(ys[0], ys[m]);
          KeyLessAsymmetric(ys[0], ys[m]);
          assert k in xs;
        }
      }
      AscendingUnique(xs[1..], ys[1..]);
      assert xs == [xs[0]] + xs[1..];
      assert ys == [ys[0]] + ys[1..];
    }
  }

  /** A scan visits as many keys as the world state holds. */
  lemma {:induction false} ScanOrderLength(ledger: Ledger, keys: seq<string>)
    requires ScanOrder(ledger, keys)
    ensures |keys| == |ledger|
    decreases |keys|
  {
    if keys != [] {
      var rest := ledger - {keys[0]};
      forall i | 0 <= i < |keys[1..]|
        ensures keys[1..][i] in rest
      {
        assert KeyLess(keys[0], keys[i + 1]);
        KeyLessAsymmetric(keys[0], keys[i + 1]);
      }
      forall k | k in rest
        ensures k in keys[1..]
      {
        var j :| 0 <= j < |keys| && keys[j] == k;
      }
      ScanOrderLength(rest, keys[1..]);
    }
  }

  /** The scan order of a world state is determined by the world state alone. */
  lemma ScanOrderUnique(ledger: Ledger, xs: seq<string>, ys: seq<string>)
    requires ScanOrder(ledger, xs) && ScanOrder(ledger, ys)
    ensures xs == ys
  {
    forall k
      ensures k in xs <==> k in ys
    {
      if k in xs {
        var i :| 0 <= i < |xs| && xs[i] == k;
      }
      if k in ys {
        var j :| 0 <= j < |ys| && ys[j] == k;
      }
    }
    AscendingUnique(xs, ys);
  }
}
