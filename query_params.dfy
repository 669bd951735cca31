/** The query-string encoder of the API client (src/lib/api/utils.ts): every property of an
    options object whose value is defined becomes one `key=String(value)` entry, in the
    object's key order. Percent-encoding is not modelled: entries are key/value pairs. */
module QueryParams {
  import opened ApiResult
  import opened Text

  /** The keys a query-options object may carry. */
  datatype Key = Page | Limit | SortBy | Order | Search

  function KeyName(k: Key): string {
    match k
    case Page => "page"
    case Limit => "limit"
    case SortBy => "sortBy"
    case Order => "order"
    case Search => "search"
  }

  /** A property value: `undefined`, an integer or a string. */
  datatype Value = Undefined | Number(n: int) | Str(s: string)

  /** An options object: its own keys in `Object.keys` order, each with its value. */
  type QueryOptions = seq<(Key, Value)>

  /** A JavaScript object never has the same key twice. */
  predicate DistinctKeys(o: QueryOptions) {
    forall i, j :: 0 <= i < j < |o| ==> o[i].0 != o[j].0
  }

  predicate DistinctNames(params: seq<(string, string)>) {
    forall i, j :: 0 <= i < j < |params| ==> params[i].0 != params[j].0
  }

  /** `String(value)`. */
  function Stringify(v: Value): string
    requires !v.Undefined?
  {
    match v
    case Number(n) => IntToString(n)
    case Str(s) => s
  }

  /** The entry one property contributes: none when its value is `undefined`. */
  function EntryOf(e: (Key, Value)): seq<(string, string)> {
    if e.1.Undefined? then [] else [(KeyName(e.0), Stringify(e.1))]
  }

  /** The entries the encoder produces for `o`, in order. */
  function Encoded(o: QueryOptions): (params: seq<(string, string)>)
    ensures |params| <= |o|
    decreases |o|
  {
    if o == [] then [] else EntryOf(o[0]) + Encoded(o[1..])
  }

  /** `buildQueryParams(options)`: absent options give no entries; otherwise one entry per
      defined property, appended in key order. */
  method BuildQueryParams(options: Option<QueryOptions>) returns (params: seq<(string, string)>)
    ensures options.None? ==> params == []
    ensures options.Some? ==> params == Encoded(options.value)
  {
    params := [];
    if options.None? {
      return;
    }
    var o := options.value;
    var i := 0;
    while i < |o|
      invariant 0 <= i <= |o|
      invariant params == Encoded(o[..i])
    {
      var (key, value) := o[i];
      EncodedStep(o, i);
      if value != Undefined {
        params := params + [(KeyName(key), Stringify(value))];
      }
      i := i + 1;
    }
    assert o[..|o|] == o;
  }

  /** One more property adds its entry, if any, at the end. */
  lemma EncodedStep(o: QueryOptions, i: nat)
    requires i < |o|
    ensures Encoded(o[..i + 1]) == Encoded(o[..i]) + EntryOf(o[i])
  {
    assert o[..i + 1] == o[..i] + [o[i]];
    EncodedAppend(o[..i], [o[i]]);
    assert [o[i]][1..] == [];
  }

  /** The encoding of two objects' keys in sequence is the two encodings in sequence:
      entries keep the order of the keys they come from. */
  lemma {:induction false} EncodedAppend(a: QueryOptions, b: QueryOptions)
    ensures Encoded(a + b) == Encoded(a) + Encoded(b)
    decreases |a|
  {
    if a != [] {
      assert (a + b)[0] == a[0] && (a + b)[1..] == a[1..] + b;
      EncodedAppend(a[1..], b);
      assert Encoded(a + b) == EntryOf(a[0]) + Encoded(a[1..] + b);
    } else {
      assert a + b == b;
    }
  }

  /** The entries are exactly `(key, String(value))` for the properties whose value is defined. */
  lemma {:induction false} EncodedEntries(o: QueryOptions)
    ensures forall p :: p in Encoded(o) <==>
              exists e :: e in o && !e.1.Undefined? && p == (KeyName(e.0), Stringify(e.1))
    decreases |o|
  {
    if o != [] {
      EncodedEntries(o[1..]);
      assert forall e :: e in o <==> e == o[0] || e in o[1..];
    }
  }

  /** No entries at all iff every property's value is `undefined`. */
  lemma {:induction false} EncodedEmpty(o: QueryOptions)
    ensures Encoded(o) == [] <==> forall i :: 0 <= i < |o| ==> o[i].1.Undefined?
    decreases |o|
  {
    if o != [] {
      EncodedEmpty(o[1..]);
      assert forall i :: 1 <= i < |o| ==> o[i] == o[1..][i - 1];
    }
  }

  /** A key appears in the output iff its value is not `undefined`. */
  lemma KeyPresentIffDefined(o: QueryOptions, k: Key)
    ensures (exists p :: p in Encoded(o) && p.0 == KeyName(k))
        <==> (exists e :: e in o && e.0 == k && !e.1.Undefined?)
  {
    EncodedEntries(o);
    forall e | e in o && e.0 == k && !e.1.Undefined?
      ensures (KeyName(k), Stringify(e.1)) in Encoded(o)
    {
    }
    forall p | p in Encoded(o) && p.0 == KeyName(k)
      ensures exists e :: e in o && e.0 == k && !e.1.Undefined?
    {
      var e :| e in o && !e.1.Undefined? && p == (KeyName(e.0), Stringify(e.1));
      KeyNameInjective(e.0, k);
    }
  }

  lemma KeyNameInjective(a: Key, b: Key)
    ensures KeyName(a) == KeyName(b) ==> a == b
  {
  }

  /** An object has each key once, so the output names each key at most once. */
  lemma {:induction false} EncodedDistinct(o: QueryOptions)
    requires DistinctKeys(o)
    ensures DistinctNames(Encoded(o))
    decreases |o|
  {
    if o != [] {
      var tail := o[1..];
      assert DistinctKeys(tail) by {
        forall i, j | 0 <= i < j < |tail|
          ensures tail[i].0 != tail[j].0
        {
          assert tail[i] == o[i + 1] && tail[j] == o[j + 1];
        }
      }
      EncodedDistinct(tail);
      forall i | 0 <= i < |tail|
        ensures tail[i].0 != o[0].0
      {
        assert tail[i] == o[i + 1];
      }
      EncodedOmits(tail, o[0].0);
      DistinctAfter(EntryOf(o[0]), Encoded(tail));
    }
  }

  /** Keys other than `k` give entries not named `k`. */
  lemma {:induction false} EncodedOmits(o: QueryOptions, k: Key)
    requires forall i :: 0 <= i < |o| ==> o[i].0 != k
    ensures forall p :: p in Encoded(o) ==> p.0 != KeyName(k)
    decreases |o|
  {
    if o != [] {
      var tail := o[1..];
      forall i | 0 <= i < |tail|
        ensures tail[i].0 != k
      {
        assert tail[i] == o[i + 1];
      }
      EncodedOmits(tail, k);
      KeyNameInjective(o[0].0, k);
    }
  }

  /** At most one entry in front of entries with distinct names none of which is its name. */
  lemma DistinctAfter(first: seq<(string, string)>, rest: seq<(string, string)>)
    requires |first| <= 1 && DistinctNames(rest)
    requires first != [] ==> forall p :: p in rest ==> p.0 != first[0].0
    ensures DistinctNames(first + rest)
  {
    var params := first + rest;
    forall i, j | 0 <= i < j < |params|
      ensures params[i].0 != params[j].0
    {
      var d := |first|;
      assert params[j] == rest[j - d];
      if d == 1 && i == 0 {
        assert params[j] in rest;
      } else {
        assert params[i] == rest[i - d];
      }
    }
  }

  /** `URLSearchParams.toString()` without percent-encoding: `key=value` joined by `&`. */
  function QueryString(params: seq<(string, string)>): (q: string)
    ensures q == "" <==> params == []
    decreases |params|
  {
    if params == [] then ""
    else
      var first := params[0].0 + "=" + params[0].1;
      if |params| == 1 then first else first + "&" + QueryString(params[1..])
  }

  lemma QueryStringCons(params: seq<(string, string)>)
    requires |params| >= 2
    ensures QueryString(params) == params[0].0 + "=" + params[0].1 + "&" + QueryString(params[1..])
  {
  }

  /** `{ page: 1, limit: 10, sortBy: 'name' }` encodes as `page=1&limit=10&sortBy=name`. */
  lemma EncodingExample()
    ensures QueryString(Encoded([(Page, Number(1)), (Limit, Number(10)), (SortBy, Str("name"))]))
         == "page=1&limit=10&sortBy=name"
  {
    EncodedExample();
    QueryStringExample();
  }

  lemma QueryStringExample()
    ensures QueryString([("page", "1"), ("limit", "10"), ("sortBy", "name")]) == "page=1&limit=10&sortBy=name"
  {
    var params := [("page", "1"), ("limit", "10"), ("sortBy", "name")];
    QueryStringCons(params);
    QueryStringCons(params[1..]);
    assert params[1..][1..] == [("sortBy", "name")];
    assert QueryString([("sortBy", "name")]) == "sortBy=name";
  }

  lemma EncodedExample()
    ensures Encoded([(Page, Number(1)), (Limit, Number(10)), (SortBy, Str("name"))])
         == [("page", "1"), ("limit", "10"), ("sortBy", "name")]
  {
    assert IntToString(1) == "1";
    assert IntToString(10) == "10" by {
      assert NatToString(10) == NatToString(1) + [DigitChar(0)];
    }
    var o := [(Page, Number(1)), (Limit, Number(10)), (SortBy, Str("name"))];
    assert o == [o[0]] + [o[1]] + [o[2]];
    EncodedAppend([o[0]] + [o[1]], [o[2]]);
    EncodedAppend([o[0]], [o[1]]);
    assert Encoded([o[0]]) == [("page", "1")] by {
      assert [o[0]][1..] == [];
    }
    assert Encoded([o[1]]) == [("limit", "10")] by {
      assert [o[1]][1..] == [];
    }
    assert Encoded([o[2]]) == [("sortBy", "name")] by {
      assert [o[2]][1..] == [];
    }
  }
}
