/**
  The query-string half of the electricityMap client: the name/value collection that
  `HttpUtility.ParseQueryString(string.Empty)` hands back, the fold that fills it from a
  parameter dictionary, and the `key=value&key=value` text it renders to.

  Percent-encoding belongs to a library; it is a parameter `encode` here. Where a property
  needs it, `SafeEncoder` states what URL encoding guarantees: it is injective and never
  emits the separators `&` and `=`.
*/
module QueryString {
  import opened Outcomes

  /** One name/value pair of a query. */
  datatype Entry = Entry(key: string, value: string)

  /** The keys that occur in `entries`. */
  function KeySet(entries: seq<Entry>): set<string> {
    set e | e in entries :: e.key
  }

  /** No key occurs twice: the invariant of a name/value collection, and what a dictionary guarantees. */
  predicate UniqueKeys(entries: seq<Entry>) {
    forall i, j :: 0 <= i < j < |entries| ==> entries[i].key != entries[j].key
  }

  /** KeySet distributes over concatenation. */
  lemma KeySetAppend(a: seq<Entry>, b: seq<Entry>)
    ensures KeySet(a + b) == KeySet(a) + KeySet(b)
  {
    forall k | k in KeySet(a + b) ensures k in KeySet(a) + KeySet(b) {
      var e :| e in a + b && e.key == k;
      assert e in a || e in b;
    }
    forall k | k in KeySet(a) + KeySet(b) ensures k in KeySet(a + b) {
      if k in KeySet(a) {
        var e :| e in a && e.key == k;
        assert e in a + b;
      } else {
        var e :| e in b && e.key == k;
        assert e in a + b;
      }
    }
  }

  /** The value the collection binds to `key`, looked up from the front. */
  function Lookup(entries: seq<Entry>, key: string): (found: Option<string>)
    ensures found.Some? <==> key in KeySet(entries)
    ensures found.Some? ==> Entry(key, found.value) in entries
  {
    if entries == [] then None
    else
      KeySetAppend([entries[0]], entries[1..]);
      assert entries == [entries[0]] + entries[1..];
      if entries[0].key == key then Some(entries[0].value)
      else Lookup(entries[1..], key)
  }

  /** The position of `key` in the collection. */
  function IndexOf(entries: seq<Entry>, key: string): (i: nat)
    requires key in KeySet(entries)
    ensures i < |entries| && entries[i].key == key
  {
    KeySetAppend([entries[0]], entries[1..]);
    assert entries == [entries[0]] + entries[1..];
    if entries[0].key == key then 0 else 1 + IndexOf(entries[1..], key)
  }

  /** With unique keys, an entry that is present is exactly what lookup finds. */
  lemma {:induction false} LookupUnique(entries: seq<Entry>, key: string, value: string)
    requires UniqueKeys(entries)
    requires Entry(key, value) in entries
    ensures Lookup(entries, key) == Some(value)
  {
    var i :| 0 <= i < |entries| && entries[i] == Entry(key, value);
    if entries[0].key != key {
      assert entries[1..][i - 1] == entries[i];
      LookupUnique(entries[1..], key, value);
    } else {
      assert i == 0;
    }
  }

  /** Two collections with unique keys that hold the same pairs for `key` agree on it. */
  lemma LookupExtensional(e1: seq<Entry>, e2: seq<Entry>, key: string)
    requires UniqueKeys(e1) && UniqueKeys(e2)
    requires forall v :: Entry(key, v) in e1 <==> Entry(key, v) in e2
    ensures Lookup(e1, key) == Lookup(e2, key)
  {
    if Lookup(e2, key).Some? {
      LookupUnique(e1, key, Lookup(e2, key).value);
    } else if Lookup(e1, key).Some? {
      LookupUnique(e2, key, Lookup(e1, key).value);
    }
  }

  /**
    `collection[key] = value` on a name/value collection: a key already present keeps its
    position and gets the new value as its only value; a new key is appended.
  */
  function Assigned(entries: seq<Entry>, key: string, value: string): (r: seq<Entry>)
    requires UniqueKeys(entries)
    ensures UniqueKeys(r)
    ensures KeySet(r) == KeySet(entries) + {key}
    ensures Lookup(r, key) == Some(value)
    ensures forall k :: k != key ==> Lookup(r, k) == Lookup(entries, k)
    ensures key !in KeySet(entries) ==> r == entries + [Entry(key, value)]
    ensures key in KeySet(entries) ==> |r| == |entries|
    ensures key in KeySet(entries) ==> forall i :: 0 <= i < |r| ==>
      r[i] == if entries[i].key == key then Entry(key, value) else entries[i]
  {
    var r := if key in KeySet(entries) then entries[IndexOf(entries, key) := Entry(key, value)]
             else entries + [Entry(key, value)];
    AssignedFacts(entries, key, value, r);
    r
  }

  lemma AssignedFacts(entries: seq<Entry>, key: string, value: string, r: seq<Entry>)
    requires UniqueKeys(entries)
    requires r == if key in KeySet(entries) then entries[IndexOf(entries, key) := Entry(key, value)]
                  else entries + [Entry(key, value)]
    ensures UniqueKeys(r)
    ensures KeySet(r) == KeySet(entries) + {key}
    ensures Lookup(r, key) == Some(value)
    ensures forall k :: k != key ==> Lookup(r, k) == Lookup(entries, k)
    ensures key in KeySet(entries) ==> forall i :: 0 <= i < |r| ==>
      r[i] == if entries[i].key == key then Entry(key, value) else entries[i]
  {
    if key in KeySet(entries) {
      var n := IndexOf(entries, key);
      ReplacedFacts(entries, n, value);
      forall i | 0 <= i < |r| && i != n ensures entries[i].key != key {
        assert entries[n].key == key;
      }
    } else {
      AppendedFacts(entries, key, value);
    }
    LookupUnique(r, key, value);
    forall k | k != key ensures Lookup(r, k) == Lookup(entries, k) {
      LookupExtensional(r, entries, k);
    }
  }

  lemma ReplacedFacts(entries: seq<Entry>, i: nat, value: string)
    requires UniqueKeys(entries) && i < |entries|
    ensures var r := entries[i := Entry(entries[i].key, value)];
      && UniqueKeys(r)
      && KeySet(r) == KeySet(entries) + {entries[i].key}
      && Entry(entries[i].key, value) in r
      && forall k, v :: k != entries[i].key ==> (Entry(k, v) in r <==> Entry(k, v) in entries)
  {
    var key := entries[i].key;
    var r := entries[i := Entry(key, value)];
    assert r[i] == Entry(key, value);
    forall k | k in KeySet(r) ensures k in KeySet(entries) {
      var j :| 0 <= j < |r| && r[j].key == k;
      assert entries[j].key == k;
    }
    forall k | k in KeySet(entries) ensures k in KeySet(r) {
      var j :| 0 <= j < |entries| && entries[j].key == k;
      assert r[j].key == k;
    }
    forall k, v | k != key && Entry(k, v) in r ensures Entry(k, v) in entries {
      var j :| 0 <= j < |r| && r[j] == Entry(k, v);
      assert entries[j] == r[j];
    }
    forall k, v | k != key && Entry(k, v) in entries ensures Entry(k, v) in r {
      var j :| 0 <= j < |entries| && entries[j] == Entry(k, v);
      assert entries[j] == r[j];
    }
  }

  lemma AppendedFacts(entries: seq<Entry>, key: string, value: string)
    requires UniqueKeys(entries) && key !in KeySet(entries)
    ensures var r := entries + [Entry(key, value)];
      && UniqueKeys(r)
      && KeySet(r) == KeySet(entries) + {key}
      && Entry(key, value) in r
      && forall k, v :: k != key ==> (Entry(k, v) in r <==> Entry(k, v) in entries)
  {
    var r := entries + [Entry(key, value)];
    KeySetAppend(entries, [Entry(key, value)]);
    assert KeySet([Entry(key, value)]) == {key};
    forall j | 0 <= j < |entries| ensures r[j].key != key {
      assert r[j] == entries[j] && entries[j] in entries;
    }
    assert r[|entries|] == Entry(key, value);
  }

  /** The value of the last entry for `key`: the reference meaning of "later assignments win". */
  function LastValue(params: seq<Entry>, key: string): Option<string> {
    if params == [] then None
    else if params[|params| - 1].key == key then Some(params[|params| - 1].value)
    else LastValue(params[..|params| - 1], key)
  }

  /**
    The collection after `foreach (var kvp in params) query[kvp.Key] = kvp.Value;`,
    starting from an empty collection: every key of `params` once, bound to its last value.
  */
  function Collected(params: seq<Entry>): (r: seq<Entry>)
    ensures UniqueKeys(r)
    ensures KeySet(r) == KeySet(params)
    ensures forall k :: Lookup(r, k) == LastValue(params, k)
  {
    if params == [] then []
    else
      var last := params[|params| - 1];
      var init := params[..|params| - 1];
      assert params == init + [last];
      assert KeySet(params) == KeySet(init) + {last.key};
      Assigned(Collected(init), last.key, last.value)
  }

  /** A dictionary (unique keys) is collected as it is: same pairs, same order. */
  lemma {:induction false} CollectedDictionary(params: seq<Entry>)
    requires UniqueKeys(params)
    ensures Collected(params) == params
  {
    if params != [] {
      var last := params[|params| - 1];
      var init := params[..|params| - 1];
      assert params == init + [last];
      assert UniqueKeys(init);
      CollectedDictionary(init);
      assert last.key !in KeySet(init) by {
        forall e | e in init ensures e.key != last.key {
          var i :| 0 <= i < |init| && init[i] == e;
          assert params[i] == e;
        }
      }
    }
  }

  /** What URL encoding guarantees: distinct inputs encode differently, and no output contains `&` or `=`. */
  ghost predicate SafeEncoder(encode: string -> string) {
    && (forall a, b :: encode(a) == encode(b) ==> a == b)
    && (forall a :: '&' !in encode(a) && '=' !in encode(a))
  }

  /** One rendered parameter, `key=value`. */
  function Pair(encode: string -> string, e: Entry): string {
    encode(e.key) + "=" + encode(e.value)
  }

  /** The rendered parameters, in collection order. */
  function Pairs(encode: string -> string, entries: seq<Entry>): (parts: seq<string>)
    ensures |parts| == |entries|
    ensures forall i :: 0 <= i < |entries| ==> parts[i] == Pair(encode, entries[i])
  {
    if entries == [] then [] else [Pair(encode, entries[0])] + Pairs(encode, entries[1..])
  }

  /** Parts joined with `&`. */
  function Join(parts: seq<string>): string {
    if parts == [] then ""
    else if |parts| == 1 then parts[0]
    else parts[0] + "&" + Join(parts[1..])
  }

  /** Text split at every `&`; the inverse of `Join` on parts free of `&`. */
  function Split(s: string): (parts: seq<string>)
    ensures |parts| >= 1
  {
    if s == [] then [[]]
    else
      var rest := Split(s[1..]);
      if s[0] == '&' then [[]] + rest
      else [[s[0]] + rest[0]] + rest[1..]
  }

  /**
    The collection's text form (its `ToString()`): `k1=v1&k2=v2...`, empty exactly for an
    empty collection; under a URL encoder, splitting it at `&` gives back the rendered pairs.
  */
  function Render(encode: string -> string, entries: seq<Entry>): (query: string)
    ensures query == [] <==> entries == []
    ensures SafeEncoder(encode) && entries != [] ==> Split(query) == Pairs(encode, entries)
  {
    RenderFacts(encode, entries);
    Join(Pairs(encode, entries))
  }

  lemma RenderFacts(encode: string -> string, entries: seq<Entry>)
    ensures var parts := Pairs(encode, entries);
      && (Join(parts) == [] <==> entries == [])
      && (SafeEncoder(encode) && entries != [] ==> Split(Join(parts)) == parts)
  {
    var parts := Pairs(encode, entries);
    if entries != [] {
      assert parts[0] == encode(entries[0].key) + "=" + encode(entries[0].value);
      assert parts[0] != [];
      JoinNonEmpty(parts);
      if SafeEncoder(encode) {
        forall i | 0 <= i < |parts| ensures '&' !in parts[i] {
          assert parts[i] == encode(entries[i].key) + "=" + encode(entries[i].value);
        }
        SplitJoin(parts);
      }
    }
  }

  lemma {:induction false} SplitPrefix(p: string, t: string)
    requires '&' !in p
    ensures Split(p + t) == [p + Split(t)[0]] + Split(t)[1..]
  {
    if p != [] {
      assert (p + t)[0] == p[0] && p[0] in p;
      assert (p + t)[1..] == p[1..] + t;
      SplitPrefix(p[1..], t);
      var rest := Split(p[1..] + t);
      assert rest[0] == p[1..] + Split(t)[0] && rest[1..] == Split(t)[1..];
      assert Split(p + t) == [[p[0]] + rest[0]] + rest[1..];
      assert p == [p[0]] + p[1..];
      assert [p[0]] + (p[1..] + Split(t)[0]) == p + Split(t)[0];
    } else {
      assert p + t == t && p + Split(t)[0] == Split(t)[0];
      assert Split(t) == [Split(t)[0]] + Split(t)[1..];
    }
  }

  /** Splitting a join gives the parts back, when no part contains `&`. */
  lemma {:induction false} SplitJoin(parts: seq<string>)
    requires |parts| >= 1
    requires forall i :: 0 <= i < |parts| ==> '&' !in parts[i]
    ensures Split(Join(parts)) == parts
  {
    if |parts| == 1 {
      SplitPrefix(parts[0], "");
      assert parts[0] + "" == parts[0];
    } else {
      var rest := Join(parts[1..]);
      SplitJoin(parts[1..]);
      assert parts[0] + "&" + rest == parts[0] + ("&" + rest);
      SplitPrefix(parts[0], "&" + rest);
      assert ("&" + rest)[1..] == rest;
      assert parts[0] + [] == parts[0];
      assert parts == [parts[0]] + parts[1..];
    }
  }

  /** Text split at its first separator `c` determines both sides. */
  lemma SplitAtSeparator(x: string, y: string, u: string, w: string, c: char)
    requires c !in x && c !in u
    requires x + [c] + y == u + [c] + w
    ensures x == u && y == w
  {
    var s := x + [c] + y;
    var t := u + [c] + w;
    assert s[|x|] == c && t[|u|] == c;
    assert forall k :: 0 <= k < |x| ==> s[k] == x[k];
    assert forall k :: 0 <= k < |u| ==> t[k] == u[k];
    assert |x| == |u|;
    assert x == s[..|x|] && u == t[..|u|];
    assert y == s[|x| + 1..] && w == t[|u| + 1..];
  }

  /** Under a safe encoder, a rendered parameter determines its key and value. */
  lemma PairInjective(encode: string -> string, a: Entry, b: Entry)
    requires SafeEncoder(encode)
    requires Pair(encode, a) == Pair(encode, b)
    ensures a == b
  {
    SplitAtSeparator(encode(a.key), encode(a.value), encode(b.key), encode(b.value), '=');
  }

  /**
    Under a safe encoder, distinct collections never render to the same query text:
    the query determines every key, every value and their order.
  */
  lemma RenderInjective(encode: string -> string, e1: seq<Entry>, e2: seq<Entry>)
    requires SafeEncoder(encode)
    requires Render(encode, e1) == Render(encode, e2)
    ensures e1 == e2
  {
    if e1 != [] && e2 != [] {
      assert Pairs(encode, e1) == Split(Render(encode, e1)) == Pairs(encode, e2);
      forall i | 0 <= i < |e1| ensures e1[i] == e2[i] {
        PairInjective(encode, e1[i], e2[i]);
      }
    }
  }

  lemma JoinNonEmpty(parts: seq<string>)
    requires |parts| >= 1 && parts[0] != []
    ensures Join(parts) != []
  {
    if |parts| > 1 {
      assert Join(parts)[0] == parts[0][0];
    }
  }

  /**
    The name/value collection the client fills (`HttpUtility.ParseQueryString(string.Empty)`).
    Only the operations the client uses are modelled: creation empty, and indexed assignment.
  */
  class QueryCollection {
    var entries: seq<Entry>

    ghost predicate Valid()
      reads this
    {
      UniqueKeys(entries)
    }

    constructor ()
      ensures Valid() && entries == []
    {
      entries := [];
    }

    /** `collection[key] = value`. */
    method Set(key: string, value: string)
      requires Valid()
      modifies this
      ensures Valid()
      ensures entries == Assigned(old(entries), key, value)
    {
      entries := Assigned(entries, key, value);
    }
  }
}
