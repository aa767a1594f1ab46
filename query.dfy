/**
 * Query parameters as `url.Values` holds them and as `Values.Encode` emits them:
 * pairs sorted by key, the values of one key in the order they were added.
 * Percent-escaping and the `=`/`&` punctuation are rendered by Target only.
 */
module Query {

  type Pair = (string, string)

  /** The pairs given to `Values.Add`, in call order. */
  type Values = seq<Pair>

  /** Byte-wise string order, the order `sort.Strings` uses. */
  predicate LexLe(a: string, b: string)
    decreases |a|
  {
    if a == [] then true
    else if b == [] then false
    else if a[0] != b[0] then a[0] < b[0]
    else LexLe(a[1..], b[1..])
  }

  lemma {:induction false} LexLeTotal(a: string, b: string)
    ensures LexLe(a, b) || LexLe(b, a)
    decreases |a|
  {
    if a != [] && b != [] && a[0] == b[0] {
      LexLeTotal(a[1..], b[1..]);
    }
  }

  lemma {:induction false} LexLeReflexive(a: string)
    ensures LexLe(a, a)
    decreases |a|
  {
    if a != [] {
      LexLeReflexive(a[1..]);
    }
  }

  predicate SortedByKey(s: seq<Pair>) {
    forall i :: 0 < i < |s| ==> LexLe(s[i - 1].0, s[i].0)
  }

  /** The values stored under `key`, in order. */
  function ValuesOf(s: seq<Pair>, key: string): seq<string> {
    if s == [] then []
    else (if s[0].0 == key then [s[0].1] else []) + ValuesOf(s[1..], key)
  }

  lemma ValuesOfCons(x: Pair, s: seq<Pair>, key: string)
    ensures ValuesOf([x] + s, key) == (if x.0 == key then [x.1] else []) + ValuesOf(s, key)
  {
    assert ([x] + s)[1..] == s;
  }

  lemma {:induction false} ValuesOfAbsentKey(s: seq<Pair>, key: string)
    requires forall i :: 0 <= i < |s| ==> s[i].0 != key
    ensures ValuesOf(s, key) == []
    decreases |s|
  {
    if s != [] {
      ValuesOfAbsentKey(s[1..], key);
    }
  }

  /**
   * Puts `p` into a key-sorted list in front of the first pair whose key is not
   * smaller, so a pair added earlier stays ahead of later pairs with its key.
   */
  function Insert(p: Pair, s: seq<Pair>): (r: seq<Pair>)
    requires SortedByKey(s)
    ensures SortedByKey(r)
    ensures multiset(r) == multiset(s) + multiset{p}
    ensures r[0] == p || (s != [] && r[0] == s[0])
    decreases |s|
  {
    if s == [] || LexLe(p.0, s[0].0) then
      [p] + s
    else
      LexLeTotal(p.0, s[0].0);
      var rest := Insert(p, s[1..]);
      assert s == [s[0]] + s[1..];
      [s[0]] + rest
  }

  /** Inserting `p` adds its value in front of the values already under its key, and touches no other key. */
  lemma {:induction false} InsertValues(p: Pair, s: seq<Pair>, key: string)
    requires SortedByKey(s)
    ensures ValuesOf(Insert(p, s), key) == (if p.0 == key then [p.1] else []) + ValuesOf(s, key)
    decreases |s|
  {
    if s == [] || LexLe(p.0, s[0].0) {
      ValuesOfCons(p, s, key);
    } else {
      LexLeReflexive(p.0);
      assert p.0 != s[0].0;
      InsertValues(p, s[1..], key);
      ValuesOfCons(s[0], Insert(p, s[1..]), key);
      ValuesOfCons(s[0], s[1..], key);
      assert s == [s[0]] + s[1..];
    }
  }

  /** A pair whose key is not above the first key of a sorted list goes in front. */
  lemma InsertFront(p: Pair, s: seq<Pair>)
    requires SortedByKey(s) && (s == [] || LexLe(p.0, s[0].0))
    ensures Insert(p, s) == [p] + s
  {
  }

  /** A pair whose key is above the only key of a one-pair list goes behind it. */
  lemma InsertBehind(p: Pair, x: Pair)
    requires !LexLe(p.0, x.0)
    ensures Insert(p, [x]) == [x, p]
  {
    assert [x][1..] == [];
  }

  /**
   * `Values.Encode` up to escaping: the pairs ordered by key, every value of a key
   * kept and kept in the order it was added.
   */
  function Encode(v: Values): (r: seq<Pair>)
    ensures SortedByKey(r)
    ensures multiset(r) == multiset(v)
    decreases |v|
  {
    if v == [] then []
    else
      assert v == [v[0]] + v[1..];
      Insert(v[0], Encode(v[1..]))
  }

  /** Encoding keeps, for every key, exactly the values added under it and their order. */
  lemma {:induction false} EncodeKeepsValues(v: Values, key: string)
    ensures ValuesOf(Encode(v), key) == ValuesOf(v, key)
    decreases |v|
  {
    if v != [] {
      EncodeKeepsValues(v[1..], key);
      InsertValues(v[0], Encode(v[1..]), key);
      ValuesOfCons(v[0], v[1..], key);
      assert v == [v[0]] + v[1..];
    }
  }

  lemma EncodeCons(p: Pair, v: Values)
    ensures Encode([p] + v) == Insert(p, Encode(v))
  {
    assert ([p] + v)[1..] == v;
  }

  /** A sorted list of pairs with distinct keys is its own encoding, so queries built in key order go out unchanged. */
  lemma {:induction false} EncodeSortedIsIdentity(v: Values)
    requires forall i :: 0 < i < |v| ==> LexLe(v[i - 1].0, v[i].0) && v[i - 1].0 != v[i].0
    ensures Encode(v) == v
    decreases |v|
  {
    if v != [] {
      EncodeSortedIsIdentity(v[1..]);
      assert v == [v[0]] + v[1..];
      EncodeCons(v[0], v[1..]);
      InsertFront(v[0], v[1..]);
    }
  }

  /**
   * A request: the base URL, the text appended to its path, and the encoded query
   * (`Url.RawQuery`).
   */
  datatype Request = Request(base: string, path: string, query: seq<Pair>)

  function JoinPairs(q: seq<Pair>): string
    decreases |q|
  {
    if q == [] then ""
    else q[0].0 + "=" + q[0].1 + (if |q| == 1 then "" else "&" + JoinPairs(q[1..]))
  }

  /** The URL text of a request, without percent-escaping. */
  function Target(req: Request): string {
    req.base + req.path + (if req.query == [] then "" else "?" + JoinPairs(req.query))
  }
}
