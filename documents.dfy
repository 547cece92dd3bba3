/** The document store behind the resource actions, reduced to what the
    handlers rely on: collections of JSON-like documents keyed by id, and
    queries that match documents by exact field equality. */
module Documents {
  import opened Optional

  /** A field value of a stored document or of a request payload. */
  datatype Value = Null | Str(s: string) | Num(n: int) | Strs(items: seq<string>)

  type Doc = map<string, Value>

  /** A query object: every listed field must hold exactly the given value. */
  type Query = map<string, Value>

  /** One collection, from document id to document. Ids are handed out from
      one increasing counter, so a smaller id means an older document. */
  type Collection = map<nat, Doc>

  /** The value of a field; an absent field reads as `Null`, which is how the
      store treats a missing field in a query (`{email: null}` matches a user
      without an email). */
  function Get(d: Doc, field: string): Value {
    if field in d then d[field] else Null
  }

  /** A document matches a query when every queried field holds the queried
      value; a query for `Null` matches a document that lacks the field. */
  predicate Matches(d: Doc, q: Query)
    ensures q == map[] ==> Matches(d, q)
    ensures Matches(d, q) <==>
      forall k :: k in q ==> (k in d && d[k] == q[k]) || (k !in d && q[k] == Null)
  {
    forall k :: k in q ==> Get(d, k) == q[k]
  }

  /** Every id in use is below the next id to be handed out. */
  predicate KeysBelow(c: Collection, n: nat) {
    forall id :: id in c ==> id < n
  }

  /** The ids below `n` of the documents matching `q`, oldest first. */
  function MatchIds(c: Collection, q: Query, n: nat): (ids: seq<nat>)
    ensures forall i :: 0 <= i < |ids| ==> ids[i] < n && ids[i] in c && Matches(c[ids[i]], q)
    ensures forall id :: id < n && id in c && Matches(c[id], q) ==> id in ids
    ensures forall i, j :: 0 <= i < j < |ids| ==> ids[i] < ids[j]
  {
    if n == 0 then []
    else
      var earlier := MatchIds(c, q, n - 1);
      if n - 1 in c && Matches(c[n - 1], q) then earlier + [n - 1] else earlier
  }

  /** The ids a list holds. */
  function IdSet(ids: seq<nat>): set<nat> {
    set id | id in ids
  }

  /** A strictly increasing list of ids holds each id once. */
  lemma {:induction false} IncreasingIdsDistinct(ids: seq<nat>)
    requires forall i, j :: 0 <= i < j < |ids| ==> ids[i] < ids[j]
    ensures |IdSet(ids)| == |ids|
  {
    if ids == [] {
      assert IdSet(ids) == {};
    } else {
      var init, last := ids[..|ids| - 1], ids[|ids| - 1];
      IncreasingIdsDistinct(init);
      assert ids == init + [last];
      assert last !in IdSet(init);
      assert IdSet(ids) == IdSet(init) + {last};
    }
  }

  /** The ids of the documents of `c` that match `q`. */
  function MatchSet(c: Collection, q: Query): set<nat> {
    set id | id in c && Matches(c[id], q)
  }

  /** `MatchIds` lists every matching document of the collection once. */
  lemma MatchIdsCount(c: Collection, q: Query, n: nat)
    requires KeysBelow(c, n)
    ensures |MatchIds(c, q, n)| == |MatchSet(c, q)|
  {
    var ids := MatchIds(c, q, n);
    IncreasingIdsDistinct(ids);
    assert IdSet(ids) == MatchSet(c, q);
  }

  /** `model.find(query)`: one entry per matching document, oldest first. */
  function FindAll(c: Collection, q: Query, n: nat): (docs: seq<Doc>)
    requires KeysBelow(c, n)
    ensures |docs| == |MatchIds(c, q, n)| && forall i :: 0 <= i < |docs| ==> docs[i] == c[MatchIds(c, q, n)[i]]
    ensures forall d :: d in docs ==> Matches(d, q)
    ensures forall id :: id in c && Matches(c[id], q) ==> c[id] in docs
    ensures |docs| == |MatchSet(c, q)|
  {
    var ids := MatchIds(c, q, n);
    var docs := seq(|ids|, i requires 0 <= i < |ids| => c[ids[i]]);
    MatchIdsCount(c, q, n);
    DocsOfMatchIds(c, q, n, docs);
    docs
  }

  /** The documents of the matching ids, in their order, are exactly the
      matching documents. */
  lemma DocsOfMatchIds(c: Collection, q: Query, n: nat, docs: seq<Doc>)
    requires KeysBelow(c, n)
    requires |docs| == |MatchIds(c, q, n)| && forall i :: 0 <= i < |docs| ==> docs[i] == c[MatchIds(c, q, n)[i]]
    ensures forall d :: d in docs ==> Matches(d, q)
    ensures forall id :: id in c && Matches(c[id], q) ==> c[id] in docs
  {
    var ids := MatchIds(c, q, n);
    forall id | id in c && Matches(c[id], q) ensures c[id] in docs {
      var i :| 0 <= i < |ids| && ids[i] == id;
      assert docs[i] == c[id];
    }
  }

  /** Two equal matching documents under different ids are both found:
      `find` answers one entry per document, not per distinct value. */
  lemma FindsEqualDocsTwice(a: nat, b: nat, n: nat, d: Doc, q: Query)
    requires a != b && a < n && b < n && Matches(d, q)
    ensures KeysBelow(map[a := d, b := d], n)
    ensures var found := FindAll(map[a := d, b := d], q, n);
      |found| == 2 && forall x :: x in found ==> x == d
  {
    TwoMatches(a, b, d, q);
    FoundAreStored(map[a := d, b := d], q, n, d);
  }

  lemma TwoMatches(a: nat, b: nat, d: Doc, q: Query)
    requires a != b && Matches(d, q)
    ensures |MatchSet(map[a := d, b := d], q)| == 2
  {
    var c := map[a := d, b := d];
    assert c.Keys == {a, b};
    assert MatchSet(c, q) == c.Keys;
    assert {a, b} == {a} + {b} && a !in {b};
  }

  /** When every stored document is `d`, `find` answers only copies of `d`. */
  lemma FoundAreStored(c: Collection, q: Query, n: nat, d: Doc)
    requires KeysBelow(c, n) && forall id :: id in c ==> c[id] == d
    ensures forall x :: x in FindAll(c, q, n) ==> x == d
  {
    var found := FindAll(c, q, n);
    forall x | x in found ensures x == d {
      var i :| 0 <= i < |found| && found[i] == x;
      assert MatchIds(c, q, n)[i] in c;
    }
  }

  /** `model.findOne(query)`: the oldest matching document's id, or None
      when nothing matches. */
  function FindOne(c: Collection, q: Query, n: nat): (r: Option<nat>)
    requires KeysBelow(c, n)
    ensures r.Some? ==> r.value in c && Matches(c[r.value], q)
    ensures r.Some? ==> forall id :: id in c && Matches(c[id], q) ==> r.value <= id
    ensures r.None? <==> forall id :: id in c ==> !Matches(c[id], q)
  {
    var ids := MatchIds(c, q, n);
    if ids == [] then None
    else
      assert forall id :: id in c && Matches(c[id], q) ==> ids[0] <= id by {
        forall id | id in c && Matches(c[id], q) ensures ids[0] <= id {
          var i :| 0 <= i < |ids| && ids[i] == id;
        }
      }
      Some(ids[0])
  }

  /** FindOne depends only on which documents match. */
  lemma FindOneSameMatches(c: Collection, n: nat, q: Query, c': Collection, n': nat)
    requires KeysBelow(c, n) && KeysBelow(c', n')
    requires c.Keys == c'.Keys
    requires forall id :: id in c ==> (Matches(c[id], q) <==> Matches(c'[id], q))
    ensures FindOne(c, q, n) == FindOne(c', q, n')
  {
    var r, r' := FindOne(c, q, n), FindOne(c', q, n');
    if r.Some? && r'.Some? {
      assert r.value <= r'.value && r'.value <= r.value;
    }
  }

  /** Replacing a document by one that matches `q` exactly when the old one
      did leaves FindOne's answer to `q` unchanged. */
  lemma {:induction false} FindOneAfterUpdate(c: Collection, n: nat, q: Query, id: nat, d: Doc)
    requires KeysBelow(c, n) && id in c
    requires Matches(d, q) <==> Matches(c[id], q)
    ensures KeysBelow(c[id := d], n)
    ensures FindOne(c[id := d], q, n) == FindOne(c, q, n)
  {
    FindOneSameMatches(c, n, q, c[id := d], n);
  }

  /** Inserting a document under the next fresh id: the answer only changes
      when nothing matched before and the new document matches. */
  lemma {:induction false} FindOneAfterInsert(c: Collection, n: nat, q: Query, d: Doc)
    requires KeysBelow(c, n)
    ensures KeysBelow(c[n := d], n + 1)
    ensures FindOne(c[n := d], q, n + 1) ==
      if FindOne(c, q, n).Some? then FindOne(c, q, n)
      else if Matches(d, q) then Some(n) else None
  {
    if FindOne(c, q, n).Some? {
      InsertKeepsOlderMatch(c, n, q, d);
    } else {
      InsertAfterNoMatch(c, n, q, d);
    }
  }

  lemma InsertKeepsOlderMatch(c: Collection, n: nat, q: Query, d: Doc)
    requires KeysBelow(c, n) && FindOne(c, q, n).Some?
    ensures KeysBelow(c[n := d], n + 1)
    ensures FindOne(c[n := d], q, n + 1) == FindOne(c, q, n)
  {
    var c' := c[n := d];
    var v := FindOne(c, q, n).value;
    assert v in c' && c'[v] == c[v];
    var r' := FindOne(c', q, n + 1);
    assert r'.Some? && r'.value <= v;
    var w := r'.value;
    assert w in c && c[w] == c'[w];
  }

  lemma InsertAfterNoMatch(c: Collection, n: nat, q: Query, d: Doc)
    requires KeysBelow(c, n) && FindOne(c, q, n).None?
    ensures KeysBelow(c[n := d], n + 1)
    ensures FindOne(c[n := d], q, n + 1) == if Matches(d, q) then Some(n) else None
  {
    var c' := c[n := d];
    assert forall id :: id in c' && id != n ==> !Matches(c'[id], q) by {
      forall id | id in c' && id != n ensures !Matches(c'[id], q) {
        assert id in c && c'[id] == c[id];
      }
    }
    if Matches(d, q) {
      assert n in c' && Matches(c'[n], q);
    }
  }
}
