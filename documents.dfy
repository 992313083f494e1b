/**
 * The backend's MongoDB collections, as the services use them through their
 * Spring Data repositories: a list of documents in storage order, each with
 * an id. `save` replaces the document with the same id or adds a new one at
 * the end, `findById` finds it, and `delete`/`deleteById` remove it.
 */
module Documents {
  import opened Wrappers
  import opened Seqs

  /** The test "has id `id`". */
  function HasKey<T>(key: T -> string, id: string): T -> bool {
    (d: T) => key(d) == id
  }

  function LacksKey<T>(key: T -> string, id: string): T -> bool {
    (d: T) => key(d) != id
  }

  /** No two documents share an id, the collection's primary key. */
  predicate DistinctKeys<T>(docs: seq<T>, key: T -> string) {
    forall i, j :: 0 <= i < j < |docs| ==> key(docs[i]) != key(docs[j])
  }

  /** `findById(id)`. */
  function Lookup<T>(docs: seq<T>, id: string, key: T -> string): (r: Option<T>)
    ensures r.None? <==> forall i :: 0 <= i < |docs| ==> key(docs[i]) != id
    ensures r.Some? ==> key(r.value) == id && r.value in docs
  {
    var k := FindIndex(docs, HasKey(key, id));
    if k < 0 then None else Some(docs[k])
  }

  /** `save(d)`: the document with `d`'s id is replaced in place, or `d` is added at the end. */
  function Saved<T>(docs: seq<T>, d: T, key: T -> string): (r: seq<T>)
    ensures Lookup(r, key(d), key) == Some(d)
    ensures |r| == |docs| || r == docs + [d]
  {
    var k := FindIndex(docs, HasKey(key, key(d)));
    if k < 0 then
      var r := docs + [d];
      assert FindIndex(r, HasKey(key, key(d))) == |docs| by {
        FirstIndexIs(r, HasKey(key, key(d)), |docs|);
      }
      r
    else
      var r := docs[k := d];
      assert FindIndex(r, HasKey(key, key(d))) == k by {
        FirstIndexIs(r, HasKey(key, key(d)), k);
      }
      r
  }

  /** `deleteById(id)`: every document with that id goes. */
  function Deleted<T>(docs: seq<T>, id: string, key: T -> string): (r: seq<T>)
    ensures Lookup(r, id, key).None?
    ensures |r| <= |docs|
  {
    Filter(docs, LacksKey(key, id))
  }

  // -------------------------------------------------------------- lemmas

  /** An index whose element passes while no earlier one does is the one `FindIndex` finds. */
  lemma FirstIndexIs<T>(s: seq<T>, p: T -> bool, k: int)
    requires 0 <= k < |s| && p(s[k]) && forall j :: 0 <= j < k ==> !p(s[j])
    ensures FindIndex(s, p) == k
  {
  }

  /** Saving keeps the ids distinct. */
  lemma SavedKeepsKeysDistinct<T>(docs: seq<T>, d: T, key: T -> string)
    requires DistinctKeys(docs, key)
    ensures DistinctKeys(Saved(docs, d, key), key)
  {
  }

  /** A document whose id is not stored yet is appended. */
  lemma SavedNewAppends<T>(docs: seq<T>, d: T, key: T -> string)
    requires Lookup(docs, key(d), key).None?
    ensures Saved(docs, d, key) == docs + [d]
  {
  }

  /** A property every stored document and the saved one have, every document has after the save. */
  lemma SavedKeepsAll<T>(docs: seq<T>, d: T, key: T -> string, p: T -> bool)
    requires p(d) && forall i :: 0 <= i < |docs| ==> p(docs[i])
    ensures var r := Saved(docs, d, key); forall i :: 0 <= i < |r| ==> p(r[i])
  {
  }

  /** Saving a document leaves what every other id finds as it was. */
  lemma SavedKeepsOthers<T>(docs: seq<T>, d: T, key: T -> string, id: string)
    requires id != key(d)
    ensures Lookup(Saved(docs, d, key), id, key) == Lookup(docs, id, key)
  {
    var r := Saved(docs, d, key);
    var k := FindIndex(docs, HasKey(key, id));
    if k >= 0 {
      assert r[k] == docs[k];
      FirstIndexIs(r, HasKey(key, id), k);
    }
  }

  /** Deleting keeps the ids distinct. */
  lemma {:induction false} DeletedKeepsKeysDistinct<T>(docs: seq<T>, id: string, key: T -> string)
    requires DistinctKeys(docs, key)
    ensures DistinctKeys(Deleted(docs, id, key), key)
  {
    if docs != [] {
      var rest := docs[1..];
      assert DistinctKeys(rest, key) by {
        forall i, j | 0 <= i < j < |rest| ensures key(rest[i]) != key(rest[j]) {
          assert rest[i] == docs[i + 1] && rest[j] == docs[j + 1];
        }
      }
      DeletedKeepsKeysDistinct(rest, id, key);
      var tail := Deleted(rest, id, key);
      forall t | t in tail ensures key(t) != key(docs[0]) {
        var m :| 0 <= m < |rest| && rest[m] == t;
        assert docs[m + 1] == t;
      }
    }
  }

  /** Deleting an id leaves what every other id finds as it was. */
  lemma {:induction false} DeletedKeepsOthers<T>(docs: seq<T>, id: string, key: T -> string, other: string)
    requires other != id
    ensures Lookup(Deleted(docs, id, key), other, key) == Lookup(docs, other, key)
  {
    if docs != [] {
      DeletedKeepsOthers(docs[1..], id, key, other);
      var x, rest := docs[0], docs[1..];
      assert docs == [x] + rest;
      LookupCons(x, rest, other, key);
      if key(x) != id {
        assert Deleted(docs, id, key) == [x] + Deleted(rest, id, key);
        LookupCons(x, Deleted(rest, id, key), other, key);
      } else {
        assert Deleted(docs, id, key) == Deleted(rest, id, key);
      }
    }
  }

  /** Looking up in a collection with one more document in front. */
  lemma LookupCons<T>(x: T, docs: seq<T>, id: string, key: T -> string)
    ensures Lookup([x] + docs, id, key) == if key(x) == id then Some(x) else Lookup(docs, id, key)
  {
    assert ([x] + docs)[1..] == docs;
  }

  /** With distinct ids, deleting a stored id removes exactly that one document. */
  lemma {:induction false} DeletedRemovesOne<T>(docs: seq<T>, k: int, key: T -> string)
    requires 0 <= k < |docs| && DistinctKeys(docs, key)
    ensures Deleted(docs, key(docs[k]), key) == RemoveAt(docs, k)
  {
    var id := key(docs[k]);
    if k == 0 {
      FilterAllPass(docs[1..], LacksKey(key, id));
    } else {
      assert LacksKey(key, id)(docs[0]);
      assert DistinctKeys(docs[1..], key) by {
        forall i, j | 0 <= i < j < |docs[1..]| ensures key(docs[1..][i]) != key(docs[1..][j]) {
          assert docs[1..][i] == docs[i + 1] && docs[1..][j] == docs[j + 1];
        }
      }
      DeletedRemovesOne(docs[1..], k - 1, key);
      assert RemoveAt(docs, k) == [docs[0]] + RemoveAt(docs[1..], k - 1);
    }
  }
}
