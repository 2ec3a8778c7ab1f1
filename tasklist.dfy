/** The store behind each page's task list: a newest-first sequence of records that
    handlers prepend to (`[record, ...prev]`) and timer callbacks update in place by id
    (`prev.map(r => r.id === id ? {...r, ...} : r)`). */
module TaskList {

  /** `s.map(r => key(r) === id ? f(r) : r)`: every record whose id matches is replaced
      by its mutated copy, at its own position; all others stay as they are. */
  function Update<T>(s: seq<T>, key: T -> string, id: string, f: T -> T): (r: seq<T>)
    ensures |r| == |s|
    ensures forall i :: 0 <= i < |s| ==> r[i] == if key(s[i]) == id then f(s[i]) else s[i]
  {
    if s == [] then []
    else [if key(s[0]) == id then f(s[0]) else s[0]] + Update(s[1..], key, id, f)
  }

  /** The ids of the records, in list order. */
  function Keys<T>(s: seq<T>, key: T -> string): seq<string>
  {
    seq(|s|, i requires 0 <= i < |s| => key(s[i]))
  }

  /** No id occurs twice. */
  ghost predicate Distinct(ids: seq<string>)
  {
    forall i, j :: 0 <= i < j < |ids| ==> ids[i] != ids[j]
  }

  /** `f` never changes a record's id. */
  ghost predicate KeepsKeys<T>(s: seq<T>, key: T -> string, f: T -> T)
  {
    forall i :: 0 <= i < |s| ==> key(f(s[i])) == key(s[i])
  }

  /** `after` is `before` with zero or more records prepended, and every record of
      `before`, at its shifted position, related to its old value by `step`. */
  ghost predicate Evolves<T>(before: seq<T>, after: seq<T>, step: (T, T) -> bool)
  {
    |before| <= |after| &&
    forall i :: 0 <= i < |before| ==> step(before[i], after[|after| - |before| + i])
  }

  /** Updating an id that no record carries leaves the list as it is. */
  lemma UpdateAbsent<T>(s: seq<T>, key: T -> string, id: string, f: T -> T)
    requires id !in Keys(s, key)
    ensures Update(s, key, id, f) == s
  {
    forall i | 0 <= i < |s| ensures key(s[i]) != id {
      assert Keys(s, key)[i] == key(s[i]);
    }
  }

  /** An id-preserving update keeps the ids, their order and the length. */
  lemma UpdateKeys<T>(s: seq<T>, key: T -> string, id: string, f: T -> T)
    requires KeepsKeys(s, key, f)
    ensures Keys(Update(s, key, id, f), key) == Keys(s, key)
  {
  }

  /** With distinct ids, updating the id of position k changes that record and no other. */
  lemma UpdateAt<T>(s: seq<T>, key: T -> string, f: T -> T, k: nat)
    requires k < |s|
    requires Distinct(Keys(s, key))
    ensures Update(s, key, key(s[k]), f) == s[k := f(s[k])]
  {
    forall i | 0 <= i < |s| && i != k ensures key(s[i]) != key(s[k]) {
      var ks := Keys(s, key);
      assert ks[i] == key(s[i]) && ks[k] == key(s[k]);
      if i < k { assert ks[i] != ks[k]; } else { assert ks[k] != ks[i]; }
    }
  }

  /** Applying an idempotent, id-preserving update twice is the same as applying it once. */
  lemma UpdateIdempotent<T>(s: seq<T>, key: T -> string, id: string, f: T -> T)
    requires KeepsKeys(s, key, f)
    requires forall i :: 0 <= i < |s| ==> f(f(s[i])) == f(s[i])
    ensures Update(Update(s, key, id, f), key, id, f) == Update(s, key, id, f)
  {
  }

  /** Applying a self-inverse, id-preserving update twice restores the list. */
  lemma UpdateInvolution<T>(s: seq<T>, key: T -> string, id: string, f: T -> T)
    requires KeepsKeys(s, key, f)
    requires forall i :: 0 <= i < |s| ==> f(f(s[i])) == s[i]
    ensures Update(Update(s, key, id, f), key, id, f) == s
  {
  }

  /** Two callbacks applying the same id-preserving update to ids a and b give the same
      list whichever fires first. */
  lemma UpdateCommutes<T>(s: seq<T>, key: T -> string, a: string, b: string, f: T -> T)
    requires KeepsKeys(s, key, f)
    requires forall i :: 0 <= i < |s| ==> key(f(f(s[i]))) == key(f(s[i]))
    ensures Update(Update(s, key, a, f), key, b, f) == Update(Update(s, key, b, f), key, a, f)
  {
    forall i | 0 <= i < |s|
      ensures Update(Update(s, key, a, f), key, b, f)[i] == Update(Update(s, key, b, f), key, a, f)[i]
    {
    }
  }

  /** An update for another id does not touch a newly prepended record: updating and
      prepending commute. */
  lemma UpdatePrepend<T>(x: T, s: seq<T>, key: T -> string, id: string, f: T -> T)
    requires key(x) != id
    ensures Update([x] + s, key, id, f) == [x] + Update(s, key, id, f)
  {
  }

  /** The ids of a list with a prepended record. */
  lemma KeysPrepend<T>(x: T, s: seq<T>, key: T -> string)
    ensures Keys([x] + s, key) == [key(x)] + Keys(s, key)
  {
  }

  /** Prepending a record with a fresh id keeps the ids distinct. */
  lemma PrependDistinct(x: string, ids: seq<string>)
    requires Distinct(ids) && x !in ids
    ensures Distinct([x] + ids)
  {
    forall i, j | 0 <= i < j < |[x] + ids| ensures ([x] + ids)[i] != ([x] + ids)[j] {
      if i == 0 { assert ([x] + ids)[j] == ids[j - 1]; }
    }
  }

  /** Evolving twice is evolving, whenever the record step is transitive. */
  lemma EvolvesTransitive<T>(a: seq<T>, b: seq<T>, c: seq<T>, step: (T, T) -> bool)
    requires Evolves(a, b, step) && Evolves(b, c, step)
    requires forall x, y, z :: step(x, y) && step(y, z) ==> step(x, z)
    ensures Evolves(a, c, step)
  {
    forall i | 0 <= i < |a| ensures step(a[i], c[|c| - |a| + i]) {
      var j := |b| - |a| + i;
      assert step(a[i], b[j]);
      assert step(b[j], c[|c| - |b| + j]);
    }
  }

  /** Prepending a record lets every old record keep its value. */
  lemma PrependEvolves<T>(x: T, s: seq<T>, step: (T, T) -> bool)
    requires forall i :: 0 <= i < |s| ==> step(s[i], s[i])
    ensures Evolves(s, [x] + s, step)
  {
    forall i | 0 <= i < |s| ensures step(s[i], ([x] + s)[|[x] + s| - |s| + i]) {
      assert ([x] + s)[1 + i] == s[i];
    }
  }

  /** An update evolves the list when the mutation is a step for every matching record. */
  lemma UpdateEvolves<T>(s: seq<T>, key: T -> string, id: string, f: T -> T, step: (T, T) -> bool)
    requires forall i :: 0 <= i < |s| ==> step(s[i], s[i])
    requires forall i :: 0 <= i < |s| && key(s[i]) == id ==> step(s[i], f(s[i]))
    ensures Evolves(s, Update(s, key, id, f), step)
  {
  }
}
