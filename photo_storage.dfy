/** The `PhotoStorage` actor (PhotoStorage.swift): the ordered array of records plus the index
    from id to position. Its methods run one at a time here, as the actor serializes them.
    The pure functions on `Store` values say what each mutating method computes; the lemmas say
    what the source promises about those functions. */
module Storage {
  import opened Base
  import opened Models

  /** The state an operation works on: `photos` and `indexMap`. */
  datatype Store = Store(photos: seq<Photo>, indexMap: map<string, int>)

  /** The ids present in `ps`. */
  function IdSet(ps: seq<Photo>): set<string>
  {
    set i | 0 <= i < |ps| :: ps[i].id
  }

  /** The ids of `ps`, in order. */
  function Ids(ps: seq<Photo>): (r: seq<string>)
    ensures |r| == |ps| && forall i :: 0 <= i < |ps| ==> r[i] == ps[i].id
  {
    if ps == [] then [] else [ps[0].id] + Ids(ps[1..])
  }

  ghost predicate DistinctIds(ps: seq<Photo>)
  {
    forall i, j :: 0 <= i < j < |ps| ==> ps[i].id != ps[j].id
  }

  /** Every indexed position lies inside the array, so `updatePhoto` at it does not trap. */
  ghost predicate InRange(s: Store)
  {
    forall id :: id in s.indexMap ==> 0 <= s.indexMap[id] < |s.photos|
  }

  /** The index invariant: `indexMap[id] = i` implies `photos[i].id == id`, and every record is
      indexed at its own position (which rules out two records with one id). */
  ghost predicate Valid(s: Store)
  {
    && (forall id :: id in s.indexMap ==> 0 <= s.indexMap[id] < |s.photos| && s.photos[s.indexMap[id]].id == id)
    && (forall i :: 0 <= i < |s.photos| ==> s.photos[i].id in s.indexMap && s.indexMap[s.photos[i].id] == i)
  }

  lemma ValidHasDistinctIds(s: Store)
    requires Valid(s)
    ensures DistinctIds(s.photos) && InRange(s)
    ensures s.indexMap.Keys == IdSet(s.photos)
  {
    forall id | id in s.indexMap
      ensures id in IdSet(s.photos)
    {
      assert s.photos[s.indexMap[id]].id == id;
    }
  }

  // ----- addPhotos -----

  /** One iteration of the `addPhotos` loop: overwrite in place when the id is indexed, append
      and index otherwise. An indexed position beyond the array is ignored, as `updatePhoto`
      ignores it; the positions where it traps are excluded by `PhotoStorage.AddPhotos`. */
  function Upsert(s: Store, p: Photo): (r: Store)
    ensures InRange(s) ==> InRange(r)
  {
    if p.id in s.indexMap then
      var k := s.indexMap[p.id];
      if 0 <= k < |s.photos| then Store(s.photos[k := p], s.indexMap) else s
    else Store(s.photos + [p], s.indexMap[p.id := |s.photos|])
  }

  /** `addPhotos(newPhotos: xs)`: the loop run over the whole input. */
  function AddAll(s: Store, xs: seq<Photo>): (r: Store)
    ensures InRange(s) ==> InRange(r)
    decreases |xs|
  {
    if xs == [] then s else Upsert(AddAll(s, xs[..|xs| - 1]), xs[|xs| - 1])
  }

  lemma UpsertValid(s: Store, p: Photo)
    requires Valid(s)
    ensures Valid(Upsert(s, p))
  {
    ValidHasDistinctIds(s);
  }

  /** Overwriting a record with one of the same id, as `updatePhoto` does when it is given the
      record's own indexed position, keeps the index invariant. */
  lemma ReplaceSameIdValid(s: Store, k: int, p: Photo)
    requires Valid(s) && 0 <= k < |s.photos| && s.photos[k].id == p.id
    ensures Valid(Store(s.photos[k := p], s.indexMap))
  {
  }

  /** `addPhotos` keeps the index invariant, whatever the input repeats. */
  lemma {:induction false} AddAllValid(s: Store, xs: seq<Photo>)
    requires Valid(s)
    ensures Valid(AddAll(s, xs))
  {
    ValidHasDistinctIds(s);
    if xs != [] {
      AddAllValid(s, xs[..|xs| - 1]);
      UpsertValid(AddAll(s, xs[..|xs| - 1]), xs[|xs| - 1]);
    }
  }

  lemma IdSetSnoc(ps: seq<Photo>, p: Photo)
    ensures IdSet(ps + [p]) == IdSet(ps) + {p.id}
  {
    var qs := ps + [p];
    assert qs[|ps|] == p;
    forall id | id in IdSet(ps)
      ensures id in IdSet(qs)
    {
      var i :| 0 <= i < |ps| && ps[i].id == id;
      assert qs[i] == ps[i];
    }
  }

  /** Afterwards every input id is indexed, and nothing else was added to the index. */
  lemma {:induction false} AddAllIndexesInputs(s: Store, xs: seq<Photo>)
    requires InRange(s)
    ensures AddAll(s, xs).indexMap.Keys == s.indexMap.Keys + IdSet(xs)
  {
    if xs != [] {
      var init := xs[..|xs| - 1];
      AddAllIndexesInputs(s, init);
      assert init + [xs[|xs| - 1]] == xs;
      IdSetSnoc(init, xs[|xs| - 1]);
    }
  }

  /** Every existing record keeps its position and its id; the positions already indexed keep
      their index entry. */
  lemma {:induction false} AddAllKeepsPositions(s: Store, xs: seq<Photo>)
    requires Valid(s)
    ensures var r := AddAll(s, xs);
      && |r.photos| >= |s.photos|
      && (forall i :: 0 <= i < |s.photos| ==> r.photos[i].id == s.photos[i].id)
      && (forall id :: id in s.indexMap ==> id in r.indexMap && r.indexMap[id] == s.indexMap[id])
  {
    if xs != [] {
      var init := xs[..|xs| - 1];
      AddAllKeepsPositions(s, init);
      AddAllValid(s, init);
    }
  }

  /** Records whose id does not occur in the input are left exactly as they were. */
  lemma {:induction false} AddAllLeavesOthers(s: Store, xs: seq<Photo>)
    requires Valid(s)
    ensures var r := AddAll(s, xs);
      |r.photos| >= |s.photos| &&
      forall i :: 0 <= i < |s.photos| && s.photos[i].id !in IdSet(xs) ==> r.photos[i] == s.photos[i]
  {
    AddAllKeepsPositions(s, xs);
    if xs != [] {
      var init := xs[..|xs| - 1];
      var x := xs[|xs| - 1];
      AddAllLeavesOthers(s, init);
      AddAllValid(s, init);
      AddAllKeepsPositions(s, init);
      IdSetSnoc(init, x);
      assert init + [x] == xs;
      var a := AddAll(s, init);
      forall i | 0 <= i < |s.photos| && s.photos[i].id !in IdSet(xs)
        ensures AddAll(s, xs).photos[i] == s.photos[i]
      {
        assert s.photos[i].id !in IdSet(init) && s.photos[i].id != x.id;
        if x.id in a.indexMap {
          assert a.photos[a.indexMap[x.id]].id == x.id;
          assert a.indexMap[x.id] != i;
        }
      }
    }
  }

  /** The last record in `xs` with the given id. */
  function LastWithId(xs: seq<Photo>, id: string): (p: Photo)
    requires id in IdSet(xs)
    ensures p in xs && p.id == id
  {
    var x := xs[|xs| - 1];
    if x.id == id then x
    else
      IdSetSnoc(xs[..|xs| - 1], x);
      assert xs[..|xs| - 1] + [x] == xs;
      var p := LastWithId(xs[..|xs| - 1], id);
      assert p in xs[..|xs| - 1];
      p
  }

  /** For a repeated input id the first occurrence decides the position and the last one the
      content: the indexed record is the last input record with that id. */
  lemma {:induction false} AddAllLastWins(s: Store, xs: seq<Photo>, id: string)
    requires Valid(s)
    requires id in IdSet(xs)
    ensures var r := AddAll(s, xs); id in r.indexMap && r.photos[r.indexMap[id]] == LastWithId(xs, id)
  {
    var init := xs[..|xs| - 1];
    var x := xs[|xs| - 1];
    IdSetSnoc(init, x);
    assert init + [x] == xs;
    AddAllValid(s, init);
    AddAllIndexesInputs(s, init);
    var a := AddAll(s, init);
    if x.id != id {
      AddAllLastWins(s, init, id);
      if x.id in a.indexMap {
        assert a.photos[a.indexMap[x.id]].id == x.id;
      }
    }
  }

  /** The ids `xs` introduces that are not in `known`, in order of first occurrence. */
  function NewIds(known: set<string>, xs: seq<Photo>): seq<string>
  {
    if xs == [] then []
    else
      var ns := NewIds(known, xs[..|xs| - 1]);
      var x := xs[|xs| - 1];
      if x.id in known || x.id in ns then ns else ns + [x.id]
  }

  lemma {:induction false} NewIdsMembers(known: set<string>, xs: seq<Photo>)
    ensures forall id :: id in NewIds(known, xs) <==> id in IdSet(xs) && id !in known
  {
    if xs != [] {
      var init := xs[..|xs| - 1];
      NewIdsMembers(known, init);
      IdSetSnoc(init, xs[|xs| - 1]);
      assert init + [xs[|xs| - 1]] == xs;
    }
  }

  /** New ids are appended after the existing records, once each, in input order. */
  lemma {:induction false} AddAllAppendsNewIds(s: Store, xs: seq<Photo>)
    requires Valid(s)
    ensures var r := AddAll(s, xs); var ns := NewIds(s.indexMap.Keys, xs);
      && |r.photos| == |s.photos| + |ns|
      && forall t :: 0 <= t < |ns| ==> r.photos[|s.photos| + t].id == ns[t]
  {
    if xs != [] {
      var init := xs[..|xs| - 1];
      var x := xs[|xs| - 1];
      AddAllAppendsNewIds(s, init);
      AddAllValid(s, init);
      AddAllIndexesInputs(s, init);
      NewIdsMembers(s.indexMap.Keys, init);
      AppendsNewIdsStep(s, AddAll(s, init), NewIds(s.indexMap.Keys, init), x);
    }
  }

  lemma AppendsNewIdsStep(s: Store, a: Store, ns: seq<string>, x: Photo)
    requires Valid(a)
    requires |a.photos| == |s.photos| + |ns|
    requires forall t :: 0 <= t < |ns| ==> a.photos[|s.photos| + t].id == ns[t]
    requires x.id in a.indexMap <==> x.id in s.indexMap.Keys || x.id in ns
    ensures var r := Upsert(a, x); var ns' := if x.id in s.indexMap.Keys || x.id in ns then ns else ns + [x.id];
      && |r.photos| == |s.photos| + |ns'|
      && forall t :: 0 <= t < |ns'| ==> r.photos[|s.photos| + t].id == ns'[t]
  {
    if x.id in a.indexMap {
      var k := a.indexMap[x.id];
      assert 0 <= k < |a.photos| && a.photos[k].id == x.id;
    }
  }

  /** Every record after the call was there before or came from the input. */
  lemma {:induction false} AddAllElements(s: Store, xs: seq<Photo>)
    requires InRange(s)
    ensures forall p :: p in AddAll(s, xs).photos ==> p in s.photos || p in xs
  {
    if xs != [] {
      var init := xs[..|xs| - 1];
      AddAllElements(s, init);
      assert init + [xs[|xs| - 1]] == xs;
      forall p | p in AddAll(s, xs).photos
        ensures p in s.photos || p in xs
      {
        if p != xs[|xs| - 1] {
          assert p in AddAll(s, init).photos;
          assert p in s.photos || p in init;
        }
      }
    }
  }

  /** With distinct input ids none of which is indexed, the call is a plain append. */
  lemma {:induction false} AddAllFreshAppends(s: Store, xs: seq<Photo>)
    requires Valid(s)
    requires DistinctIds(xs) && IdSet(xs) !! s.indexMap.Keys
    ensures AddAll(s, xs).photos == s.photos + xs
  {
    if xs != [] {
      var init := xs[..|xs| - 1];
      var x := xs[|xs| - 1];
      assert IdSet(init) <= IdSet(xs) by {
        forall id | id in IdSet(init) ensures id in IdSet(xs) {
          var i :| 0 <= i < |init| && init[i].id == id;
          assert xs[i] == init[i];
        }
      }
      AddAllFreshAppends(s, init);
      AddAllIndexesInputs(s, init);
      assert x.id !in IdSet(init);
      assert init + [x] == xs;
    }
  }

  // ----- setPhotos -----

  /** The index `setPhotos` rebuilds: each id maps to its position, a later position winning. */
  function BuildIndex(xs: seq<Photo>): map<string, int>
  {
    if xs == [] then map[] else BuildIndex(xs[..|xs| - 1])[xs[|xs| - 1].id := |xs| - 1]
  }

  /** Each id of `xs` maps to its LAST position in `xs`, and only ids of `xs` are indexed. */
  lemma {:induction false} BuildIndexLastPosition(xs: seq<Photo>)
    ensures BuildIndex(xs).Keys == IdSet(xs)
    ensures forall id :: id in BuildIndex(xs) ==>
      var k := BuildIndex(xs)[id];
      0 <= k < |xs| && xs[k].id == id && forall j :: k < j < |xs| ==> xs[j].id != id
  {
    if xs != [] {
      var init := xs[..|xs| - 1];
      BuildIndexLastPosition(init);
      IdSetSnoc(init, xs[|xs| - 1]);
      assert init + [xs[|xs| - 1]] == xs;
    }
  }

  /** The rebuilt index is valid exactly when the new records have distinct ids. */
  lemma BuildIndexValidIffDistinct(xs: seq<Photo>)
    ensures Valid(Store(xs, BuildIndex(xs))) <==> DistinctIds(xs)
  {
    BuildIndexLastPosition(xs);
    if Valid(Store(xs, BuildIndex(xs))) {
      ValidHasDistinctIds(Store(xs, BuildIndex(xs)));
    }
    if DistinctIds(xs) {
      forall i | 0 <= i < |xs|
        ensures xs[i].id in BuildIndex(xs) && BuildIndex(xs)[xs[i].id] == i
      {
        assert xs[i].id in IdSet(xs);
      }
    }
  }

  // ----- removePhotos(where:) -----

  /** The elements `p` of `ps` with `f(p) == b`, in order. */
  function Select(ps: seq<Photo>, f: Photo -> bool, b: bool): seq<Photo>
  {
    if ps == [] then [] else (if f(ps[0]) == b then [ps[0]] else []) + Select(ps[1..], f, b)
  }

  lemma {:induction false} SelectMembers(ps: seq<Photo>, f: Photo -> bool, b: bool)
    ensures forall p :: p in Select(ps, f, b) <==> p in ps && f(p) == b
  {
    if ps != [] {
      SelectMembers(ps[1..], f, b);
      assert ps == [ps[0]] + ps[1..];
    }
  }

  /** Selection distributes over concatenation, so survivors keep their relative order. */
  lemma {:induction false} SelectConcat(a: seq<Photo>, c: seq<Photo>, f: Photo -> bool, b: bool)
    ensures Select(a + c, f, b) == Select(a, f, b) + Select(c, f, b)
  {
    if a != [] {
      SelectConcat(a[1..], c, f, b);
      assert (a + c)[1..] == a[1..] + c;
    } else {
      assert a + c == c;
    }
  }

  /** A sequence some element of which is not selected shrinks. */
  lemma {:induction false} SelectShorter(ps: seq<Photo>, f: Photo -> bool, b: bool, j: int)
    requires 0 <= j < |ps| && f(ps[j]) != b
    ensures |Select(ps, f, b)| < |ps|
  {
    if j == 0 {
      SelectAtMost(ps[1..], f, b);
    } else {
      SelectShorter(ps[1..], f, b, j - 1);
    }
  }

  lemma {:induction false} SelectAtMost(ps: seq<Photo>, f: Photo -> bool, b: bool)
    ensures |Select(ps, f, b)| <= |ps|
  {
    if ps != [] {
      SelectAtMost(ps[1..], f, b);
    }
  }

  /** Selecting from a sequence all of whose elements pass keeps it whole; from one none of
      whose elements pass, leaves nothing. */
  lemma {:induction false} SelectAllOrNothing(ps: seq<Photo>, f: Photo -> bool, b: bool)
    ensures (forall i :: 0 <= i < |ps| ==> f(ps[i]) == b) ==> Select(ps, f, b) == ps
    ensures (forall i :: 0 <= i < |ps| ==> f(ps[i]) != b) ==> Select(ps, f, b) == []
  {
    if ps != [] {
      SelectAllOrNothing(ps[1..], f, b);
      assert forall i :: 0 <= i < |ps[1..]| ==> ps[1..][i] == ps[i + 1];
    }
  }

  /** `removePhotos(where: f)`: drop the matching records and delete their ids from the index.
      The survivors are not renumbered. */
  function RemoveWhere(s: Store, f: Photo -> bool): Store
  {
    Store(Select(s.photos, f, false), s.indexMap - IdSet(Select(s.photos, f, true)))
  }

  /** No survivor matches; exactly the survivors remain; the ids of removed records are gone. */
  lemma RemoveWhereLeavesNoMatch(s: Store, f: Photo -> bool)
    ensures forall p :: p in RemoveWhere(s, f).photos <==> p in s.photos && !f(p)
    ensures forall i :: 0 <= i < |s.photos| && f(s.photos[i]) ==> s.photos[i].id !in RemoveWhere(s, f).indexMap
  {
    SelectMembers(s.photos, f, false);
    SelectMembers(s.photos, f, true);
    forall i | 0 <= i < |s.photos| && f(s.photos[i])
      ensures s.photos[i].id in IdSet(Select(s.photos, f, true))
    {
      var m := Select(s.photos, f, true);
      assert s.photos[i] in m;
      var k :| 0 <= k < |m| && m[k] == s.photos[i];
    }
  }

  /** The removed records form a suffix of the array: nothing kept follows something removed. */
  ghost predicate RemovedFormSuffix(ps: seq<Photo>, f: Photo -> bool)
  {
    forall j, i :: 0 <= j < i < |ps| && f(ps[j]) ==> f(ps[i])
  }

  /** Because survivors are not renumbered, removal keeps the index invariant exactly when the
      removed records form a suffix (a store holding only placeholders, say). */
  lemma RemoveWhereValidIffSuffix(s: Store, f: Photo -> bool)
    requires Valid(s)
    ensures Valid(RemoveWhere(s, f)) <==> RemovedFormSuffix(s.photos, f)
  {
    ValidHasDistinctIds(s);
    if RemovedFormSuffix(s.photos, f) {
      RemoveSuffixValid(s, f);
    } else {
      var j, i :| 0 <= j < i < |s.photos| && f(s.photos[j]) && !f(s.photos[i]);
      RemoveNonSuffixInvalid(s, f, j, i);
    }
  }

  /** Under the suffix condition the survivors are the records before the first match, and the
      removed ones are the rest. */
  lemma SelectSplitsAtFirstMatch(ps: seq<Photo>, f: Photo -> bool)
    requires RemovedFormSuffix(ps, f)
    ensures var k := FirstMatch(ps, f); Select(ps, f, false) == ps[..k] && Select(ps, f, true) == ps[k..]
  {
    var k := FirstMatch(ps, f);
    assert ps == ps[..k] + ps[k..];
    assert forall i :: 0 <= i < |ps[k..]| ==> f(ps[k..][i]) by {
      forall i | 0 <= i < |ps[k..]| ensures f(ps[k..][i]) {
        assert ps[k..][i] == ps[k + i];
        if i > 0 { assert f(ps[k]); }
      }
    }
    SelectConcat(ps[..k], ps[k..], f, false);
    SelectConcat(ps[..k], ps[k..], f, true);
    SelectAllOrNothing(ps[..k], f, false);
    SelectAllOrNothing(ps[..k], f, true);
    SelectAllOrNothing(ps[k..], f, false);
    SelectAllOrNothing(ps[k..], f, true);
  }

  lemma RemoveSuffixValid(s: Store, f: Photo -> bool)
    requires Valid(s) && RemovedFormSuffix(s.photos, f)
    ensures Valid(RemoveWhere(s, f))
  {
    ValidHasDistinctIds(s);
    var ps := s.photos;
    var k := FirstMatch(ps, f);
    SelectSplitsAtFirstMatch(ps, f);
    var r := RemoveWhere(s, f);
    assert r == Store(ps[..k], s.indexMap - IdSet(ps[k..]));
    forall id | id in r.indexMap
      ensures 0 <= r.indexMap[id] < |r.photos| && r.photos[r.indexMap[id]].id == id
    {
    }
    forall i | 0 <= i < |r.photos|
      ensures r.photos[i].id in r.indexMap && r.indexMap[r.photos[i].id] == i
    {
    }
  }

  /** The position of the first matching record, or `|ps|`. */
  function FirstMatch(ps: seq<Photo>, f: Photo -> bool): (k: nat)
    ensures k <= |ps|
    ensures forall i :: 0 <= i < k ==> !f(ps[i])
    ensures k < |ps| ==> f(ps[k])
  {
    if ps == [] then 0 else if f(ps[0]) then 0 else 1 + FirstMatch(ps[1..], f)
  }

  /** Where a kept record lands: after the kept records that precede it. */
  lemma SelectLanding(ps: seq<Photo>, f: Photo -> bool, i: int)
    requires 0 <= i < |ps| && !f(ps[i])
    ensures var q := |Select(ps[..i], f, false)|;
      q < |Select(ps, f, false)| && Select(ps, f, false)[q] == ps[i]
  {
    assert ps == ps[..i] + ([ps[i]] + ps[i + 1..]);
    SelectConcat(ps[..i], [ps[i]] + ps[i + 1..], f, false);
    SelectConcat([ps[i]], ps[i + 1..], f, false);
    assert Select([ps[i]], f, false) == [ps[i]];
  }

  /** A kept record's id is not the id of any removed record, when ids are distinct. */
  lemma KeptIdNotRemoved(ps: seq<Photo>, f: Photo -> bool, i: int)
    requires DistinctIds(ps) && 0 <= i < |ps| && !f(ps[i])
    ensures ps[i].id !in IdSet(Select(ps, f, true))
  {
    SelectMembers(ps, f, true);
    var m := Select(ps, f, true);
    forall t | 0 <= t < |m|
      ensures m[t].id != ps[i].id
    {
      assert m[t] in ps && f(m[t]);
      var u :| 0 <= u < |ps| && ps[u] == m[t];
      assert u != i;
    }
  }

  lemma RemoveNonSuffixInvalid(s: Store, f: Photo -> bool, j: int, i: int)
    requires Valid(s)
    requires 0 <= j < i < |s.photos| && f(s.photos[j]) && !f(s.photos[i])
    ensures !Valid(RemoveWhere(s, f))
  {
    ValidHasDistinctIds(s);
    var ps := s.photos;
    var x := ps[i];
    // x lands at position q < i ...
    var q := |Select(ps[..i], f, false)|;
    SelectShorter(ps[..i], f, false, j);
    SelectLanding(ps, f, i);
    // ... but keeps its old index entry, i
    KeptIdNotRemoved(ps, f, i);
    var r := RemoveWhere(s, f);
    assert r.photos[q] == x && q < i;
    assert r.indexMap[x.id] == i;
  }

  // ----- the actor -----

  /** `actor PhotoStorage`. `photoIds` is rebuilt by `setPhotos` only; no other operation reads
      or writes it. */
  class PhotoStorage {
    var photos: seq<Photo>
    var photoIds: set<string>
    var indexMap: map<string, int>

    /** The state the pure functions above work on. */
    function View(): Store
      reads this
    {
      Store(photos, indexMap)
    }

    constructor ()
      ensures photos == [] && photoIds == {} && indexMap == map[]
    {
      photos := [];
      photoIds := {};
      indexMap := map[];
    }

    /** `getPhotos()`: the current array; nothing changes. */
    method GetPhotos() returns (r: seq<Photo>)
      ensures r == photos
    {
      r := photos;
    }

    /** `getIndex(_:)`: the indexed position of `id`, if any; nothing changes. Under the index
        invariant it is the position of the one record with that id. */
    method GetIndex(id: string) returns (r: Option<int>)
      ensures r.Some? <==> id in indexMap
      ensures r.Some? ==> r.value == indexMap[id]
      ensures Valid(View()) ==> (r.Some? <==> id in IdSet(photos))
      ensures Valid(View()) && r.Some? ==> 0 <= r.value < |photos| && photos[r.value].id == id
    {
      if id in indexMap {
        r := Some(indexMap[id]);
      } else {
        r := None;
      }
      if Valid(View()) {
        ValidHasDistinctIds(View());
      }
    }

    /** `updatePhoto(at:with:)`. The guard `index <= photos.count` lets `index == count`
        through to a subscript that traps, as does a negative index; those inputs are excluded.
        An index beyond the end is ignored. */
    method UpdatePhoto(index: int, photo: Photo)
      requires 0 <= index && index != |photos|
      modifies this
      ensures photos == if index < |old(photos)| then old(photos)[index := photo] else old(photos)
      ensures |photos| == |old(photos)|
      ensures indexMap == old(indexMap) && photoIds == old(photoIds)
    {
      if index <= |photos| {
        photos := photos[index := photo];
      }
    }

    /** `addPhotos(newPhotos:)`: upsert each record in turn. Every indexed position must lie
        inside the array; otherwise the inner `updatePhoto` may trap. */
    method AddPhotos(newPhotos: seq<Photo>)
      requires InRange(View())
      modifies this
      ensures View() == AddAll(old(View()), newPhotos)
      ensures photoIds == old(photoIds)
    {
      for k := 0 to |newPhotos|
        invariant InRange(View())
        invariant View() == AddAll(old(View()), newPhotos[..k])
        invariant photoIds == old(photoIds)
      {
        var photo := newPhotos[k];
        assert newPhotos[..k + 1][..k] == newPhotos[..k];
        if photo.id in indexMap {
          UpdatePhoto(indexMap[photo.id], photo);
        } else {
          indexMap := indexMap[photo.id := |photos|];
          photos := photos + [photo];
        }
      }
      assert newPhotos[..|newPhotos|] == newPhotos;
    }

    /** `setPhotos(_:)`: replace the array and rebuild the id set and the index from it. */
    method SetPhotos(newPhotos: seq<Photo>)
      modifies this
      ensures photos == newPhotos && photoIds == IdSet(newPhotos)
      ensures indexMap == BuildIndex(newPhotos)
    {
      photos := newPhotos;
      photoIds := IdSet(photos);
      indexMap := map[];
      for i := 0 to |photos|
        invariant photos == newPhotos && photoIds == IdSet(newPhotos)
        invariant indexMap == BuildIndex(photos[..i])
      {
        assert photos[..i + 1][..i] == photos[..i];
        indexMap := indexMap[photos[i].id := i];
      }
      assert photos[..|photos|] == photos;
    }

    /** `removeAll()`, which the view model calls on reset: the same as `setPhotos([])`. */
    method RemoveAll()
      modifies this
      ensures photos == [] && photoIds == {} && indexMap == map[]
      ensures Valid(View())
    {
      SetPhotos([]);
    }

    /** `removePhotos(where:)`: delete the index entries of the matching records, then drop the
        records. */
    method RemovePhotos(shouldRemove: Photo -> bool)
      modifies this
      ensures View() == RemoveWhere(old(View()), shouldRemove)
      ensures photoIds == old(photoIds)
    {
      var photosToRemove := Select(photos, shouldRemove, true);
      for i := 0 to |photosToRemove|
        invariant photos == old(photos) && photoIds == old(photoIds)
        invariant indexMap == old(indexMap) - IdSet(photosToRemove[..i])
      {
        IdSetSnoc(photosToRemove[..i], photosToRemove[i]);
        assert photosToRemove[..i + 1] == photosToRemove[..i] + [photosToRemove[i]];
        indexMap := indexMap - {photosToRemove[i].id};
      }
      assert photosToRemove[..|photosToRemove|] == photosToRemove;
      photos := Select(photos, shouldRemove, false);
    }
  }
}
