/** The list transforms the admin dashboard applies to the project list and
    to the gallery of the project under edit: replace-by-id (a `map`),
    prepend-with-fresh-id (a spread), delete-by-id (a `filter`), and the
    gallery's replace-at-index, remove-at-index and append. They are pure;
    the dashboard's methods apply them to its state. */
module Content {
  import opened Types

  // ----- identifiers -----

  function Ids(ps: seq<Project>): (r: seq<string>)
    ensures |r| == |ps|
    ensures forall i :: 0 <= i < |ps| ==> r[i] == ps[i].id
  {
    if ps == [] then [] else [ps[0].id] + Ids(ps[1..])
  }

  /** No two entries share an id: the invariant ids are meant to keep. */
  predicate UniqueIds(ps: seq<Project>) {
    forall i, j :: 0 <= i < j < |ps| ==> ps[i].id != ps[j].id
  }

  // ----- replace by id: projects.map(p => p.id === e.id ? e : p) -----

  function ReplaceById(ps: seq<Project>, e: Project): (r: seq<Project>)
    ensures |r| == |ps|
    ensures forall i :: 0 <= i < |ps| && ps[i].id == e.id ==> r[i] == e
    ensures forall i :: 0 <= i < |ps| && ps[i].id != e.id ==> r[i] == ps[i]
  {
    if ps == [] then []
    else [if ps[0].id == e.id then e else ps[0]] + ReplaceById(ps[1..], e)
  }

  /** Ids, and so uniqueness, survive a replacement. */
  lemma ReplaceKeepsIds(ps: seq<Project>, e: Project)
    ensures Ids(ReplaceById(ps, e)) == Ids(ps)
    ensures UniqueIds(ps) ==> UniqueIds(ReplaceById(ps, e))
  {
    var r := ReplaceById(ps, e);
    assert forall i :: 0 <= i < |ps| ==> r[i].id == ps[i].id;
  }

  /** An id that matches nothing leaves the list identical. */
  lemma ReplaceAbsent(ps: seq<Project>, e: Project)
    requires e.id !in Ids(ps)
    ensures ReplaceById(ps, e) == ps
  {
    var r := ReplaceById(ps, e);
    forall i | 0 <= i < |ps| ensures r[i] == ps[i] {
      assert Ids(ps)[i] == ps[i].id;
    }
  }

  /** With unique ids, replacing the entry at `k` is an in-place update of position `k`. */
  lemma ReplaceUnique(ps: seq<Project>, e: Project, k: nat)
    requires UniqueIds(ps) && k < |ps| && ps[k].id == e.id
    ensures ReplaceById(ps, e) == ps[k := e]
  {
    var r := ReplaceById(ps, e);
    forall i | 0 <= i < |ps| ensures r[i] == ps[k := e][i] {
      if i != k {
        assert ps[i].id != e.id by {
          if i < k { assert ps[i].id != ps[k].id; } else { assert ps[k].id != ps[i].id; }
        }
      }
    }
  }

  // ----- create: [{ ...e, id: freshId }, ...projects] -----

  function Prepend(ps: seq<Project>, e: Project, freshId: string): (r: seq<Project>)
    requires freshId != ""
    ensures |r| == |ps| + 1
    ensures r[0].id == freshId && r[0] == e.(id := freshId)
    ensures r[1..] == ps
  {
    [e.(id := freshId)] + ps
  }

  lemma PrependKeepsUnique(ps: seq<Project>, e: Project, freshId: string)
    requires freshId != "" && UniqueIds(ps) && freshId !in Ids(ps)
    ensures UniqueIds(Prepend(ps, e, freshId))
  {
    var r := Prepend(ps, e, freshId);
    forall i, j | 0 <= i < j < |r| ensures r[i].id != r[j].id {
      if i == 0 {
        assert r[j] == ps[j - 1];
        assert Ids(ps)[j - 1] == ps[j - 1].id;
      } else {
        assert r[i] == ps[i - 1] && r[j] == ps[j - 1];
      }
    }
  }

  // ----- save: create when the id is empty, replace otherwise -----

  /** The list `saveProject` hands to `setProjects` for the project under edit `e`. */
  function Upsert(ps: seq<Project>, e: Project, freshId: string): (r: seq<Project>)
    requires freshId != ""
    ensures e.id == "" ==> |r| == |ps| + 1 && r[0] == e.(id := freshId) && r[1..] == ps
    ensures e.id != "" ==> |r| == |ps| && r == ReplaceById(ps, e)
  {
    if e.id != "" then ReplaceById(ps, e) else Prepend(ps, e, freshId)
  }

  /** Saving keeps ids unique when the fresh id is not already taken. */
  lemma UpsertKeepsUnique(ps: seq<Project>, e: Project, freshId: string)
    requires freshId != "" && UniqueIds(ps) && freshId !in Ids(ps)
    ensures UniqueIds(Upsert(ps, e, freshId))
  {
    if e.id != "" {
      ReplaceKeepsIds(ps, e);
    } else {
      PrependKeepsUnique(ps, e, freshId);
    }
  }

  /** Two saves of versions with the same explicit id over a one-entry list
      with that id leave one entry: the later version. */
  lemma SaveTwiceSameId(p0: Project, v1: Project, v2: Project, freshId: string)
    requires freshId != "" && v1.id != "" && p0.id == v1.id && v2.id == v1.id
    ensures Upsert(Upsert([p0], v1, freshId), v2, freshId) == [v2]
  {
    var once := Upsert([p0], v1, freshId);
    assert once[0] == v1;
  }

  // ----- delete: projects.filter(x => x.id !== id) -----

  function RemoveById(ps: seq<Project>, id: string): (r: seq<Project>)
    ensures |r| <= |ps|
  {
    if ps == [] then []
    else (if ps[0].id != id then [ps[0]] else []) + RemoveById(ps[1..], id)
  }

  /** An entry survives a delete exactly when it was in the list with
      another id. */
  lemma {:induction false} RemoveMembers(ps: seq<Project>, id: string, p: Project)
    ensures p in RemoveById(ps, id) <==> p in ps && p.id != id
    decreases |ps|
  {
    if ps != [] {
      RemoveMembers(ps[1..], id, p);
      assert ps == [ps[0]] + ps[1..];
    }
  }

  /** The filter works piecewise, so the kept entries stay in their order. */
  lemma {:induction false} RemoveSplits(a: seq<Project>, b: seq<Project>, id: string)
    ensures RemoveById(a + b, id) == RemoveById(a, id) + RemoveById(b, id)
    decreases |a|
  {
    if a == [] {
      assert a + b == b;
    } else {
      assert (a + b)[0] == a[0];
      assert (a + b)[1..] == a[1..] + b;
      RemoveSplits(a[1..], b, id);
    }
  }

  /** Deleting an id that is not in the list leaves it unchanged. */
  lemma {:induction false} RemoveAbsent(ps: seq<Project>, id: string)
    requires id !in Ids(ps)
    ensures RemoveById(ps, id) == ps
    decreases |ps|
  {
    if ps != [] {
      assert Ids(ps)[0] == ps[0].id;
      assert id !in Ids(ps[1..]) by {
        forall i | 0 <= i < |ps| - 1 ensures Ids(ps[1..])[i] != id {
          assert Ids(ps)[i + 1] == ps[i + 1].id;
        }
      }
      RemoveAbsent(ps[1..], id);
      assert [ps[0]] + ps[1..] == ps;
    }
  }

  /** With unique ids, deleting the id of the entry at `k` removes exactly
      that entry: the length drops by one and the rest keep their order. */
  lemma {:induction false} RemoveUnique(ps: seq<Project>, k: nat)
    requires UniqueIds(ps) && k < |ps|
    ensures RemoveById(ps, ps[k].id) == ps[..k] + ps[k + 1..]
    ensures |RemoveById(ps, ps[k].id)| == |ps| - 1
    decreases k
  {
    if k == 0 {
      RemoveUniqueHead(ps);
    } else {
      var tail := ps[1..];
      assert UniqueIds(tail) by {
        forall i, j | 0 <= i < j < |tail| ensures tail[i].id != tail[j].id {
          assert tail[i] == ps[i + 1] && tail[j] == ps[j + 1];
        }
      }
      RemoveUnique(tail, k - 1);
      assert tail[k - 1] == ps[k];
      assert tail[..k - 1] == ps[1..k];
      assert tail[k..] == ps[k + 1..];
      RemoveUniqueStep(ps, k);
    }
  }

  lemma RemoveUniqueHead(ps: seq<Project>)
    requires UniqueIds(ps) && 0 < |ps|
    ensures RemoveById(ps, ps[0].id) == ps[1..]
  {
    forall i | 0 <= i < |ps| - 1 ensures Ids(ps[1..])[i] != ps[0].id {
      assert ps[1..][i] == ps[i + 1];
    }
    RemoveAbsent(ps[1..], ps[0].id);
  }

  lemma RemoveUniqueStep(ps: seq<Project>, k: nat)
    requires 0 < k < |ps| && ps[0].id != ps[k].id
    requires RemoveById(ps[1..], ps[k].id) == ps[1..k] + ps[k + 1..]
    ensures RemoveById(ps, ps[k].id) == ps[..k] + ps[k + 1..]
  {
    assert RemoveById(ps, ps[k].id) == [ps[0]] + RemoveById(ps[1..], ps[k].id);
    assert [ps[0]] + ps[1..k] == ps[..k];
  }

  /** Deleting keeps ids unique. */
  lemma {:induction false} RemoveKeepsUnique(ps: seq<Project>, id: string)
    requires UniqueIds(ps)
    ensures UniqueIds(RemoveById(ps, id))
    decreases |ps|
  {
    if ps != [] {
      RemoveKeepsUnique(ps[1..], id);
      var rest := RemoveById(ps[1..], id);
      if ps[0].id != id {
        forall q | q in ps[1..] ensures q.id != ps[0].id {
          var m :| 0 <= m < |ps[1..]| && ps[1..][m] == q;
          assert ps[m + 1] == q;
        }
        var r := [ps[0]] + rest;
        forall i, j | 0 <= i < j < |r| ensures r[i].id != r[j].id {
          if i == 0 {
            assert r[j] == rest[j - 1];
            RemoveMembers(ps[1..], id, r[j]);
            assert r[j] in ps[1..];
          } else {
            assert r[i] == rest[i - 1] && r[j] == rest[j - 1];
          }
        }
      } else {
        assert RemoveById(ps, id) == rest;
      }
    }
  }

  // ----- gallery edits on the project under edit -----

  /** `newImgs[idx] = value` on a copy of the gallery. */
  function SetImage(images: seq<string>, idx: nat, value: string): (r: seq<string>)
    requires idx < |images|
    ensures |r| == |images| && r[idx] == value
    ensures forall i :: 0 <= i < |images| && i != idx ==> r[i] == images[i]
  {
    images[idx := value]
  }

  /** `images.filter((_, i) => i !== idx)`: every image whose position is not `idx`. */
  function RemoveImage(images: seq<string>, idx: int): (r: seq<string>)
    ensures 0 <= idx < |images| ==> r == images[..idx] + images[idx + 1..]
    ensures !(0 <= idx < |images|) ==> r == images
    decreases |images|
  {
    if images == [] then []
    else
      var rest := RemoveImage(images[1..], idx - 1);
      assert 0 < idx < |images| ==> [images[0]] + images[1..][..idx - 1] == images[..idx];
      assert 0 < idx < |images| ==> images[1..][idx..] == images[idx + 1..];
      assert !(0 <= idx < |images|) ==> [images[0]] + images[1..] == images;
      (if idx == 0 then [] else [images[0]]) + rest
  }

  /** `[...images, value]`: one more image, at the end. */
  function AppendImage(images: seq<string>, value: string): (r: seq<string>)
    ensures |r| == |images| + 1 && r[|images|] == value
    ensures r[..|images|] == images
  {
    images + [value]
  }

  /** Removing the image at `idx` keeps every image before it in place and
      moves every image after it one position to the front. */
  lemma RemoveImageAt(images: seq<string>, idx: nat)
    requires idx < |images|
    ensures |RemoveImage(images, idx)| == |images| - 1
    ensures forall i :: 0 <= i < idx ==> RemoveImage(images, idx)[i] == images[i]
    ensures forall i :: idx <= i < |images| - 1 ==> RemoveImage(images, idx)[i] == images[i + 1]
  {
  }

  /** Removing an image takes exactly that image out of the gallery's multiset. */
  lemma {:induction false} RemoveImageMultiset(images: seq<string>, idx: nat)
    requires idx < |images|
    ensures multiset(RemoveImage(images, idx)) + multiset{images[idx]} == multiset(images)
    decreases idx
  {
    assert images == [images[0]] + images[1..];
    if idx > 0 {
      RemoveImageMultiset(images[1..], idx - 1);
      assert RemoveImage(images, idx) == [images[0]] + RemoveImage(images[1..], idx - 1);
    }
  }
}
