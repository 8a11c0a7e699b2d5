/** The embedded experience list of a loaded profile document and the three
    in-place operations the handlers apply to it: `unshift`, `splice` and
    assignment at an index, with JavaScript array semantics. */
module Experiences {
  import opened ProfileData

  /** `experience.map(item => item.id)`. */
  function Ids(xs: seq<Experience>): (r: seq<EntryId>)
    ensures |r| == |xs| && forall k :: 0 <= k < |xs| ==> r[k] == xs[k].id
  {
    seq(|xs|, k requires 0 <= k < |xs| => xs[k].id)
  }

  /** No two entries share an id. */
  predicate UniqueIds(xs: seq<Experience>) {
    forall i, j :: 0 <= i < j < |xs| ==> xs[i].id != xs[j].id
  }

  /** `ids.indexOf(id)`: the first position holding `id`, or -1 when there
      is none. */
  function IndexOf(ids: seq<EntryId>, id: EntryId): (r: int)
    ensures -1 <= r < |ids|
    ensures r == -1 <==> id !in ids
    ensures r >= 0 ==> ids[r] == id && forall j :: 0 <= j < r ==> ids[j] != id
  {
    if ids == [] then -1
    else if ids[0] == id then 0
    else
      var k := IndexOf(ids[1..], id);
      assert forall j :: 1 <= j < |ids| ==> ids[j] == ids[1..][j - 1];
      if k == -1 then -1 else k + 1
  }

  /** The position `xs.splice(start, n)` starts removing at: a negative
      start counts back from the end, and both are clamped to the list. */
  function SpliceStart(len: nat, start: int): (r: nat)
    ensures r <= len
  {
    if start < 0 then (if len + start < 0 then 0 else len + start)
    else if start > len then len
    else start
  }

  /** The list `xs.splice(start, n)` leaves behind: `n` (clamped to what is
      left) entries removed from the clamped start on, the rest in order. */
  function Splice<T>(xs: seq<T>, start: int, n: int): (r: seq<T>)
    ensures |r| <= |xs|
    ensures 0 <= start < |xs| && n == 1 ==> r == xs[..start] + xs[start + 1..]
    ensures -|xs| <= start < 0 && n == 1 ==> r == xs[..|xs| + start] + xs[|xs| + start + 1..]
    ensures n <= 0 || xs == [] ==> r == xs
  {
    var s := SpliceStart(|xs|, start);
    var count := if n < 0 then 0 else if n > |xs| - s then |xs| - s else n;
    xs[..s] + xs[s + count..]
  }

  /** `xs[idx] = e` for an index below the length: a position of the list is
      overwritten; a negative index names an ordinary property of the array
      object and changes no position. */
  function SetIndex<T>(xs: seq<T>, idx: int, e: T): (r: seq<T>)
    requires idx < |xs|
    ensures |r| == |xs|
    ensures 0 <= idx ==> r[idx] == e
    ensures forall k :: 0 <= k < |xs| && k != idx ==> r[k] == xs[k]
  {
    if idx >= 0 then xs[idx := e] else xs
  }

  /** The entry built at lines 211-218 (and 288-295): the six request fields
      and the id the document layer gives a new subdocument; `description` is
      not copied. */
  function EntryFromBody(body: ExperienceBody, id: EntryId): (e: Experience)
    ensures e.description == None
    ensures e.id == id && e.title == body.title && e.company == body.company
    ensures e.location == body.location && e.from == body.from && e.to == body.to
    ensures e.current == body.current
  {
    Experience(id, body.title, body.company, body.location, body.from, body.to, body.current, None)
  }

  /** The list left by `splice(indexOf(id), 1)` (lines 243-247). */
  function RemoveByIdAsWritten(xs: seq<Experience>, id: EntryId): (r: seq<Experience>)
    ensures id in Ids(xs) ==>
              var i := IndexOf(Ids(xs), id); r == xs[..i] + xs[i + 1..]
    ensures id !in Ids(xs) && xs != [] ==> r == xs[..|xs| - 1]
    ensures xs == [] ==> r == []
  {
    Splice(xs, IndexOf(Ids(xs), id), 1)
  }

  /** The list left by `experience[indexOf(id)] = e` (lines 282-295). */
  function ReplaceByIdAsWritten(xs: seq<Experience>, id: EntryId, e: Experience): (r: seq<Experience>)
    ensures |r| == |xs|
    ensures id in Ids(xs) ==> r == xs[IndexOf(Ids(xs), id) := e]
    ensures id !in Ids(xs) ==> r == xs
  {
    SetIndex(xs, IndexOf(Ids(xs), id), e)
  }

  /** Removal of a present id: exactly the first entry with that id goes,
      the others keep their order, the list is one shorter and, ids being
      unique, no entry with that id is left. */
  lemma {:induction false} RemoveFoundDropsOnlyThatEntry(xs: seq<Experience>, id: EntryId)
    requires id in Ids(xs)
    ensures var i := IndexOf(Ids(xs), id);
            && xs[i].id == id
            && RemoveByIdAsWritten(xs, id) == xs[..i] + xs[i + 1..]
            && |RemoveByIdAsWritten(xs, id)| == |xs| - 1
            && multiset(RemoveByIdAsWritten(xs, id)) + multiset{xs[i]} == multiset(xs)
    ensures UniqueIds(xs) ==> id !in Ids(RemoveByIdAsWritten(xs, id))
  {
    var i := IndexOf(Ids(xs), id);
    var r := RemoveByIdAsWritten(xs, id);
    assert xs == xs[..i] + [xs[i]] + xs[i + 1..];
    if UniqueIds(xs) {
      forall k | 0 <= k < |r| ensures r[k].id != id {
        if k < i {
          assert r[k] == xs[k];
        } else {
          assert r[k] == xs[k + 1];
        }
      }
    }
  }

  /** The defect of lines 243-247: deleting an id that is not in a non-empty
      list removes its last entry, which does not carry that id. */
  lemma MissingIdDropsLastEntry(xs: seq<Experience>, id: EntryId)
    requires id !in Ids(xs) && xs != []
    ensures RemoveByIdAsWritten(xs, id) == xs[..|xs| - 1]
    ensures |RemoveByIdAsWritten(xs, id)| == |xs| - 1 && xs[|xs| - 1].id != id
  {
    assert Ids(xs)[|xs| - 1] == xs[|xs| - 1].id;
  }

  /** A concrete case: deleting "c" from entries "a" and "b" drops "b". */
  lemma MissingIdExample(a: Experience, b: Experience)
    requires a.id == "a" && b.id == "b"
    ensures RemoveByIdAsWritten([a, b], "c") == [a]
  {
    assert Ids([a, b]) == ["a", "b"];
    assert "c" !in Ids([a, b]);
  }

  /** The intended removal: the entry with that id goes; an unknown id
      leaves the list as it is. */
  function RemoveById(xs: seq<Experience>, id: EntryId): (r: seq<Experience>)
    ensures id !in Ids(xs) ==> r == xs
    ensures id in Ids(xs) ==> |r| == |xs| - 1
  {
    var i := IndexOf(Ids(xs), id);
    if i >= 0 then xs[..i] + xs[i + 1..] else xs
  }

  /** The intended removal agrees with the code for a present id, and keeps
      the list for an unknown one. */
  lemma RemoveByIdAgrees(xs: seq<Experience>, id: EntryId)
    ensures id in Ids(xs) ==> RemoveById(xs, id) == RemoveByIdAsWritten(xs, id)
    ensures id !in Ids(xs) ==> RemoveById(xs, id) == xs
  {
  }

  /** The intended removal is the splice guarded by a found index. */
  lemma RemoveByIdIsGuardedSplice(xs: seq<Experience>, id: EntryId)
    ensures RemoveById(xs, id) ==
            (if IndexOf(Ids(xs), id) >= 0 then Splice(xs, IndexOf(Ids(xs), id), 1) else xs)
  {
  }

  /** Removing the entry at position `i`: the others keep their order. */
  lemma RemoveAtShifts(xs: seq<Experience>, i: int)
    requires 0 <= i < |xs|
    ensures |xs[..i] + xs[i + 1..]| == |xs| - 1
    ensures forall k :: 0 <= k < i ==> (xs[..i] + xs[i + 1..])[k] == xs[k]
    ensures forall k :: i < k < |xs| ==> (xs[..i] + xs[i + 1..])[k - 1] == xs[k]
  {
  }

  /** The ids left by removing position `i` are the old ids without the one
      at `i`. */
  lemma IdsAfterRemoveAt(xs: seq<Experience>, i: int)
    requires 0 <= i < |xs|
    ensures Ids(xs[..i] + xs[i + 1..]) == Ids(xs)[..i] + Ids(xs)[i + 1..]
  {
    RemoveAtShifts(xs, i);
  }

  /** In a list of distinct ids, the ids other than position `i` are the ids
      different from the one at `i`. */
  lemma {:induction false} OtherIds(ids: seq<EntryId>, i: int, x: EntryId)
    requires 0 <= i < |ids|
    requires forall j, k :: 0 <= j < k < |ids| ==> ids[j] != ids[k]
    ensures x in ids[..i] + ids[i + 1..] <==> x in ids && x != ids[i]
  {
    if x in ids[..i] {
      var k :| 0 <= k < i && ids[..i][k] == x;
      assert ids[k] == x;
    }
    if x in ids[i + 1..] {
      var k :| 0 <= k < |ids| - i - 1 && ids[i + 1..][k] == x;
      assert ids[i + 1 + k] == x;
    }
    if x in ids && x != ids[i] {
      var k :| 0 <= k < |ids| && ids[k] == x;
      if k < i {
        assert ids[..i][k] == x;
      } else {
        assert ids[i + 1..][k - i - 1] == x;
      }
    }
  }

  /** Removing the entry at position `i` of a list with unique ids: the ids
      left are the old ones without that entry's, and they stay unique. */
  lemma RemoveAtKeepsOtherIds(xs: seq<Experience>, i: int)
    requires 0 <= i < |xs| && UniqueIds(xs)
    ensures forall x :: x in Ids(xs[..i] + xs[i + 1..]) <==> x in Ids(xs) && x != xs[i].id
    ensures UniqueIds(xs[..i] + xs[i + 1..])
  {
    IdsAfterRemoveAt(xs, i);
    forall x ensures x in Ids(xs)[..i] + Ids(xs)[i + 1..] <==> x in Ids(xs) && x != xs[i].id {
      OtherIds(Ids(xs), i, x);
    }
    RemoveAtShifts(xs, i);
  }

  /** With unique ids, the intended removal takes away exactly the id asked
      for: the ids left are the old ones without it, whether or not it was
      present, and the ids stay unique. */
  lemma RemoveByIdRemovesOnlyThatId(xs: seq<Experience>, id: EntryId)
    requires UniqueIds(xs)
    ensures forall x :: x in Ids(RemoveById(xs, id)) <==> x in Ids(xs) && x != id
    ensures UniqueIds(RemoveById(xs, id))
  {
    if id in Ids(xs) {
      RemoveAtKeepsOtherIds(xs, IndexOf(Ids(xs), id));
    }
  }

  /** Removing with the code as written keeps ids unique. */
  lemma RemoveAsWrittenKeepsUnique(xs: seq<Experience>, id: EntryId)
    requires UniqueIds(xs)
    ensures UniqueIds(RemoveByIdAsWritten(xs, id))
  {
    if id in Ids(xs) {
      RemoveAtKeepsOtherIds(xs, IndexOf(Ids(xs), id));
    } else if xs != [] {
      RemoveAtKeepsOtherIds(xs, |xs| - 1);
    }
  }

  /** Adding an entry with a fresh id to a list with unique ids keeps the
      ids unique. */
  lemma PrependKeepsUnique(xs: seq<Experience>, e: Experience)
    ensures UniqueIds(xs) && e.id !in Ids(xs) ==> UniqueIds([e] + xs)
  {
    if UniqueIds(xs) && e.id !in Ids(xs) {
      forall j | 0 < j < |xs| + 1 ensures ([e] + xs)[j].id != e.id {
        assert ([e] + xs)[j] == xs[j - 1];
        assert Ids(xs)[j - 1] == xs[j - 1].id;
      }
    }
  }

  /** Replacing a present id changes that position only; with a fresh id for
      the new entry, ids stay unique. */
  lemma ReplaceFoundChangesOnePosition(xs: seq<Experience>, id: EntryId, e: Experience)
    requires id in Ids(xs)
    ensures var i := IndexOf(Ids(xs), id);
            && xs[i].id == id
            && ReplaceByIdAsWritten(xs, id, e)[i] == e
            && forall k :: 0 <= k < |xs| && k != i ==> ReplaceByIdAsWritten(xs, id, e)[k] == xs[k]
    ensures UniqueIds(xs) && e.id !in Ids(xs) ==> UniqueIds(ReplaceByIdAsWritten(xs, id, e))
  {
    var i := IndexOf(Ids(xs), id);
    if UniqueIds(xs) && e.id !in Ids(xs) {
      var r := ReplaceByIdAsWritten(xs, id, e);
      forall k | 0 <= k < |xs| && k != i ensures r[k].id != e.id {
        assert Ids(xs)[k] == xs[k].id;
      }
    }
  }

  /** The loaded Mongoose document `profile`: the stored fields as loaded, and
      its `experience` array, which the handlers change in place. */
  class ProfileDocument {
    const loaded: Profile
    var experience: seq<Experience>

    /** `Profile.findOne({ user })` returning a document for `p`. */
    constructor (p: Profile)
      ensures loaded == p && experience == p.experience
    {
      loaded := p;
      experience := p.experience;
    }

    /** What `profile.save()` writes and `res.json(profile)` sends. */
    function Snapshot(): (p: Profile)
      reads this
      ensures p.experience == experience
      ensures p.(experience := loaded.experience) == loaded
    {
      loaded.(experience := experience)
    }

    /** `profile.experience.unshift(e)`. */
    method Unshift(e: Experience)
      modifies this
      ensures experience == [e] + old(experience)
    {
      experience := [e] + experience;
    }

    /** `profile.experience.splice(start, n)`. */
    method SpliceOut(start: int, n: int)
      modifies this
      ensures experience == Splice(old(experience), start, n)
    {
      experience := Splice(experience, start, n);
    }

    /** `profile.experience[idx] = e`. */
    method AssignAt(idx: int, e: Experience)
      requires idx < |experience|
      modifies this
      ensures experience == SetIndex(old(experience), idx, e)
    {
      if idx >= 0 {
        experience := experience[idx := e];
      }
    }
  }
}
