/**
 * The entry store behind the journal provider: a list of entries, the four
 * list transforms applied to it, and the durable slot the list is mirrored to.
 */
module JournalContext {
  import opened Wrappers
  import opened Types

  /** The ids of `es`, in order. */
  function Ids(es: seq<Entry>): (ids: seq<string>)
    ensures |ids| == |es|
    ensures forall i :: 0 <= i < |es| ==> ids[i] == es[i].id
  {
    if es == [] then [] else Ids(es[..|es| - 1]) + [es[|es| - 1].id]
  }

  /** The store's invariant: no id occurs twice. */
  predicate UniqueIds(es: seq<Entry>)
  {
    NoDuplicates(Ids(es))
  }

  /** `addEntry`'s transform `[...prev, {...draft, id}]`. */
  function Append(es: seq<Entry>, d: Draft, id: string): (r: seq<Entry>)
    ensures |r| == |es| + 1 && r[..|es|] == es
    ensures r[|es|].id == id && r[|es|] == Minted(d, id)
  {
    es + [Minted(d, id)]
  }

  /** `deleteEntry`'s transform `prev.filter(e => e.id !== id)`. */
  function Remove(es: seq<Entry>, id: string): (r: seq<Entry>)
    ensures |r| <= |es|
    ensures id !in Ids(r)
  {
    if es == [] then []
    else
      var rest := Remove(es[..|es| - 1], id);
      var last := es[|es| - 1];
      if last.id == id then rest
      else
        assert Ids(rest + [last]) == Ids(rest) + [last.id];
        rest + [last]
  }

  /** `deleteEntry` keeps exactly the entries whose id differs. */
  lemma {:induction false} RemoveMembers(es: seq<Entry>, id: string, e: Entry)
    ensures e in Remove(es, id) <==> e in es && e.id != id
  {
    if es != [] {
      var init := es[..|es| - 1];
      assert es == init + [es[|es| - 1]];
      RemoveMembers(init, id, e);
    }
  }

  /** Deleting an id no entry carries changes nothing. */
  lemma {:induction false} RemoveAbsentIsNoOp(es: seq<Entry>, id: string)
    requires id !in Ids(es)
    ensures Remove(es, id) == es
  {
    if es != [] {
      var init := es[..|es| - 1];
      assert es == init + [es[|es| - 1]];
      assert Ids(es)[|es| - 1] == es[|es| - 1].id;
      assert Ids(init) == Ids(es)[..|es| - 1];
      RemoveAbsentIsNoOp(init, id);
    }
  }

  /** `updateEntry`'s transform: merge the patch into every entry whose id matches. */
  function Update(es: seq<Entry>, id: string, p: Patch): (r: seq<Entry>)
    ensures |r| == |es|
    ensures forall i :: 0 <= i < |es| ==> r[i] == if es[i].id == id then Merge(es[i], p) else es[i]
  {
    if es == [] then []
    else Update(es[..|es| - 1], id, p) + [if es[|es| - 1].id == id then Merge(es[|es| - 1], p) else es[|es| - 1]]
  }

  /** `getEntryById`'s `find`: an entry with a matching id, if any (the first: see FindIsFirst). */
  function Find(es: seq<Entry>, id: string): (r: Option<Entry>)
    ensures r.None? <==> id !in Ids(es)
    ensures r.Some? ==> r.value in es && r.value.id == id
  {
    if es == [] then None
    else if es[0].id == id then Some(es[0])
    else
      assert Ids(es) == [es[0].id] + Ids(es[1..]);
      Find(es[1..], id)
  }

  /** `find` returns the entry at the first index whose id matches. */
  lemma {:induction false} FindIsFirst(es: seq<Entry>, id: string, i: int)
    requires 0 <= i < |es| && es[i].id == id
    requires forall j :: 0 <= j < i ==> es[j].id != id
    ensures Find(es, id) == Some(es[i])
  {
    if i > 0 {
      FindIsFirst(es[1..], id, i - 1);
    }
  }

  /** Removing by id distributes over concatenation: the kept entries stay in their order. */
  lemma {:induction false} RemoveConcat(a: seq<Entry>, b: seq<Entry>, id: string)
    ensures Remove(a + b, id) == Remove(a, id) + Remove(b, id)
    decreases |b|
  {
    if b == [] {
      assert a + b == a;
    } else {
      var b' := b[..|b| - 1];
      assert (a + b)[..|a + b| - 1] == a + b';
      RemoveConcat(a, b', id);
    }
  }

  /** `deleteEntry` keeps exactly the entries with another id, in their original order. */
  lemma {:induction false} RemoveKeepsOrder(es: seq<Entry>, id: string)
    ensures Remove(es, id) == if es == [] then []
                              else (if es[0].id == id then [] else [es[0]]) + Remove(es[1..], id)
  {
    if es != [] {
      assert es == [es[0]] + es[1..];
      RemoveConcat([es[0]], es[1..], id);
      assert [es[0]][..0] == [];
    }
  }

  /** Deleting twice equals deleting once. */
  lemma RemoveIdempotent(es: seq<Entry>, id: string)
    ensures Remove(Remove(es, id), id) == Remove(es, id)
  {
    RemoveAbsentIsNoOp(Remove(es, id), id);
  }

  /** After `deleteEntry(id)`, `getEntryById(id)` finds nothing. */
  lemma FindAfterRemove(es: seq<Entry>, id: string)
    ensures Find(Remove(es, id), id) == None
  {
  }

  /** After `addEntry` with a fresh id, `getEntryById` returns the new entry. */
  lemma FindAfterAppend(es: seq<Entry>, d: Draft, id: string)
    requires id !in Ids(es)
    ensures Find(Append(es, d, id), id) == Some(Minted(d, id))
  {
    var r := Append(es, d, id);
    forall j | 0 <= j < |es| ensures r[j].id != id {
      assert Ids(es)[j] == r[j].id;
    }
    FindIsFirst(r, id, |es|);
  }

  /** A fresh id keeps the ids distinct after `addEntry`. */
  lemma AppendKeepsUnique(es: seq<Entry>, d: Draft, id: string)
    requires UniqueIds(es) && id !in Ids(es)
    ensures UniqueIds(Append(es, d, id))
  {
    var r := Append(es, d, id);
    forall i, j | 0 <= i < j < |r| ensures Ids(r)[i] != Ids(r)[j] {
      if j == |es| {
        assert Ids(es)[i] == Ids(r)[i];
      } else {
        assert Ids(es)[i] == Ids(r)[i] && Ids(es)[j] == Ids(r)[j];
      }
    }
  }

  /** `deleteEntry` keeps the ids distinct. */
  lemma {:induction false} RemoveKeepsUnique(es: seq<Entry>, id: string)
    requires UniqueIds(es)
    ensures UniqueIds(Remove(es, id))
  {
    if es != [] {
      var init := es[..|es| - 1];
      var last := es[|es| - 1];
      assert es == init + [last];
      assert Ids(init) == Ids(es)[..|es| - 1];
      RemoveKeepsUnique(init, id);
      if last.id != id {
        var r := Remove(es, id);
        var rest := Remove(init, id);
        assert r == rest + [last];
        forall i, j | 0 <= i < j < |r| ensures Ids(r)[i] != Ids(r)[j] {
          if j == |rest| {
            RemoveMembers(init, id, rest[i]);
            var k :| 0 <= k < |init| && init[k] == rest[i];
            assert Ids(es)[k] == rest[i].id && Ids(es)[|es| - 1] == last.id;
          } else {
            assert Ids(rest)[i] == Ids(r)[i] && Ids(rest)[j] == Ids(r)[j];
          }
        }
      }
    }
  }

  /** `updateEntry` never changes an id, so it keeps the ids (and their distinctness). */
  lemma UpdateKeepsIds(es: seq<Entry>, id: string, p: Patch)
    ensures Ids(Update(es, id, p)) == Ids(es)
    ensures UniqueIds(es) ==> UniqueIds(Update(es, id, p))
  {
    var r := Update(es, id, p);
    assert forall i :: 0 <= i < |es| ==> Ids(r)[i] == Ids(es)[i];
  }

  /** An id that matches no entry makes `updateEntry` a no-op. */
  lemma UpdateAbsentIsNoOp(es: seq<Entry>, id: string, p: Patch)
    requires id !in Ids(es)
    ensures Update(es, id, p) == es
  {
    var r := Update(es, id, p);
    forall i | 0 <= i < |es| ensures r[i] == es[i] {
      assert Ids(es)[i] == es[i].id;
    }
  }

  /**
   * The journal provider's state: the entry list and the durable slot
   * (`journal_entries`) that the provider's effect overwrites with the
   * whole list after every change.
   */
  class JournalStore {
    var entries: seq<Entry>
    var slot: Option<seq<Entry>>

    /** The slot holds exactly the in-memory list. */
    ghost predicate Valid()
      reads this
    {
      slot == Some(entries)
    }

    /**
     * Mount: the list starts as the saved list when the slot holds one, else
     * empty; the mount effect then writes the list back to the slot.
     */
    constructor (saved: Option<seq<Entry>>)
      ensures Valid()
      ensures entries == (if saved.Some? then saved.value else [])
    {
      entries := if saved.Some? then saved.value else [];
      slot := Some(if saved.Some? then saved.value else []);
    }

    /** `addEntry(draft)` with `freshId` the minted id. */
    method AddEntry(d: Draft, freshId: string)
      requires Valid()
      modifies this
      ensures Valid()
      ensures entries == Append(old(entries), d, freshId)
    {
      entries := Append(entries, d, freshId);
      slot := Some(entries);
    }

    /** `deleteEntry(id)`. */
    method DeleteEntry(id: string)
      requires Valid()
      modifies this
      ensures Valid()
      ensures entries == Remove(old(entries), id)
    {
      entries := Remove(entries, id);
      slot := Some(entries);
    }

    /** `updateEntry(id, patch)`. */
    method UpdateEntry(id: string, p: Patch)
      requires Valid()
      modifies this
      ensures Valid()
      ensures entries == Update(old(entries), id, p)
    {
      entries := Update(entries, id, p);
      slot := Some(entries);
    }

    /** `getEntryById(id)`: the first entry with that id, or none. */
    function GetEntryById(id: string): (r: Option<Entry>)
      reads this
      ensures r.Some? ==> r.value in entries && r.value.id == id
      ensures r.None? <==> id !in Ids(entries)
    {
      Find(entries, id)
    }
  }

  /** A new provider mounted on the slot an earlier one wrote sees the same list. */
  method Reload(s: JournalStore) returns (t: JournalStore)
    requires s.Valid()
    ensures fresh(t) && t.Valid() && t.entries == s.entries
  {
    t := new JournalStore(s.slot);
  }
}
