/**
 * The saved-listings store: an ordered collection of listings in which an
 * id occurs at most once, with add (a no-op for an id already present),
 * remove by id, and a membership query.
 *
 * The provider keeps the collection in a state variable and replaces it
 * through updater functions; here the state variable is the field
 * `savedListings` and the updaters are `AddedTo` and `RemovedFrom`.
 */
module SavedListings {
  import opened Listings
  import opened Seqs

  /** The predicate handed to `filter` by `removeFromSaved`. */
  function OtherThan(id: string): Listing -> bool {
    (listing: Listing) => listing.id != id
  }

  /** The updater of `addToSaved`: append the listing unless its id is already saved. */
  function AddedTo(saved: seq<Listing>, listing: Listing): (r: seq<Listing>)
    ensures HasId(r, listing.id)
    ensures saved <= r
    ensures |r| == if HasId(saved, listing.id) then |saved| else |saved| + 1
    ensures UniqueIds(saved) ==> UniqueIds(r)
  {
    if HasId(saved, listing.id) then saved
    else
      var appended := saved + [listing];
      assert appended[|saved|] == listing;
      appended
  }

  /** The updater of `removeFromSaved`: keep every listing with another id. */
  function RemovedFrom(saved: seq<Listing>, id: string): (r: seq<Listing>)
    ensures !HasId(r, id)
    ensures forall i :: 0 <= i < |saved| && saved[i].id != id ==> saved[i] in r
    ensures forall i :: 0 <= i < |r| ==> r[i] in saved
    ensures IsSubsequence(r, saved)
    ensures UniqueIds(saved) ==> UniqueIds(r)
  {
    FilterIsSubsequence(saved, OtherThan(id));
    FilterKeepsUniqueIds(saved, OtherThan(id));
    Filter(saved, OtherThan(id))
  }

  /** A filtered collection keeps ids unique. */
  lemma {:induction false} FilterKeepsUniqueIds(saved: seq<Listing>, p: Listing -> bool)
    ensures UniqueIds(saved) ==> UniqueIds(Filter(saved, p))
  {
    if saved != [] && UniqueIds(saved) {
      var rest := Filter(saved[1..], p);
      FilterKeepsUniqueIds(saved[1..], p);
      assert forall i :: 0 <= i < |rest| ==> rest[i] in saved[1..];
      assert forall i :: 0 <= i < |rest| ==> rest[i].id != saved[0].id;
    }
  }

  /** Adding an id that is already saved leaves the collection exactly as it was. */
  lemma AddSavedIsNoOp(saved: seq<Listing>, listing: Listing)
    requires HasId(saved, listing.id)
    ensures AddedTo(saved, listing) == saved
  {
  }

  /** Adding an unsaved id appends the listing at the end. */
  lemma AddUnsavedAppends(saved: seq<Listing>, listing: Listing)
    requires !HasId(saved, listing.id)
    ensures AddedTo(saved, listing) == saved + [listing]
  {
  }

  /** Removing an id that is not saved changes nothing. */
  lemma RemoveUnsavedIsNoOp(saved: seq<Listing>, id: string)
    requires !HasId(saved, id)
    ensures RemovedFrom(saved, id) == saved
  {
  }

  /** With unique ids, removing the id at position k drops exactly that position. */
  lemma RemoveDropsOnePosition(saved: seq<Listing>, k: int)
    requires UniqueIds(saved) && 0 <= k < |saved|
    ensures RemovedFrom(saved, saved[k].id) == saved[..k] + saved[k + 1..]
  {
    var p := OtherThan(saved[k].id);
    assert saved == saved[..k] + ([saved[k]] + saved[k + 1..]);
    FilterAppend(saved[..k], [saved[k]] + saved[k + 1..], p);
    FilterAppend([saved[k]], saved[k + 1..], p);
    FilterKeepsAll(saved[..k], p);
    FilterKeepsAll(saved[k + 1..], p);
  }

  /** Adding a listing whose id is not saved and then removing that id restores the collection. */
  lemma AddThenRemoveRestores(saved: seq<Listing>, listing: Listing)
    requires !HasId(saved, listing.id)
    ensures RemovedFrom(AddedTo(saved, listing), listing.id) == saved
  {
    var p := OtherThan(listing.id);
    FilterAppend(saved, [listing], p);
    FilterKeepsAll(saved, p);
  }

  /** The store itself: `savedListings` with its three operations. */
  class SavedListingsStore {
    var savedListings: seq<Listing>

    /** The store's invariant: ids are pairwise distinct. */
    ghost predicate Valid()
      reads this
    {
      UniqueIds(savedListings)
    }

    /** A fresh store holds nothing (the persisted copy is not part of this model). */
    constructor ()
      ensures Valid() && savedListings == []
    {
      savedListings := [];
    }

    /** `isListingSaved(id)`: some saved listing has this id. */
    function IsListingSaved(id: string): (saved: bool)
      reads this
      ensures saved <==> exists i :: 0 <= i < |savedListings| && savedListings[i].id == id
    {
      HasId(savedListings, id)
    }

    /** `addToSaved(listing)`. */
    method AddToSaved(listing: Listing)
      modifies this
      ensures savedListings == AddedTo(old(savedListings), listing)
      ensures old(IsListingSaved(listing.id)) ==> savedListings == old(savedListings)
      ensures !old(IsListingSaved(listing.id)) ==> savedListings == old(savedListings) + [listing]
      ensures IsListingSaved(listing.id)
      ensures old(Valid()) ==> Valid()
    {
      savedListings := AddedTo(savedListings, listing);
    }

    /** `removeFromSaved(id)`. */
    method RemoveFromSaved(id: string)
      modifies this
      ensures savedListings == RemovedFrom(old(savedListings), id)
      ensures !IsListingSaved(id)
      ensures IsSubsequence(savedListings, old(savedListings))
      ensures forall other :: other != id ==> (IsListingSaved(other) <==> old(IsListingSaved(other)))
      ensures old(Valid()) ==> Valid()
    {
      savedListings := RemovedFrom(savedListings, id);
    }
  }
}
