/**
 * The Browse page's logic: the filter over the fixture (search text, price
 * bucket, property type), the sort by one of four keys, the risk badge
 * chosen by report count, and the save/unsave toggle.
 */
module Browse {
  import opened Text
  import opened Seqs
  import opened Listings
  import opened SavedListings

  // ---------------------------------------------------------------- filter

  /** Case-insensitive search on title or location. */
  predicate MatchesSearch(listing: Listing, searchTerm: string) {
    Includes(ToLower(listing.title), ToLower(searchTerm)) ||
    Includes(ToLower(listing.location), ToLower(searchTerm))
  }

  /** The price select: two "any" values and four buckets; any other value matches nothing. */
  predicate MatchesPrice(price: int, priceRange: string) {
    priceRange == "all-prices" || priceRange == "" ||
    (priceRange == "0-1000" && price <= 1000) ||
    (priceRange == "1000-1500" && price > 1000 && price <= 1500) ||
    (priceRange == "1500-2000" && price > 1500 && price <= 2000) ||
    (priceRange == "2000+" && price > 2000)
  }

  /** The property-type select: two "any" values, otherwise an exact match. */
  predicate MatchesType(listing: Listing, propertyType: string) {
    propertyType == "all-types" || propertyType == "" || listing.propertyType == propertyType
  }

  predicate Matches(listing: Listing, searchTerm: string, priceRange: string, propertyType: string) {
    MatchesSearch(listing, searchTerm) && MatchesPrice(listing.price, priceRange) &&
    MatchesType(listing, propertyType)
  }

  /** The predicate handed to `filter`. */
  function Criteria(searchTerm: string, priceRange: string, propertyType: string): Listing -> bool {
    (listing: Listing) => Matches(listing, searchTerm, priceRange, propertyType)
  }

  /** The filter step: the matching listings, each as often as in the input, in input order. */
  function FilterListings(listings: seq<Listing>, searchTerm: string, priceRange: string, propertyType: string)
    : (r: seq<Listing>)
    ensures forall l ::
      multiset(r)[l] == if Matches(l, searchTerm, priceRange, propertyType) then multiset(listings)[l] else 0
    ensures IsSubsequence(r, listings)
  {
    var p := Criteria(searchTerm, priceRange, propertyType);
    FilterIsSubsequence(listings, p);
    forall l ensures multiset(Filter(listings, p))[l] == if p(l) then multiset(listings)[l] else 0 {
      FilterMultiplicity(listings, p, l);
    }
    Filter(listings, p)
  }

  /** Filtering a list without duplicates yields a list without duplicates. */
  lemma FilterListingsNoDuplicates(listings: seq<Listing>, searchTerm: string, priceRange: string, propertyType: string)
    requires NoDuplicates(listings)
    ensures NoDuplicates(FilterListings(listings, searchTerm, priceRange, propertyType))
  {
    FilterNoDuplicates(listings, Criteria(searchTerm, priceRange, propertyType));
  }

  /** The search looks only at the lowercased term: the term's case does not matter. */
  lemma SearchIgnoresCase(listing: Listing, searchTerm: string)
    ensures MatchesSearch(listing, searchTerm) <==> MatchesSearch(listing, ToLower(searchTerm))
  {
    ToLowerIdempotent(searchTerm);
  }

  /** Nor does the case of the listing's title or location. */
  lemma SearchIgnoresListingCase(listing: Listing, searchTerm: string)
    ensures MatchesSearch(listing, searchTerm) <==>
      MatchesSearch(listing.(title := ToLower(listing.title), location := ToLower(listing.location)), searchTerm)
  {
    ToLowerIdempotent(listing.title);
    ToLowerIdempotent(listing.location);
  }

  /** The empty term matches every listing. */
  lemma EmptySearchMatchesAll(listing: Listing)
    ensures MatchesSearch(listing, "")
  {
    IncludesEmpty(ToLower(listing.title));
  }

  /** Each price lies in exactly one of the four buckets, and the "any" values accept it. */
  lemma PriceBucketsPartition(price: int)
    ensures MatchesPrice(price, "all-prices") && MatchesPrice(price, "")
    ensures (if MatchesPrice(price, "0-1000") then 1 else 0) +
            (if MatchesPrice(price, "1000-1500") then 1 else 0) +
            (if MatchesPrice(price, "1500-2000") then 1 else 0) +
            (if MatchesPrice(price, "2000+") then 1 else 0) == 1
  {
  }

  /** With no constraint selected, the filter keeps the whole input in order. */
  lemma DefaultFiltersKeepAll(listings: seq<Listing>)
    ensures FilterListings(listings, "", "all-prices", "all-types") == listings
  {
    forall i | 0 <= i < |listings|
      ensures Criteria("", "all-prices", "all-types")(listings[i])
    {
      EmptySearchMatchesAll(listings[i]);
    }
    FilterKeepsAll(listings, Criteria("", "all-prices", "all-types"));
  }

  // ------------------------------------------------------------------ sort

  /** The four orders of the sort select; any unknown value sorts like "newest". */
  datatype SortOrder = PriceLow | PriceHigh | Rating | Newest

  function ParseSortBy(sortBy: string): (order: SortOrder)
    ensures order == PriceLow <==> sortBy == "price-low"
    ensures order == PriceHigh <==> sortBy == "price-high"
    ensures order == Rating <==> sortBy == "rating"
  {
    if sortBy == "price-low" then PriceLow
    else if sortBy == "price-high" then PriceHigh
    else if sortBy == "rating" then Rating
    else Newest
  }

  /**
   * Every comparator of the sort is `key(a) - key(b)` for one of these keys:
   * price ascending, price descending, rating descending, and creation date
   * descending.
   */
  function SortKey(listing: Listing, order: SortOrder): int {
    match order
    case PriceLow => listing.price
    case PriceHigh => -listing.price
    case Rating => -listing.hostRating
    case Newest => -listing.createdAt
  }

  ghost predicate SortedBy(s: seq<Listing>, order: SortOrder) {
    forall i, j :: 0 <= i < j < |s| ==> SortKey(s[i], order) <= SortKey(s[j], order)
  }

  /** Exchange two neighbouring elements. */
  method SwapDown(a: array<Listing>, j: int)
    requires 0 < j < a.Length
    modifies a
    ensures a[j - 1] == old(a[j]) && a[j] == old(a[j - 1])
    ensures forall k :: 0 <= k < a.Length && k != j - 1 && k != j ==> a[k] == old(a[k])
    ensures multiset(a[..]) == old(multiset(a[..]))
  {
    a[j - 1], a[j] := a[j], a[j - 1];
  }

  /** Move `a[i]` down into the sorted prefix `a[..i]`. */
  method InsertInto(a: array<Listing>, i: int, order: SortOrder)
    requires 0 <= i < a.Length
    requires forall p, q :: 0 <= p < q < i ==> SortKey(a[p], order) <= SortKey(a[q], order)
    modifies a
    ensures forall p, q :: 0 <= p < q <= i ==> SortKey(a[p], order) <= SortKey(a[q], order)
    ensures forall k :: i < k < a.Length ==> a[k] == old(a[k])
    ensures multiset(a[..]) == old(multiset(a[..]))
  {
    var j := i;
    while j > 0 && SortKey(a[j - 1], order) > SortKey(a[j], order)
      invariant 0 <= j <= i
      invariant forall p, q :: 0 <= p < q <= i && p != j && q != j ==>
        SortKey(a[p], order) <= SortKey(a[q], order)
      invariant forall q :: j < q <= i ==> SortKey(a[j], order) <= SortKey(a[q], order)
      invariant 0 < j < i ==> SortKey(a[j - 1], order) <= SortKey(a[j + 1], order)
      invariant forall k :: i < k < a.Length ==> a[k] == old(a[k])
      invariant multiset(a[..]) == old(multiset(a[..]))
    {
      SwapDown(a, j);
      j := j - 1;
    }
  }

  /** `filtered.sort(compare)`, done as an insertion sort in place. */
  method SortListings(a: array<Listing>, order: SortOrder)
    modifies a
    ensures SortedBy(a[..], order)
    ensures multiset(a[..]) == old(multiset(a[..]))
  {
    var i := 0;
    while i < a.Length
      invariant 0 <= i <= a.Length
      invariant forall p, q :: 0 <= p < q < i ==> SortKey(a[p], order) <= SortKey(a[q], order)
      invariant multiset(a[..]) == old(multiset(a[..]))
    {
      InsertInto(a, i, order);
      i := i + 1;
    }
  }

  /** `filteredAndSortedListings`: the filter, then the sort. */
  method FilteredAndSortedListings(listings: seq<Listing>, searchTerm: string, priceRange: string,
                                   propertyType: string, sortBy: string)
    returns (r: seq<Listing>)
    ensures forall l ::
      multiset(r)[l] == if Matches(l, searchTerm, priceRange, propertyType) then multiset(listings)[l] else 0
    ensures SortedBy(r, ParseSortBy(sortBy))
    ensures sortBy == "price-low" ==> forall i, j :: 0 <= i < j < |r| ==> r[i].price <= r[j].price
    ensures sortBy == "price-high" ==> forall i, j :: 0 <= i < j < |r| ==> r[i].price >= r[j].price
    ensures sortBy == "rating" ==> forall i, j :: 0 <= i < j < |r| ==> r[i].hostRating >= r[j].hostRating
    ensures sortBy !in {"price-low", "price-high", "rating"} ==>
      forall i, j :: 0 <= i < j < |r| ==> r[i].createdAt >= r[j].createdAt
  {
    var filtered := FilterListings(listings, searchTerm, priceRange, propertyType);
    var a := new Listing[|filtered|](k requires 0 <= k < |filtered| => filtered[k]);
    assert a[..] == filtered;
    SortListings(a, ParseSortBy(sortBy));
    r := a[..];
  }

  /** On the fixture, which has no repeated listing, the result has none either. */
  lemma FixtureResultHasNoDuplicates(r: seq<Listing>, searchTerm: string, priceRange: string, propertyType: string)
    requires forall l ::
      multiset(r)[l] == if Matches(l, searchTerm, priceRange, propertyType) then multiset(MockListings())[l] else 0
    ensures NoDuplicates(r)
  {
    var fixture := MockListings();
    assert NoDuplicates(fixture) by {
      forall i, j | 0 <= i < j < |fixture| ensures fixture[i] != fixture[j] {
        assert fixture[i].id != fixture[j].id;
      }
    }
    forall l ensures multiset(r)[l] <= 1 {
      NoDuplicatesMultiplicity(fixture, l);
    }
    MultiplicityNoDuplicates(r);
  }

  /** Keys that no two positions of a sequence share. */
  ghost predicate DistinctKeys(s: seq<Listing>, order: SortOrder) {
    forall i, j :: 0 <= i < j < |s| ==> SortKey(s[i], order) != SortKey(s[j], order)
  }

  /** Two sorted orderings of the same listings, with distinct keys, start with the same listing. */
  lemma SortedPermutationsShareHead(a: seq<Listing>, b: seq<Listing>, order: SortOrder)
    requires a != [] && multiset(a) == multiset(b)
    requires SortedBy(a, order) && SortedBy(b, order) && DistinctKeys(a, order)
    ensures b != [] && a[0] == b[0]
  {
    assert a[0] in multiset(b);
    assert b[0] in multiset(a);
    var i :| 0 <= i < |a| && a[i] == b[0];
    var j :| 0 <= j < |b| && b[j] == a[0];
    assert SortKey(b[0], order) <= SortKey(a[0], order);
  }

  /** Dropping the same first listing from two permutations of each other leaves two permutations. */
  lemma DropCommonHead(a: seq<Listing>, b: seq<Listing>)
    requires a != [] && b != [] && a[0] == b[0] && multiset(a) == multiset(b)
    ensures multiset(a[1..]) == multiset(b[1..])
  {
    assert a == [a[0]] + a[1..] && b == [b[0]] + b[1..];
    assert multiset{a[0]} + multiset(a[1..]) == multiset{a[0]} + multiset(b[1..]);
    forall z ensures multiset(a[1..])[z] == multiset(b[1..])[z] {
      assert (multiset{a[0]} + multiset(a[1..]))[z] == (multiset{a[0]} + multiset(b[1..]))[z];
    }
  }

  /** The tail of a sorted sequence with distinct keys is sorted with distinct keys. */
  lemma TailSortedDistinct(s: seq<Listing>, order: SortOrder)
    requires s != [] && SortedBy(s, order) && DistinctKeys(s, order)
    ensures SortedBy(s[1..], order) && DistinctKeys(s[1..], order)
  {
    forall i, j | 0 <= i < j < |s| - 1
      ensures SortKey(s[1..][i], order) < SortKey(s[1..][j], order)
    {
      assert s[1..][i] == s[i + 1] && s[1..][j] == s[j + 1];
    }
  }

  /** Two orderings of the same listings, both sorted by a key no two of them share, are the same. */
  lemma {:induction false} SortedPermutationUnique(a: seq<Listing>, b: seq<Listing>, order: SortOrder)
    requires multiset(a) == multiset(b)
    requires SortedBy(a, order) && SortedBy(b, order) && DistinctKeys(a, order)
    ensures a == b
  {
    if a == [] {
      assert |b| == |multiset(b)| == 0;
    } else {
      SortedPermutationsShareHead(a, b, order);
      DropCommonHead(a, b);
      TailSortedDistinct(a, order);
      assert SortedBy(b[1..], order) by {
        forall i, j | 0 <= i < j < |b| - 1 ensures SortKey(b[1..][i], order) <= SortKey(b[1..][j], order) {
          assert b[1..][i] == b[i + 1] && b[1..][j] == b[j + 1];
        }
      }
      SortedPermutationUnique(a[1..], b[1..], order);
      assert a == [a[0]] + a[1..] && b == [b[0]] + b[1..];
    }
  }

  /** The fixture, listed newest first. */
  function FixtureNewestFirst(): seq<Listing> {
    [MockListings()[2], MockListings()[0], MockListings()[1], MockListings()[3]]
  }

  /** Keys that strictly increase from each element to the next are sorted and pairwise distinct. */
  lemma {:induction false} StrictStepsSortDistinct(s: seq<Listing>, order: SortOrder)
    requires forall i :: 0 <= i < |s| - 1 ==> SortKey(s[i], order) < SortKey(s[i + 1], order)
    ensures forall i, j :: 0 <= i < j < |s| ==> SortKey(s[i], order) < SortKey(s[j], order)
    ensures SortedBy(s, order) && DistinctKeys(s, order)
  {
    if |s| > 1 {
      StrictStepsSortDistinct(s[1..], order);
      forall i, j | 0 <= i < j < |s| ensures SortKey(s[i], order) < SortKey(s[j], order) {
        if i > 0 {
          assert s[i] == s[1..][i - 1] && s[j] == s[1..][j - 1];
        } else if j > 1 {
          assert s[1] == s[1..][0] && s[j] == s[1..][j - 1];
        }
      }
    }
  }

  /** That listing is sorted by date with no two dates equal. */
  lemma FixtureNewestFirstIsSorted()
    ensures SortedBy(FixtureNewestFirst(), Newest)
    ensures DistinctKeys(FixtureNewestFirst(), Newest)
  {
    var f := FixtureNewestFirst();
    assert f[0].createdAt > f[1].createdAt > f[2].createdAt > f[3].createdAt;
    StrictStepsSortDistinct(f, Newest);
  }

  /** That listing is a permutation of the fixture. */
  lemma FixtureNewestFirstIsPermutation()
    ensures multiset(FixtureNewestFirst()) == multiset(MockListings())
  {
    var f := MockListings();
    assert f == [f[0], f[1], f[2], f[3]];
    assert multiset(f) == multiset{f[0]} + multiset{f[1]} + multiset{f[2]} + multiset{f[3]};
  }

  /** With the initial filter values, the result holds exactly the input's listings. */
  lemma DefaultFiltersKeepMultiset(r: seq<Listing>, listings: seq<Listing>)
    requires forall l ::
      multiset(r)[l] == if Matches(l, "", "all-prices", "all-types") then multiset(listings)[l] else 0
    ensures multiset(r) == multiset(listings)
  {
    forall l ensures multiset(r)[l] == multiset(listings)[l] {
      EmptySearchMatchesAll(l);
    }
  }

  /** With the page's initial filter values, the fixture is shown newest first: listings 3, 1, 2, 4. */
  lemma DefaultViewOfFixture(r: seq<Listing>)
    requires forall l ::
      multiset(r)[l] == if Matches(l, "", "all-prices", "all-types") then multiset(MockListings())[l] else 0
    requires SortedBy(r, Newest)
    ensures r == FixtureNewestFirst()
  {
    DefaultFiltersKeepMultiset(r, MockListings());
    FixtureNewestFirstIsSorted();
    FixtureNewestFirstIsPermutation();
    SortedPermutationUnique(FixtureNewestFirst(), r, Newest);
  }

  // ------------------------------------------------------------ risk badge

  datatype BadgeVariant = Success | Warning | Destructive

  datatype RiskBadge = RiskBadge(variant: BadgeVariant, text: string)

  /** Decimal digits of a natural number, as a template literal prints it. */
  function NatToString(n: nat): (s: string)
    ensures |s| >= 1
    ensures forall i :: 0 <= i < |s| ==> '0' <= s[i] <= '9'
    ensures |s| > 1 ==> s[0] != '0'
  {
    if n < 10 then [('0' as int + n) as char]
    else NatToString(n / 10) + [('0' as int + n % 10) as char]
  }

  /** The value a string of decimal digits denotes. */
  function DigitsValue(s: string): nat
    requires forall i :: 0 <= i < |s| ==> '0' <= s[i] <= '9'
  {
    if s == [] then 0 else 10 * DigitsValue(s[..|s| - 1]) + (s[|s| - 1] as int - '0' as int)
  }

  /** Printing and reading back a count gives the count. */
  lemma {:induction false} NatToStringRoundTrip(n: nat)
    ensures DigitsValue(NatToString(n)) == n
  {
    if n >= 10 {
      var s := NatToString(n);
      assert s[..|s| - 1] == NatToString(n / 10);
      NatToStringRoundTrip(n / 10);
    }
  }

  /** A number as a template literal prints it: its decimal digits, after a minus sign when negative. */
  function IntToString(n: int): (s: string)
    ensures |s| >= 1
    ensures n >= 0 ==> (forall i :: 0 <= i < |s| ==> '0' <= s[i] <= '9') && DigitsValue(s) == n
    ensures n < 0 ==> s[0] == '-' && (forall i :: 1 <= i < |s| ==> '0' <= s[i] <= '9') && DigitsValue(s[1..]) == -n
    ensures n >= 0 && |s| > 1 ==> s[0] != '0'
    ensures n < 0 ==> |s| >= 2 && (|s| > 2 ==> s[1] != '0')
  {
    if n < 0 then
      NatToStringRoundTrip(-n);
      var s := "-" + NatToString(-n);
      assert s[1..] == NatToString(-n);
      s
    else
      NatToStringRoundTrip(n);
      NatToString(n)
  }

  /** `getRiskBadge(reportCount)`: variant and text of the badge. */
  function GetRiskBadge(reportCount: int): (badge: RiskBadge)
    ensures badge.variant == Success <==> reportCount == 0
    ensures badge.variant == Warning <==> reportCount != 0 && reportCount <= 2
    ensures badge.variant == Destructive <==> reportCount > 2
    ensures badge.variant == Success ==> badge.text == "Verified Safe"
    ensures badge.variant == Warning ==>
      var count := IntToString(reportCount);
      count <= badge.text && |badge.text| == |count| + 7 + (if reportCount > 1 then 1 else 0) &&
      badge.text[|count|..|count| + 7] == " Report" &&
      (badge.text[|badge.text| - 1] == 's' <==> reportCount > 1)
    ensures badge.variant == Destructive ==>
      var count := IntToString(reportCount);
      "High Risk (" <= badge.text && |badge.text| == 11 + |count| + 9 &&
      badge.text[11..11 + |count|] == count && badge.text[|badge.text| - 9..] == " Reports)"
  {
    if reportCount == 0 then RiskBadge(Success, "Verified Safe")
    else if reportCount <= 2 then
      RiskBadge(Warning, IntToString(reportCount) + " Report" + (if reportCount > 1 then "s" else ""))
    else RiskBadge(Destructive, "High Risk (" + IntToString(reportCount) + " Reports)")
  }

  /** A badge's label names the count it was made from. */
  lemma {:induction false} RiskLabelNamesCount(reportCount: nat)
    requires reportCount > 0
    ensures var text := GetRiskBadge(reportCount).text;
      var digits := NatToString(reportCount);
      var at := if reportCount <= 2 then 0 else |"High Risk ("|;
      at + |digits| <= |text| && DigitsValue(text[at..at + |digits|]) == reportCount
  {
    var digits := NatToString(reportCount);
    var text := GetRiskBadge(reportCount).text;
    var at := if reportCount <= 2 then 0 else |"High Risk ("|;
    assert text[at..at + |digits|] == digits;
    NatToStringRoundTrip(reportCount);
  }

  // ---------------------------------------------------------- save toggle

  /** What `handleSaveListing` does to the saved collection. */
  function Toggled(saved: seq<Listing>, listing: Listing): seq<Listing> {
    if HasId(saved, listing.id) then RemovedFrom(saved, listing.id) else AddedTo(saved, listing)
  }

  /** The toggle flips the listing's membership and no other id's. */
  lemma ToggleFlipsMembership(saved: seq<Listing>, listing: Listing, id: string)
    ensures HasId(Toggled(saved, listing), id) == if id == listing.id then !HasId(saved, id) else HasId(saved, id)
  {
  }

  /** Toggling twice restores every id's membership. */
  lemma ToggleTwiceRestoresMembership(saved: seq<Listing>, listing: Listing, id: string)
    ensures HasId(Toggled(Toggled(saved, listing), listing), id) == HasId(saved, id)
  {
  }

  /** Toggling an unsaved listing twice restores the collection exactly. */
  lemma ToggleTwiceFromUnsaved(saved: seq<Listing>, listing: Listing)
    requires !HasId(saved, listing.id)
    ensures Toggled(Toggled(saved, listing), listing) == saved
  {
    AddThenRemoveRestores(saved, listing);
  }

  /** `handleSaveListing(listing)` (the toast is not modelled). */
  method HandleSaveListing(store: SavedListingsStore, listing: Listing)
    modifies store
    ensures store.savedListings == Toggled(old(store.savedListings), listing)
    ensures store.IsListingSaved(listing.id) == !old(store.IsListingSaved(listing.id))
    ensures old(store.Valid()) ==> store.Valid()
  {
    if store.IsListingSaved(listing.id) {
      store.RemoveFromSaved(listing.id);
    } else {
      store.AddToSaved(listing);
    }
  }
}
