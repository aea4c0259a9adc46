/** components/marketplace/search-filters.tsx: the five pieces of filter
    state, the "active filters" chips derived from them, and the handlers
    that reset or emit them. */
module SearchFilters {
  import Decimal

  const AllTypes := "ALL_TYPES"
  const AllNiches := "ALL_NICHES"
  const PriceFloor := 0
  const PriceCeiling := 1000
  const DefaultSort := "newest"

  const TypeKey := "type"
  const NicheKey := "niche"
  const PriceKey := "price"

  /** One entry of `activeFilters`: its key, what it shows, and its value. */
  datatype Chip = TypeChip(selectedType: string) | NicheChip(selectedNiche: string) | PriceChip(low: int, high: int)
  {
    function Key(): string {
      match this
      case TypeChip(_) => TypeKey
      case NicheChip(_) => NicheKey
      case PriceChip(_, _) => PriceKey
    }

    function Label(): string {
      match this
      case TypeChip(t) => "Type: " + t
      case NicheChip(n) => "Niche: " + n
      case PriceChip(lo, hi) => "Price: $" + Decimal.IntToString(lo) + " - $" + Decimal.IntToString(hi)
    }
  }

  /** The slider's range is narrowed when either end has moved in. */
  predicate PriceNarrowed(priceRange: (int, int)) {
    priceRange.0 > PriceFloor || priceRange.1 < PriceCeiling
  }

  /** The chips for the current state: type, niche and price, in that order,
      each only when that filter differs from its "all" value. The search
      text and the sort order never produce a chip. */
  function ActiveFilters(selectedType: string, selectedNiche: string, priceRange: (int, int)): (chips: seq<Chip>)
    ensures |chips| <= 3
    ensures TypeChip(selectedType) in chips <==> selectedType != AllTypes
    ensures NicheChip(selectedNiche) in chips <==> selectedNiche != AllNiches
    ensures PriceChip(priceRange.0, priceRange.1) in chips <==> PriceNarrowed(priceRange)
    ensures forall c :: c in chips ==>
              c in [TypeChip(selectedType), NicheChip(selectedNiche), PriceChip(priceRange.0, priceRange.1)]
    ensures forall i, j :: 0 <= i < j < |chips| ==> ChipRank(chips[i]) < ChipRank(chips[j])
  {
    (if selectedType != AllTypes then [TypeChip(selectedType)] else [])
    + (if selectedNiche != AllNiches then [NicheChip(selectedNiche)] else [])
    + (if PriceNarrowed(priceRange) then [PriceChip(priceRange.0, priceRange.1)] else [])
  }

  function ChipRank(c: Chip): nat {
    match c
    case TypeChip(_) => 0
    case NicheChip(_) => 1
    case PriceChip(_, _) => 2
  }

  /** The three keys are different strings. */
  lemma KeysDistinct()
    ensures TypeKey != NicheKey && TypeKey != PriceKey && NicheKey != PriceKey
  {
    assert TypeKey[0] == 't' && NicheKey[0] == 'n' && PriceKey[0] == 'p';
  }

  /** By key: a "type" chip is shown exactly when a type is selected, a
      "niche" chip exactly when a niche is, a "price" chip exactly when the
      range is narrowed; no other key (such as a search or sort key) appears. */
  lemma ActiveFilterKeys(selectedType: string, selectedNiche: string, priceRange: (int, int))
    ensures var chips := ActiveFilters(selectedType, selectedNiche, priceRange);
      && ((exists c :: c in chips && c.Key() == TypeKey) <==> selectedType != AllTypes)
      && ((exists c :: c in chips && c.Key() == NicheKey) <==> selectedNiche != AllNiches)
      && ((exists c :: c in chips && c.Key() == PriceKey) <==> PriceNarrowed(priceRange))
      && (forall c :: c in chips ==> c.Key() in {TypeKey, NicheKey, PriceKey})
  {
    KeysDistinct();
    var chips := ActiveFilters(selectedType, selectedNiche, priceRange);
    if selectedType != AllTypes {
      assert TypeChip(selectedType) in chips;
    }
    if selectedNiche != AllNiches {
      assert NicheChip(selectedNiche) in chips;
    }
    if PriceNarrowed(priceRange) {
      assert PriceChip(priceRange.0, priceRange.1) in chips;
    }
  }

  /** Resetting some filters to their "all" values only removes chips:
      every chip of the new state was already shown. */
  lemma ResetOnlyRemovesChips(t: string, n: string, r: (int, int), t': string, n': string, r': (int, int))
    requires t' == t || t' == AllTypes
    requires n' == n || n' == AllNiches
    requires r' == r || r' == (PriceFloor, PriceCeiling)
    ensures forall c :: c in ActiveFilters(t', n', r') ==> c in ActiveFilters(t, n, r)
  {
    var before, after := ActiveFilters(t, n, r), ActiveFilters(t', n', r');
    forall c | c in after ensures c in before {
      match c
      case TypeChip(_) => assert c == TypeChip(t') && t' != AllTypes && t' == t;
      case NicheChip(_) => assert c == NicheChip(n') && n' != AllNiches && n' == n;
      case PriceChip(_, _) => assert c == PriceChip(r'.0, r'.1) && PriceNarrowed(r') && r' == r;
    }
  }

  /** Once the filter a key names is at its "all" value, no chip carries that key. */
  lemma ClearedKeyAbsent(t: string, n: string, r: (int, int), key: string)
    requires key == TypeKey ==> t == AllTypes
    requires key == NicheKey ==> n == AllNiches
    requires key == PriceKey ==> r == (PriceFloor, PriceCeiling)
    ensures forall c :: c in ActiveFilters(t, n, r) ==> c.Key() != key
  {
    ActiveFilterKeys(t, n, r);
  }

  /** What `handleSearch` hands to `onFiltersChange`. */
  datatype Selection = Selection(search: string, listingType: string, niche: string, priceRange: (int, int), sortBy: string)

  class Filters {
    var searchQuery: string
    var selectedType: string
    var selectedNiche: string
    var priceRange: (int, int)
    var sortBy: string

    /** Every field at its initial value. */
    predicate Initial()
      reads this
    {
      && searchQuery == "" && selectedType == AllTypes && selectedNiche == AllNiches
      && priceRange == (PriceFloor, PriceCeiling) && sortBy == DefaultSort
    }

    function Chips(): seq<Chip>
      reads this
    {
      ActiveFilters(selectedType, selectedNiche, priceRange)
    }

    constructor ()
      ensures Initial() && Chips() == []
    {
      searchQuery := "";
      selectedType := AllTypes;
      selectedNiche := AllNiches;
      priceRange := (PriceFloor, PriceCeiling);
      sortBy := DefaultSort;
    }

    method SetSearchQuery(value: string)
      modifies this
      ensures searchQuery == value && Chips() == old(Chips())
      ensures selectedType == old(selectedType) && selectedNiche == old(selectedNiche)
      ensures priceRange == old(priceRange) && sortBy == old(sortBy)
    {
      searchQuery := value;
    }

    method SetSelectedType(value: string)
      modifies this
      ensures selectedType == value
      ensures searchQuery == old(searchQuery) && selectedNiche == old(selectedNiche)
      ensures priceRange == old(priceRange) && sortBy == old(sortBy)
    {
      selectedType := value;
    }

    method SetSelectedNiche(value: string)
      modifies this
      ensures selectedNiche == value
      ensures searchQuery == old(searchQuery) && selectedType == old(selectedType)
      ensures priceRange == old(priceRange) && sortBy == old(sortBy)
    {
      selectedNiche := value;
    }

    method SetPriceRange(value: (int, int))
      modifies this
      ensures priceRange == value
      ensures searchQuery == old(searchQuery) && selectedType == old(selectedType)
      ensures selectedNiche == old(selectedNiche) && sortBy == old(sortBy)
    {
      priceRange := value;
    }

    method SetSortBy(value: string)
      modifies this
      ensures sortBy == value && Chips() == old(Chips())
      ensures searchQuery == old(searchQuery) && selectedType == old(selectedType)
      ensures selectedNiche == old(selectedNiche) && priceRange == old(priceRange)
    {
      sortBy := value;
    }

    /** `handleSearch`: the five current values, which it passes to the
        `onFiltersChange` callback; it changes nothing. */
    method HandleSearch() returns (s: Selection)
      ensures s.search == searchQuery && s.listingType == selectedType && s.niche == selectedNiche
      ensures s.priceRange == priceRange && s.sortBy == sortBy
    {
      s := Selection(searchQuery, selectedType, selectedNiche, priceRange, sortBy);
    }

    /** `clearFilter(key)`: resets the field the key names and no other;
        afterwards no chip carries that key. An unknown key changes nothing. */
    method ClearFilter(key: string)
      modifies this
      ensures key == TypeKey ==> selectedType == AllTypes
      ensures key == NicheKey ==> selectedNiche == AllNiches
      ensures key == PriceKey ==> priceRange == (PriceFloor, PriceCeiling)
      ensures key != TypeKey ==> selectedType == old(selectedType)
      ensures key != NicheKey ==> selectedNiche == old(selectedNiche)
      ensures key != PriceKey ==> priceRange == old(priceRange)
      ensures searchQuery == old(searchQuery) && sortBy == old(sortBy)
      ensures forall c :: c in Chips() ==> c.Key() != key
      ensures forall c :: c in Chips() ==> c in old(Chips())
    {
      ghost var t, n, r := selectedType, selectedNiche, priceRange;
      if key == TypeKey {
        selectedType := AllTypes;
      } else if key == NicheKey {
        selectedNiche := AllNiches;
      } else if key == PriceKey {
        priceRange := (PriceFloor, PriceCeiling);
      }
      ClearedKeyAbsent(selectedType, selectedNiche, priceRange, key);
      ResetOnlyRemovesChips(t, n, r, selectedType, selectedNiche, priceRange);
    }

    /** `clearAllFilters`: every field back to its initial value, so no chip remains. */
    method ClearAllFilters()
      modifies this
      ensures Initial() && Chips() == []
    {
      searchQuery := "";
      selectedType := AllTypes;
      selectedNiche := AllNiches;
      priceRange := (PriceFloor, PriceCeiling);
      sortBy := DefaultSort;
    }
  }
}
