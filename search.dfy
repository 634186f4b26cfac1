/** pages/Search.tsx: the search page's filter state and the listing filter it
    drives. The great-circle distance is a parameter: the model keeps only its
    comparison with the radius. */
module Search {
  import opened Types
  import opened Seqs

  /** Distance in kilometres between two points, supplied by the caller. */
  type Distance = (Coordinates, Coordinates) -> real

  datatype SearchFilters = SearchFilters(
    propertyType: string,
    minPrice: int,
    maxPrice: int,
    radius: int,
    center: Coordinates)

  /** The filters the page starts with and Clear All restores: all types,
      0 to 20000, 5 km around the centre of Pune. */
  const DefaultFilters: SearchFilters := SearchFilters("", 0, 20000, 5, Coordinates(18.5204, 73.8567))

  function TypeIs(t: string): Property -> bool
  {
    (p: Property) => p.propertyType.Name() == t
  }

  function InBand(lo: int, hi: int): Property -> bool
  {
    (p: Property) => lo <= p.rent <= hi
  }

  function WithinRadius(dist: Distance, center: Coordinates, radius: int): Property -> bool
  {
    (p: Property) => dist(p.coordinates, center) <= radius as real
  }

  /** The filter effect as written: an optional type filter, then the price
      band, then the radius, each a `filter` over the previous result. */
  function FilterListings(ps: seq<Property>, f: SearchFilters, dist: Distance): seq<Property>
  {
    var byType := if f.propertyType != "" then Filter(ps, TypeIs(f.propertyType)) else ps;
    var byPrice := Filter(byType, InBand(f.minPrice, f.maxPrice));
    Filter(byPrice, WithinRadius(dist, f.center, f.radius))
  }

  /** The three conditions a listing must meet, stated at once. */
  predicate Admits(f: SearchFilters, dist: Distance, p: Property)
  {
    && (f.propertyType == "" || p.propertyType.Name() == f.propertyType)
    && f.minPrice <= p.rent <= f.maxPrice
    && dist(p.coordinates, f.center) <= f.radius as real
  }

  function AdmitsFn(f: SearchFilters, dist: Distance): Property -> bool
  {
    (p: Property) => Admits(f, dist, p)
  }

  /** The chain of filters is one filter by the conjunction of its conditions. */
  lemma FilterListingsIsOneFilter(ps: seq<Property>, f: SearchFilters, dist: Distance)
    ensures FilterListings(ps, f, dist) == Filter(ps, AdmitsFn(f, dist))
  {
    var band := InBand(f.minPrice, f.maxPrice);
    var near := WithinRadius(dist, f.center, f.radius);
    var typed := if f.propertyType != "" then TypeIs(f.propertyType) else (p: Property) => true;
    var typeAndBand := (p: Property) => typed(p) && band(p);
    if f.propertyType != "" {
      FilterFilter(ps, typed, band, typeAndBand);
    } else {
      FilterKeepsAll(ps, typed);
      FilterFilter(ps, typed, band, typeAndBand);
    }
    FilterFilter(ps, typeAndBand, near, AdmitsFn(f, dist));
  }

  /** The result keeps the input's order and holds exactly the listings that
      meet all three conditions. */
  lemma FilterListingsMeaning(ps: seq<Property>, f: SearchFilters, dist: Distance, p: Property)
    ensures IsSubsequence(FilterListings(ps, f, dist), ps)
    ensures p in FilterListings(ps, f, dist) <==> p in ps && Admits(f, dist, p)
  {
    FilterListingsIsOneFilter(ps, f, dist);
    FilterIsSubsequence(ps, AdmitsFn(f, dist));
    FilterMembership(ps, AdmitsFn(f, dist), p);
  }

  /** Filtering the result again with the same filters changes nothing. */
  lemma FilterListingsIdempotent(ps: seq<Property>, f: SearchFilters, dist: Distance)
    ensures FilterListings(FilterListings(ps, f, dist), f, dist) == FilterListings(ps, f, dist)
  {
    FilterListingsIsOneFilter(ps, f, dist);
    FilterListingsIsOneFilter(FilterListings(ps, f, dist), f, dist);
    FilterIdempotent(ps, AdmitsFn(f, dist));
  }

  /** Both ends of the price band are kept. */
  lemma PriceBandInclusive(p: Property, f: SearchFilters, dist: Distance)
    requires f.propertyType == "" && dist(p.coordinates, f.center) <= f.radius as real
    requires p.rent == f.minPrice || p.rent == f.maxPrice
    requires f.minPrice <= f.maxPrice
    ensures p in FilterListings([p], f, dist)
  {
    FilterListingsMeaning([p], f, dist, p);
  }

  class SearchPage {
    /** The distance the page measures with. */
    const dist: Distance
    /** What `getProperties` returned. */
    var properties: seq<Property>
    var filters: SearchFilters
    var filteredProps: seq<Property>

    /** The filter effect has run since the last change of its inputs. */
    predicate Valid()
      reads this
    {
      filteredProps == FilterListings(properties, filters, dist)
    }

    constructor (dist: Distance)
      ensures Valid()
      ensures this.dist == dist && properties == [] && filters == DefaultFilters && filteredProps == []
    {
      this.dist := dist;
      properties := [];
      filters := DefaultFilters;
      filteredProps := [];
    }

    /** The filter effect (it runs whenever `filters` or `properties` change). */
    method Refilter()
      modifies this`filteredProps
      ensures Valid()
    {
      filteredProps := FilterListings(properties, filters, dist);
    }

    /** The listings arrive from the api. */
    method Loaded(ps: seq<Property>)
      modifies this`properties, this`filteredProps
      ensures Valid() && properties == ps && filters == old(filters)
    {
      properties := ps;
      Refilter();
    }

    /** The property-type select. */
    method SetType(t: string)
      modifies this`filters, this`filteredProps
      ensures Valid() && filters == old(filters).(propertyType := t)
    {
      filters := filters.(propertyType := t);
      Refilter();
    }

    /** The price slider; it sets only the maximum. */
    method SetMaxPrice(m: int)
      modifies this`filters, this`filteredProps
      ensures Valid() && filters == old(filters).(maxPrice := m)
    {
      filters := filters.(maxPrice := m);
      Refilter();
    }

    /** The radius slider. */
    method SetRadius(r: int)
      modifies this`filters, this`filteredProps
      ensures Valid() && filters == old(filters).(radius := r)
    {
      filters := filters.(radius := r);
      Refilter();
    }

    /** handleLocationSelect: only the centre moves. */
    method SelectLocation(c: Coordinates)
      modifies this`filters, this`filteredProps
      ensures Valid() && filters == old(filters).(center := c)
    {
      filters := filters.(center := c);
      Refilter();
    }

    /** Clear All: back to exactly the defaults. */
    method ClearAll()
      modifies this`filters, this`filteredProps
      ensures Valid() && filters == DefaultFilters
    {
      filters := DefaultFilters;
      Refilter();
    }
  }
}
