/**
 * The bus-selection screen: the list of buses built from each snapshot of
 * the `buses` collection, and the search filter that narrows it to the
 * buses whose id contains the query, case-insensitively.
 */
module BusSelection {
  import opened Wrappers
  import opened Backend
  import opened Text

  /** One entry of the bus list: the document id merged with its data. */
  datatype Bus = Bus(id: string, model: string, routeId: Option<string>)

  /** One document of a `buses` snapshot. */
  datatype BusDocument = BusDocument(id: string, data: BusData)

  /** `{ id: documentSnapshot.id, ...documentSnapshot.data() }` */
  function ToBus(doc: BusDocument): (b: Bus)
    ensures b.id == doc.id && b.model == doc.data.model && b.routeId == doc.data.routeId
  {
    Bus(doc.id, doc.data.model, doc.data.routeId)
  }

  /**
   * The snapshot listener's loop: one bus per document, pushed in the order
   * the snapshot delivers them.
   */
  method BuildBusList(snapshot: seq<BusDocument>) returns (busList: seq<Bus>)
    ensures |busList| == |snapshot|
    ensures forall i :: 0 <= i < |snapshot| ==>
              busList[i].id == snapshot[i].id && busList[i].model == snapshot[i].data.model
              && busList[i].routeId == snapshot[i].data.routeId
  {
    busList := [];
    var k := 0;
    while k < |snapshot|
      invariant 0 <= k <= |snapshot|
      invariant |busList| == k
      invariant forall i :: 0 <= i < k ==> busList[i] == ToBus(snapshot[i])
    {
      busList := busList + [ToBus(snapshot[k])];
      k := k + 1;
    }
  }

  /** The filter's test: the lower-cased id contains `needle`. */
  predicate Matches(bus: Bus, needle: string)
    ensures Matches(bus, needle) <==> exists i :: OccursAt(Lower(bus.id), needle, i)
  {
    IncludesIff(Lower(bus.id), needle);
    Includes(Lower(bus.id), needle)
  }

  /** `buses.filter(bus => Matches(bus, needle))`. */
  function KeepMatching(buses: seq<Bus>, needle: string): (r: seq<Bus>)
    ensures |r| <= |buses|
    ensures forall b :: b in r ==> b in buses && Matches(b, needle)
  {
    if buses == [] then []
    else (if Matches(buses[0], needle) then [buses[0]] else []) + KeepMatching(buses[1..], needle)
  }

  /**
   * The list the screen shows for `searchQuery`: the whole list for the
   * empty query, otherwise the buses whose lower-cased id contains the
   * lower-cased query.
   */
  function FilterBuses(buses: seq<Bus>, searchQuery: string): (r: seq<Bus>)
    ensures searchQuery == "" ==> r == buses
    ensures forall b :: b in r ==> b in buses && Includes(Lower(b.id), Lower(searchQuery))
  {
    if searchQuery == "" then buses else KeepMatching(buses, Lower(searchQuery))
  }

  /** `r` is `s` with some elements dropped and the rest kept in order. */
  ghost predicate IsSubsequence(r: seq<Bus>, s: seq<Bus>)
    decreases |s|
  {
    if r == [] then true
    else if s == [] then false
    else if r[0] == s[0] then IsSubsequence(r[1..], s[1..])
    else IsSubsequence(r, s[1..])
  }

  /** The filter keeps the original order. */
  lemma {:induction false} KeepMatchingIsSubsequence(buses: seq<Bus>, needle: string)
    ensures IsSubsequence(KeepMatching(buses, needle), buses)
  {
    if buses != [] {
      KeepMatchingIsSubsequence(buses[1..], needle);
      var r := KeepMatching(buses, needle);
      if !Matches(buses[0], needle) {
        assert r == KeepMatching(buses[1..], needle);
        if r != [] {
          assert r[0] in r && r[0] != buses[0];
        }
      }
    }
  }

  /**
   * The filter keeps every matching bus as often as the list holds it and
   * drops every other bus.
   */
  lemma {:induction false} KeepMatchingCounts(buses: seq<Bus>, needle: string, b: Bus)
    ensures multiset(KeepMatching(buses, needle))[b] ==
            if Matches(b, needle) then multiset(buses)[b] else 0
  {
    if buses != [] {
      KeepMatchingCounts(buses[1..], needle, b);
      assert buses == [buses[0]] + buses[1..];
    }
  }

  /** Filtering a concatenation filters each part. */
  lemma {:induction false} KeepMatchingAppend(a: seq<Bus>, b: seq<Bus>, needle: string)
    ensures KeepMatching(a + b, needle) == KeepMatching(a, needle) + KeepMatching(b, needle)
  {
    if a != [] {
      KeepMatchingAppend(a[1..], b, needle);
      assert (a + b)[1..] == a[1..] + b;
    } else {
      assert a + b == b;
    }
  }

  /**
   * The empty query needs no branch of its own: filtering by the empty
   * needle keeps the whole list.
   */
  lemma {:induction false} EmptyNeedleKeepsAll(buses: seq<Bus>)
    ensures KeepMatching(buses, Lower("")) == buses
  {
    if buses != [] {
      EmptyNeedleKeepsAll(buses[1..]);
    }
  }

  /**
   * What the screen shows: in order, exactly the buses whose lower-cased id
   * contains the lower-cased query, each as often as the list holds it.
   */
  lemma FilterBusesExact(buses: seq<Bus>, searchQuery: string, b: Bus)
    ensures IsSubsequence(FilterBuses(buses, searchQuery), buses)
    ensures multiset(FilterBuses(buses, searchQuery))[b] ==
            if Includes(Lower(b.id), Lower(searchQuery)) then multiset(buses)[b] else 0
  {
    EmptyNeedleKeepsAll(buses);
    KeepMatchingIsSubsequence(buses, Lower(searchQuery));
    KeepMatchingCounts(buses, Lower(searchQuery), b);
  }

  /**
   * The screen's state. `Valid` is what the filter effect re-establishes
   * after every change of `searchQuery` or `buses`.
   */
  class BusSelectionScreen {
    var buses: seq<Bus>
    var filteredBuses: seq<Bus>
    var searchQuery: string
    var loading: bool

    ghost predicate Valid()
      reads this
    {
      filteredBuses == FilterBuses(buses, searchQuery)
    }

    /** Mounting: an empty list, an empty query, the spinner shown. */
    constructor ()
      ensures Valid()
      ensures buses == [] && filteredBuses == [] && searchQuery == "" && loading
    {
      buses, filteredBuses, searchQuery, loading := [], [], "", true;
    }

    /** The effect on `[searchQuery, buses]`. */
    method RunFilterEffect()
      modifies this`filteredBuses
      ensures Valid()
    {
      filteredBuses := FilterBuses(buses, searchQuery);
    }

    /**
     * A new snapshot of the collection: the list is rebuilt, shown
     * unfiltered, and the filter effect then narrows it again.
     */
    method OnSnapshot(snapshot: seq<BusDocument>)
      modifies this
      ensures Valid()
      ensures |buses| == |snapshot| && forall i :: 0 <= i < |snapshot| ==> buses[i] == ToBus(snapshot[i])
      ensures searchQuery == old(searchQuery) && !loading
    {
      var busList := BuildBusList(snapshot);
      buses := busList;
      filteredBuses := busList;
      loading := false;
      RunFilterEffect();
    }

    /** Typing in the search box. */
    method SetSearchQuery(text: string)
      modifies this
      ensures Valid()
      ensures searchQuery == text && buses == old(buses) && loading == old(loading)
    {
      searchQuery := text;
      RunFilterEffect();
    }
  }
}
