/** The fare matrix: the fare for each origin and destination pair, and the
    distance filter above it. */
module FaresPage {
  import opened Common

  /** One row of the fare matrix; the page prints the distance as "<km> km" and the
      fare as "₱<pesos>". */
  datatype FareRow = FareRow(origin: string, destination: string, distanceKm: nat, farePesos: nat, category: string)

  /** `faresByRoute`: twelve rows, every one short or medium distance. */
  function Fares(): (rows: seq<FareRow>)
    ensures |rows| == 12
    ensures forall r :: r in rows ==> r.category in {"short", "medium"}
  {
    [FareRow("Suarez Terminal", "Mahayahay", 3, 10, "short"),
     FareRow("Suarez Terminal", "Villa Verde", 2, 10, "short"),
     FareRow("Suarez Terminal", "Santiago", 4, 12, "short"),
     FareRow("Suarez Terminal", "Tubod", 5, 15, "short"),
     FareRow("Suarez Terminal", "MSU-IIT", 6, 15, "medium"),
     FareRow("Suarez Terminal", "Poblacion", 7, 18, "medium"),
     FareRow("Suarez Terminal", "Tibanga", 8, 15, "medium"),
     FareRow("Mahayahay", "Tubod", 3, 10, "short"),
     FareRow("Villa Verde", "Poblacion", 5, 12, "short"),
     FareRow("Villa Verde", "MSU-IIT", 4, 12, "short"),
     FareRow("Tubod", "Poblacion", 3, 10, "short"),
     FareRow("MSU-IIT", "Tibanga", 2, 10, "short")]
  }

  // ---------------------------------------------------------------------------
  // The distance filter

  /** The choices of the select box. */
  const FilterOptions: seq<string> := ["all", "short", "medium", "long"]

  /** `filteredFares`: every row for "all", else the rows of that category. */
  function FilterFares(rows: seq<FareRow>, filter: string): (shown: seq<FareRow>)
    ensures forall r :: r in shown <==> r in rows && (filter == "all" || r.category == filter)
    ensures IsSubsequence(shown, rows)
    ensures filter == "all" ==> shown == rows
    ensures shown == [] <==> forall r :: r in rows ==> filter != "all" && r.category != filter
  {
    Filter(rows, (r: FareRow) => filter == "all" || r.category == filter)
  }

  /** Applying the same filter twice changes nothing. */
  lemma FilterFaresIdempotent(rows: seq<FareRow>, filter: string)
    ensures FilterFares(FilterFares(rows, filter), filter) == FilterFares(rows, filter)
  {
    FilterIdempotent(rows, (r: FareRow) => filter == "all" || r.category == filter);
  }

  /** When every row is short or medium, the two filters split the rows between them,
      each row once. */
  lemma ShortAndMediumPartition(rows: seq<FareRow>)
    requires forall r :: r in rows ==> r.category in {"short", "medium"}
    ensures multiset(FilterFares(rows, "short")) + multiset(FilterFares(rows, "medium")) == multiset(rows)
  {
    var isShort := (r: FareRow) => r.category == "short";
    var notShort := (r: FareRow) => r.category != "short";
    FilterExtensional(rows, (r: FareRow) => "short" == "all" || r.category == "short", isShort);
    FilterExtensional(rows, (r: FareRow) => "medium" == "all" || r.category == "medium", notShort);
    FilterPartition(rows, isShort, notShort);
  }

  /** The short and the medium rows together are the whole matrix. */
  lemma ShortAndMediumCoverTable()
    ensures multiset(FilterFares(Fares(), "short")) + multiset(FilterFares(Fares(), "medium")) ==
            multiset(Fares())
  {
    ShortAndMediumPartition(Fares());
  }

  /** The long-distance choice shows an empty table. */
  lemma LongFilterIsEmpty()
    ensures FilterFares(Fares(), "long") == []
  {
    assert "long" !in {"short", "medium"} by {
      assert "long"[0] == 'l' && "short"[0] == 's' && "medium"[0] == 'm';
    }
  }

  /** The page opens on "all": the whole matrix. */
  const InitialFilter: string := "all"

  lemma InitialFilterShowsAll()
    ensures FilterFares(Fares(), InitialFilter) == Fares()
  {
  }
}
