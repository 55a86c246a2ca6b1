/** The map page's state: the markers of the year on display, the set of
    converted plants and the running CO2 total. Fetching the year's JSON
    file is left to the caller, who passes the parsed records (or `None`
    when the fetch failed) to `LoadYear`. */
module PlantLedger {

  import opened Options
  import opened PlantMap

  /** A coordinate as the JSON record holds it. */
  datatype Coord = Missing | NotANumber | Num(value: real)

  /** `!x || isNaN(x)` rejects an absent or null value, NaN, and zero. */
  predicate UsableCoord(c: Coord)
  {
    c.Num? && c.value != 0.0
  }

  datatype Plant = Plant(id: nat, name: string, plantType: Option<string>, lat: Coord, lng: Coord, state: string)

  predicate HasValidCoords(p: Plant)
  {
    UsableCoord(p.lat) && UsableCoord(p.lng)
  }

  /** A circle marker: the plant it stands for, the category shown in its
      popup and its fill colour. */
  datatype Marker = Marker(id: nat, category: string, fillColor: string)

  /** The marker's popup category is a legend category, and it is green
      exactly when the plant is converted. */
  function MarkerFor(p: Plant, converted: set<nat>): (m: Marker)
    ensures m.id == p.id && m.category in CategoryNames
    ensures m.fillColor == ConvertedColor <==> p.id in converted
  {
    Marker(p.id, CategoryOf(p.plantType), FillColor(p.plantType, p.id in converted))
  }

  /** The markers drawn for a year's records, in record order: one per
      record with usable coordinates. */
  function MarkersFor(data: seq<Plant>, converted: set<nat>): (r: seq<Marker>)
    ensures |r| <= |data|
  {
    if data == [] then []
    else
      var last := data[|data| - 1];
      MarkersFor(data[..|data| - 1], converted) + (if HasValidCoords(last) then [MarkerFor(last, converted)] else [])
  }

  function ValidCount(data: seq<Plant>): nat
  {
    if data == [] then 0
    else ValidCount(data[..|data| - 1]) + (if HasValidCoords(data[|data| - 1]) then 1 else 0)
  }

  /** Exactly the records with usable coordinates get a marker. */
  lemma {:induction false} MarkersForCount(data: seq<Plant>, converted: set<nat>)
    ensures |MarkersFor(data, converted)| == ValidCount(data)
  {
    if data != [] {
      MarkersForCount(data[..|data| - 1], converted);
    }
  }

  /** Every record gets a marker exactly when every record has usable coordinates. */
  lemma {:induction false} AllDrawnIff(data: seq<Plant>)
    ensures ValidCount(data) <= |data|
    ensures ValidCount(data) == |data| <==> forall i :: 0 <= i < |data| ==> HasValidCoords(data[i])
  {
    if data != [] {
      var front := data[..|data| - 1];
      AllDrawnIff(front);
      if ValidCount(data) == |data| {
        forall i | 0 <= i < |data| ensures HasValidCoords(data[i]) {
          if i < |front| {
            assert front[i] == data[i];
          }
        }
      }
      if forall i :: 0 <= i < |data| ==> HasValidCoords(data[i]) {
        forall i | 0 <= i < |front| ensures HasValidCoords(front[i]) {
          assert front[i] == data[i];
        }
      }
    }
  }

  /** Every marker stands for a record with usable coordinates, shows that
      record's category, and is green exactly when that plant is converted. */
  lemma {:induction false} MarkersForSound(data: seq<Plant>, converted: set<nat>)
    ensures forall m :: m in MarkersFor(data, converted) ==>
              (exists i :: 0 <= i < |data| && HasValidCoords(data[i]) && m == MarkerFor(data[i], converted))
    ensures forall m :: m in MarkersFor(data, converted) ==>
              m.category in CategoryNames && (m.fillColor == ConvertedColor <==> m.id in converted)
  {
    if data != [] {
      var front := data[..|data| - 1];
      MarkersForSound(front, converted);
      forall m | m in MarkersFor(data, converted)
        ensures exists i :: 0 <= i < |data| && HasValidCoords(data[i]) && m == MarkerFor(data[i], converted)
      {
        if m in MarkersFor(front, converted) {
          var i :| 0 <= i < |front| && HasValidCoords(front[i]) && m == MarkerFor(front[i], converted);
          assert front[i] == data[i];
        } else {
          assert HasValidCoords(data[|data| - 1]) && m == MarkerFor(data[|data| - 1], converted);
        }
      }
    }
  }

  // ---------------------------------------------------------------------
  // The legend tally

  /** The number of markers whose popup shows this category. */
  function Count(markers: seq<Marker>, category: string): (n: nat)
    ensures n <= |markers|
  {
    if markers == [] then 0
    else Count(markers[..|markers| - 1], category) + (if markers[|markers| - 1].category == category then 1 else 0)
  }

  lemma {:induction false} CountAbsent(markers: seq<Marker>, category: string)
    requires forall m :: m in markers ==> m.category != category
    ensures Count(markers, category) == 0
  {
    if markers != [] {
      assert forall m :: m in markers[..|markers| - 1] ==> m in markers;
      CountAbsent(markers[..|markers| - 1], category);
    }
  }

  /** One marker more in the tally: its category's count goes up by one,
      starting from zero when the category had no entry. */
  lemma TallyStep(counts: map<string, nat>, keys: set<string>, done: seq<Marker>, m: Marker)
    requires counts.Keys == keys + (set x | x in done :: x.category)
    requires forall c :: c in counts ==> counts[c] == Count(done, c)
    ensures var next := counts[m.category := (if m.category in counts then counts[m.category] else 0) + 1];
            && next.Keys == keys + (set x | x in done + [m] :: x.category)
            && forall c :: c in next ==> next[c] == Count(done + [m], c)
  {
    var all := done + [m];
    assert all[..|all| - 1] == done;
    if m.category !in counts {
      CountAbsent(done, m.category);
    }
    assert (set x | x in all :: x.category) == (set x | x in done :: x.category) + {m.category};
  }

  /** The categoryCounts loop: every colour key starts at zero, and each
      marker adds one under the category its popup shows. */
  method CountCategories(markers: seq<Marker>) returns (counts: map<string, nat>)
    ensures counts.Keys == PlantTypeColors.Keys + (set m | m in markers :: m.category)
    ensures forall c :: c in counts ==> counts[c] == Count(markers, c)
  {
    var keys := PlantTypeColors.Keys;
    counts := map c | c in keys :: 0;
    var i := 0;
    while i < |markers|
      invariant 0 <= i <= |markers|
      invariant counts.Keys == keys + (set m | m in markers[..i] :: m.category)
      invariant forall c :: c in counts ==> counts[c] == Count(markers[..i], c)
    {
      var category := markers[i].category;
      TallyStep(counts, keys, markers[..i], markers[i]);
      assert markers[..i + 1] == markers[..i] + [markers[i]];
      counts := counts[category := (if category in counts then counts[category] else 0) + 1];
      i := i + 1;
    }
    assert markers[..i] == markers;
  }

  /** The tallies of a list of categories, added up. */
  function SumCounts(categories: seq<string>, markers: seq<Marker>): nat
  {
    if categories == [] then 0 else Count(markers, categories[0]) + SumCounts(categories[1..], markers)
  }

  /** How often a category occurs in the list. */
  function Occurrences(categories: seq<string>, c: string): nat
  {
    if categories == [] then 0 else (if categories[0] == c then 1 else 0) + Occurrences(categories[1..], c)
  }

  lemma {:induction false} SumCountsSnoc(categories: seq<string>, markers: seq<Marker>, m: Marker)
    ensures SumCounts(categories, markers + [m]) == SumCounts(categories, markers) + Occurrences(categories, m.category)
  {
    if categories != [] {
      SumCountsSnoc(categories[1..], markers, m);
      assert (markers + [m])[..|markers + [m]| - 1] == markers;
    }
  }

  predicate Distinct(categories: seq<string>)
  {
    forall i, j :: 0 <= i < j < |categories| ==> categories[i] != categories[j]
  }

  lemma {:induction false} OccursOnce(categories: seq<string>, c: string)
    requires Distinct(categories) && c in categories
    ensures Occurrences(categories, c) == 1
  {
    if categories[0] == c {
      NotOccurring(categories[1..], c);
    } else {
      OccursOnce(categories[1..], c);
    }
  }

  lemma {:induction false} NotOccurring(categories: seq<string>, c: string)
    requires c !in categories
    ensures Occurrences(categories, c) == 0
  {
    if categories != [] {
      NotOccurring(categories[1..], c);
    }
  }

  lemma {:induction false} SumCountsEmpty(categories: seq<string>)
    ensures SumCounts(categories, []) == 0
  {
    if categories != [] {
      SumCountsEmpty(categories[1..]);
    }
  }

  /** The legend's entries (every colour key but Converted) add up to the
      number of markers, and the Converted entry of the tally stays zero. */
  lemma {:induction false} TallyMatchesMarkers(markers: seq<Marker>)
    requires forall m :: m in markers ==> m.category in CategoryNames
    ensures SumCounts(CategoryNames, markers) == |markers|
    ensures Count(markers, ConvertedKey) == 0
  {
    if markers == [] {
      SumCountsEmpty(CategoryNames);
    } else {
      var front := markers[..|markers| - 1];
      var m := markers[|markers| - 1];
      assert forall x :: x in front ==> x in markers;
      TallyMatchesMarkers(front);
      assert markers == front + [m];
      SumCountsSnoc(CategoryNames, front, m);
      CategoryNamesDistinct();
      OccursOnce(CategoryNames, m.category);
    }
  }

  /** No category is listed twice in the legend. */
  lemma CategoryNamesDistinct()
    ensures Distinct(CategoryNames)
  {
  }

  // ---------------------------------------------------------------------
  // The conversion ledger

  /** One conversion: the plant and the CO2 factor it was credited with. */
  datatype Credit = Credit(id: nat, factor: nat)

  function CreditIds(credits: seq<Credit>): (ids: set<nat>)
    ensures forall i :: 0 <= i < |credits| ==> credits[i].id in ids
    ensures forall id :: id in ids ==> exists i :: 0 <= i < |credits| && credits[i].id == id
  {
    if credits == [] then {}
    else
      var front := credits[..|credits| - 1];
      var ids := CreditIds(front) + {credits[|credits| - 1].id};
      assert forall i :: 0 <= i < |front| ==> front[i] == credits[i];
      ids
  }

  function CreditTotal(credits: seq<Credit>): nat
  {
    if credits == [] then 0 else CreditTotal(credits[..|credits| - 1]) + credits[|credits| - 1].factor
  }

  predicate IdsDistinct(credits: seq<Credit>)
  {
    forall i, j :: 0 <= i < j < |credits| ==> credits[i].id != credits[j].id
  }

  predicate FactorsInRange(credits: seq<Credit>)
  {
    forall i :: 0 <= i < |credits| ==> DefaultFactor <= credits[i].factor <= CoalFactor
  }

  /** Each converted plant is counted once: between the default and the coal
      factor per converted plant. */
  lemma {:induction false} TotalBounds(credits: seq<Credit>)
    requires IdsDistinct(credits) && FactorsInRange(credits)
    ensures |CreditIds(credits)| == |credits|
    ensures DefaultFactor * |credits| <= CreditTotal(credits) <= CoalFactor * |credits|
  {
    if credits != [] {
      var front := credits[..|credits| - 1];
      var last := credits[|credits| - 1];
      TotalBounds(front);
    }
  }

  class PlantMapView {
    var markers: seq<Marker>
    var totalCO2Saved: nat
    var convertedPlants: set<nat>
    /** The conversions in click order, for the proofs. */
    ghost var credits: seq<Credit>

    /** The converted set is exactly the credited plants, each credited
        once with its category's factor, and the total is their sum. */
    ghost predicate Valid()
      reads this
    {
      && IdsDistinct(credits)
      && FactorsInRange(credits)
      && convertedPlants == CreditIds(credits)
      && totalCO2Saved == CreditTotal(credits)
    }

    /** The page before the first year is loaded. */
    constructor ()
      ensures Valid()
      ensures markers == [] && totalCO2Saved == 0 && convertedPlants == {}
    {
      markers := [];
      totalCO2Saved := 0;
      convertedPlants := {};
      credits := [];
    }

    /** A click on marker `k`: the first click on a plant converts it,
        paints its marker green and credits its category's factor; later
        clicks change nothing. */
    method Click(k: nat)
      requires Valid() && k < |markers|
      modifies this
      ensures Valid()
      ensures |markers| == old(|markers|) && markers[k].id in convertedPlants
      ensures old(markers[k].id) in old(convertedPlants) ==>
                markers == old(markers) && convertedPlants == old(convertedPlants)
                && totalCO2Saved == old(totalCO2Saved) && credits == old(credits)
      ensures old(markers[k].id) !in old(convertedPlants) ==>
                && markers == old(markers)[k := old(markers[k]).(fillColor := ConvertedColor)]
                && convertedPlants == old(convertedPlants) + {old(markers[k].id)}
                && totalCO2Saved == old(totalCO2Saved) + Co2Factor(old(markers[k].category))
                && credits == old(credits) + [Credit(old(markers[k].id), Co2Factor(old(markers[k].category)))]
    {
      var marker := markers[k];
      if marker.id !in convertedPlants {
        convertedPlants := convertedPlants + {marker.id};
        markers := markers[k := marker.(fillColor := PlantTypeColors[ConvertedKey])];
        var factor := Co2Factor(marker.category);
        totalCO2Saved := totalCO2Saved + factor;
        credits := credits + [Credit(marker.id, factor)];
        assert credits[..|credits| - 1] == old(credits);
        forall i | 0 <= i < |old(credits)|
          ensures credits[i].id != marker.id
        {
          assert credits[i] in old(credits);
        }
      }
    }

    /** Shows a year: the old markers go, the total is reset when nothing
        has been converted, and once the records arrive every record with
        usable coordinates gets a marker, whose counts feed the legend.
        `None` is a failed fetch, which leaves the map empty. */
    method LoadYear(data: Option<seq<Plant>>) returns (counts: Option<map<string, nat>>)
      requires Valid()
      modifies this
      ensures Valid()
      ensures convertedPlants == old(convertedPlants) && credits == old(credits)
      ensures totalCO2Saved == if old(convertedPlants) == {} then 0 else old(totalCO2Saved)
      ensures totalCO2Saved == old(totalCO2Saved)
      ensures data.None? ==> markers == [] && counts.None?
      ensures data.Some? ==> markers == MarkersFor(data.value, convertedPlants)
      ensures data.Some? ==> counts.Some?
                             && counts.value.Keys == PlantTypeColors.Keys + (set m | m in markers :: m.category)
                             && forall c :: c in counts.value ==> counts.value[c] == Count(markers, c)
    {
      markers := [];
      if |convertedPlants| == 0 {
        totalCO2Saved := 0;
      }
      if data.None? {
        return None;
      }
      AddMarkers(data.value);
      var tally := CountCategories(markers);
      return Some(tally);
    }

    /** The fetch callback's loop: a marker for each record with usable
        coordinates, pushed onto the markers already on the map. */
    method AddMarkers(plants: seq<Plant>)
      requires Valid()
      modifies this
      ensures Valid()
      ensures markers == old(markers) + MarkersFor(plants, convertedPlants)
      ensures convertedPlants == old(convertedPlants) && credits == old(credits)
      ensures totalCO2Saved == old(totalCO2Saved)
    {
      var i := 0;
      while i < |plants|
        invariant 0 <= i <= |plants|
        invariant markers == old(markers) + MarkersFor(plants[..i], convertedPlants)
        invariant convertedPlants == old(convertedPlants) && credits == old(credits)
        invariant totalCO2Saved == old(totalCO2Saved)
      {
        var plant := plants[i];
        assert plants[..i + 1][..i] == plants[..i];
        if HasValidCoords(plant) {
          var category := GetCategory(plant.plantType);
          var color := GetColor(plant.plantType, plant.id in convertedPlants);
          markers := markers + [Marker(plant.id, category, color)];
        }
        i := i + 1;
      }
      assert plants[..i] == plants;
    }
  }
}
