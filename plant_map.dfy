/** The power-plant map's classifier: the category table, its reverse
    lookup, the substring fallback, the marker colours and the CO2 factor
    credited when a plant is converted. Plant types are the JSON `type`
    field: absent or null is `None`. */
module PlantMap {

  import opened Options

  /** One entry of the category table: a category and the plant types listed under it. */
  datatype CategoryEntry = CategoryEntry(name: string, types: seq<string>)

  const OtherCategory: string := "Other"
  const ConvertedKey: string := "Converted"

  /** The category table in declaration order (the order its entries are enumerated in). */
  const TypeCategories: seq<CategoryEntry> := [
    CategoryEntry("Coal", ["Conventional Steam Coal"]),
    CategoryEntry("Natural Gas", ["Natural Gas Fired Combined Cycle", "Natural Gas Fired Combustion Turbine",
                                  "Natural Gas Steam Turbine"]),
    CategoryEntry("Nuclear", ["Nuclear"]),
    CategoryEntry("Hydro", ["Conventional Hydroelectric"]),
    CategoryEntry("Oil", ["Petroleum Liquids"]),
    CategoryEntry("Wind", ["Wind"]),
    CategoryEntry("Solar", ["Solar Photovoltaic", "Solar Thermal"]),
    CategoryEntry(OtherCategory, [])
  ]

  /** The legend's category names. */
  const CategoryNames: seq<string> := ["Coal", "Natural Gas", "Nuclear", "Hydro", "Oil", "Wind", "Solar", OtherCategory]

  /** The legend lists the table's entries, in table order. */
  lemma CategoryNamesFollowTable()
    ensures |CategoryNames| == |TypeCategories|
    ensures forall i :: 0 <= i < |TypeCategories| ==> CategoryNames[i] == TypeCategories[i].name
  {
  }

  // ---------------------------------------------------------------------
  // The reverse table

  /** `types.forEach(type => table[type] = name)`: every listed type now
      maps to `name`, every other key keeps its value. */
  function AssignAll(table: map<string, string>, name: string, types: seq<string>): (r: map<string, string>)
    ensures r.Keys == table.Keys + set t | t in types
    ensures forall t :: t in types ==> r[t] == name
    ensures forall t :: t in table && t !in types ==> r[t] == table[t]
  {
    if types == [] then table
    else AssignAll(table, name, types[..|types| - 1])[types[|types| - 1] := name]
  }

  /** The reverse table after the first `|entries|` entries have been
      folded in, one `AssignAll` per entry, in order. */
  function ReverseTable(entries: seq<CategoryEntry>): (r: map<string, string>)
    ensures entries != [] ==>
              forall t :: t in entries[|entries| - 1].types ==> t in r && r[t] == entries[|entries| - 1].name
  {
    if entries == [] then map[]
    else AssignAll(ReverseTable(entries[..|entries| - 1]), entries[|entries| - 1].name, entries[|entries| - 1].types)
  }

  /** The type is listed under some entry. */
  predicate Declared(entries: seq<CategoryEntry>, t: string)
  {
    exists i :: 0 <= i < |entries| && t in entries[i].types
  }

  /** A type is a key of the reverse table exactly when some entry lists
      it, and it maps to the LAST entry that lists it (a later entry
      overwrites an earlier one). */
  lemma {:induction false} ReverseTableLookup(entries: seq<CategoryEntry>, t: string)
    ensures t in ReverseTable(entries) <==> Declared(entries, t)
    ensures forall i :: 0 <= i < |entries| && t in entries[i].types
                        && (forall j :: i < j < |entries| ==> t !in entries[j].types)
                        ==> t in ReverseTable(entries) && ReverseTable(entries)[t] == entries[i].name
  {
    if entries != [] {
      var n := |entries| - 1;
      var front := entries[..n];
      ReverseTableLookup(front, t);
      if Declared(entries, t) && t !in entries[n].types {
        var i :| 0 <= i < |entries| && t in entries[i].types;
        assert front[i] == entries[i];
      }
      if Declared(front, t) {
        var i :| 0 <= i < |front| && t in front[i].types;
        assert entries[i] == front[i];
      }
      forall i | 0 <= i < |entries| && t in entries[i].types
                 && (forall j :: i < j < |entries| ==> t !in entries[j].types)
        ensures t in ReverseTable(entries) && ReverseTable(entries)[t] == entries[i].name
      {
        if i < n {
          assert front[i] == entries[i];
          assert t !in entries[n].types;
          forall j | i < j < |front|
            ensures t !in front[j].types
          {
            assert front[j] == entries[j];
          }
        }
      }
    }
  }

  /** The script's one-time construction of the reverse table: the nested
      forEach over the entries and their types. */
  method BuildTypeToCategory(entries: seq<CategoryEntry>) returns (table: map<string, string>)
    ensures table == ReverseTable(entries)
  {
    table := map[];
    var i := 0;
    while i < |entries|
      invariant 0 <= i <= |entries|
      invariant table == ReverseTable(entries[..i])
    {
      var entry := entries[i];
      var before := table;
      var j := 0;
      while j < |entry.types|
        invariant 0 <= j <= |entry.types|
        invariant table == AssignAll(before, entry.name, entry.types[..j])
      {
        assert entry.types[..j + 1][..j] == entry.types[..j];
        table := table[entry.types[j] := entry.name];
        j := j + 1;
      }
      assert entry.types[..j] == entry.types;
      assert entries[..i + 1][..i] == entries[..i];
      i := i + 1;
    }
    assert entries[..i] == entries;
  }

  const TypeToCategory: map<string, string> := ReverseTable(TypeCategories)

  /** Every value of the reverse table is the name of some entry. */
  lemma {:induction false} ReverseTableValues(entries: seq<CategoryEntry>)
    ensures forall t :: t in ReverseTable(entries) ==>
              exists i :: 0 <= i < |entries| && ReverseTable(entries)[t] == entries[i].name
  {
    if entries != [] {
      var n := |entries| - 1;
      var front := entries[..n];
      ReverseTableValues(front);
      forall t | t in ReverseTable(entries)
        ensures exists i :: 0 <= i < |entries| && ReverseTable(entries)[t] == entries[i].name
      {
        if t !in entries[n].types {
          var i :| 0 <= i < |front| && ReverseTable(front)[t] == front[i].name;
          assert entries[i] == front[i];
        }
      }
    }
  }

  /** No type is listed under two entries. */
  predicate TypesDisjoint(entries: seq<CategoryEntry>)
  {
    forall i, j :: 0 <= i < j < |entries| ==> forall t :: t in entries[i].types ==> t !in entries[j].types
  }

  lemma CategoryTableDisjoint()
    ensures TypesDisjoint(TypeCategories)
  {
    EarlyEntriesDisjoint();
    LateEntriesDisjoint();
  }

  lemma EarlyEntriesDisjoint()
    ensures forall i, j, t :: 0 <= i < 3 && i < j < |TypeCategories| && t in TypeCategories[i].types ==> t !in TypeCategories[j].types
  {
    var e := TypeCategories;
    assert forall j, t :: 0 < j < |e| && t in e[0].types ==> t !in e[j].types;
    assert forall j, t :: 1 < j < |e| && t in e[1].types ==> t !in e[j].types;
    assert forall j, t :: 2 < j < |e| && t in e[2].types ==> t !in e[j].types;
  }

  lemma LateEntriesDisjoint()
    ensures forall i, j, t :: 3 <= i < j < |TypeCategories| && t in TypeCategories[i].types ==> t !in TypeCategories[j].types
  {
    var e := TypeCategories;
    assert forall j, t :: 3 < j < |e| && t in e[3].types ==> t !in e[j].types;
    assert forall j, t :: 4 < j < |e| && t in e[4].types ==> t !in e[j].types;
    assert forall j, t :: 5 < j < |e| && t in e[5].types ==> t !in e[j].types;
    assert forall j, t :: 6 < j < |e| && t in e[6].types ==> t !in e[j].types;
  }

  // ---------------------------------------------------------------------
  // Case-insensitive substring match

  /** `toLowerCase` on the ASCII letters. */
  function LowerChar(c: char): (r: char)
    ensures 'A' <= c <= 'Z' ==> r as int == c as int + 32
    ensures !('A' <= c <= 'Z') ==> r == c
  {
    if 'A' <= c <= 'Z' then (c as int + 32) as char else c
  }

  function Lower(s: string): (r: string)
    ensures |r| == |s|
    ensures forall i :: 0 <= i < |s| ==> r[i] == LowerChar(s[i])
  {
    if s == [] then [] else [LowerChar(s[0])] + Lower(s[1..])
  }

  /** `s.includes(sub)`, scanning the start positions from the left. */
  function Contains(s: string, sub: string): (r: bool)
    ensures sub == [] ==> r
    ensures r ==> |sub| <= |s|
  {
    if |sub| <= |s| && s[..|sub|] == sub then true
    else if s == [] then false
    else Contains(s[1..], sub)
  }

  /** `sub` occurs in `s` starting at position `i`. */
  predicate MatchesAt(s: string, sub: string, i: int)
  {
    0 <= i && i + |sub| <= |s| && s[i..i + |sub|] == sub
  }

  /** Matching past the first character is matching in the tail. */
  lemma MatchesInTail(s: string, sub: string, i: int)
    requires s != [] && 1 <= i
    ensures MatchesAt(s, sub, i) <==> MatchesAt(s[1..], sub, i - 1)
  {
    if i + |sub| <= |s| {
      assert s[1..][i - 1..i - 1 + |sub|] == s[i..i + |sub|];
    }
  }

  /** The scan agrees with the definition of a substring. */
  lemma {:induction false} ContainsIff(s: string, sub: string)
    ensures Contains(s, sub) <==> exists i :: MatchesAt(s, sub, i)
  {
    if |sub| <= |s| && s[..|sub|] == sub {
      assert MatchesAt(s, sub, 0);
    } else if s == [] {
      assert forall i :: !MatchesAt(s, sub, i);
    } else {
      assert !MatchesAt(s, sub, 0) by {
        if |sub| <= |s| {
          assert s[0..|sub|] == s[..|sub|];
        }
      }
      ContainsIff(s[1..], sub);
      if exists i :: MatchesAt(s, sub, i) {
        var i :| MatchesAt(s, sub, i);
        MatchesInTail(s, sub, i);
      }
      if Contains(s[1..], sub) {
        var i :| MatchesAt(s[1..], sub, i);
        MatchesInTail(s, sub, i + 1);
      }
    }
  }

  /** The first entry, in table order, whose lower-case name occurs in the
      lower-case type; `Other` when none does. */
  function FirstContained(lowerType: string, entries: seq<CategoryEntry>): (r: string)
    ensures r == OtherCategory || exists i :: 0 <= i < |entries| && r == entries[i].name
    ensures forall i :: 0 <= i < |entries| && Contains(lowerType, Lower(entries[i].name)) ==>
              exists j :: 0 <= j <= i && r == entries[j].name && Contains(lowerType, Lower(entries[j].name))
    ensures (forall i :: 0 <= i < |entries| ==> !Contains(lowerType, Lower(entries[i].name))) ==> r == OtherCategory
  {
    if entries == [] then OtherCategory
    else if Contains(lowerType, Lower(entries[0].name)) then entries[0].name
    else
      var r := FirstContained(lowerType, entries[1..]);
      assert forall i :: 1 <= i < |entries| ==> entries[i] == entries[1..][i - 1];
      NoMatchInTail(lowerType, entries);
      r
  }

  /** No match in the entries means no match in their tail. */
  lemma NoMatchInTail(lowerType: string, entries: seq<CategoryEntry>)
    requires entries != []
    ensures (forall i :: 0 <= i < |entries| ==> !Contains(lowerType, Lower(entries[i].name)))
            ==> forall i :: 0 <= i < |entries| - 1 ==> !Contains(lowerType, Lower(entries[1..][i].name))
  {
    if forall i :: 0 <= i < |entries| ==> !Contains(lowerType, Lower(entries[i].name)) {
      forall i | 0 <= i < |entries| - 1
        ensures !Contains(lowerType, Lower(entries[1..][i].name))
      {
        assert entries[1..][i] == entries[i + 1];
      }
    }
  }

  // ---------------------------------------------------------------------
  // getCategory

  /** Absent, empty, "NaN" and "null" types are `Other` outright. */
  predicate Blank(t: Option<string>)
  {
    t.None? || t.value == "" || t.value == "NaN" || t.value == "null"
  }

  lemma NamesAreCategories(c: string)
    requires c == OtherCategory || exists i :: 0 <= i < |TypeCategories| && c == TypeCategories[i].name
    ensures c in CategoryNames && c != ConvertedKey
  {
  }

  /** What getCategory means: a blank type is Other; a listed type gets the
      category it is listed under; any other type gets the first category
      whose name it contains, ignoring case; failing that, Other. */
  function CategoryOf(t: Option<string>): (c: string)
    ensures c in CategoryNames && c != ConvertedKey
    ensures Blank(t) ==> c == OtherCategory
  {
    if Blank(t) then OtherCategory
    else if t.value in TypeToCategory then
      ReverseTableValues(TypeCategories);
      NamesAreCategories(TypeToCategory[t.value]);
      TypeToCategory[t.value]
    else
      var c := FirstContained(Lower(t.value), TypeCategories);
      NamesAreCategories(c);
      c
  }

  /** Every listed type is at least four characters long and capitalised,
      so none of them is blank. */
  lemma ListedTypesCapitalised()
    ensures forall i, k :: 0 <= i < |TypeCategories| && 0 <= k < |TypeCategories[i].types| ==>
              |TypeCategories[i].types[k]| >= 4 && 'A' <= TypeCategories[i].types[k][0] <= 'Z'
  {
  }

  /** Every listed type is classified under the entry that lists it. */
  lemma DeclaredTypeCategory(i: nat, k: nat)
    requires i < |TypeCategories| && k < |TypeCategories[i].types|
    ensures CategoryOf(Some(TypeCategories[i].types[k])) == TypeCategories[i].name
  {
    var t := TypeCategories[i].types[k];
    CategoryTableDisjoint();
    ReverseTableLookup(TypeCategories, t);
    assert t in TypeToCategory && TypeToCategory[t] == TypeCategories[i].name;
    ListedTypesCapitalised();
    assert t != "null" by { assert t[0] != "null"[0]; }
  }

  /** An unlisted, non-blank type that names a category, in any case,
      falls into the first such category. */
  lemma {:induction false} UnlistedTypeCategory(t: string, i: nat)
    requires !Blank(Some(t)) && t !in TypeToCategory
    requires i < |TypeCategories| && Contains(Lower(t), Lower(TypeCategories[i].name))
    requires forall j :: 0 <= j < i ==> !Contains(Lower(t), Lower(TypeCategories[j].name))
    ensures CategoryOf(Some(t)) == TypeCategories[i].name
  {
    var c := CategoryOf(Some(t));
    var j :| 0 <= j <= i && c == TypeCategories[j].name && Contains(Lower(t), Lower(TypeCategories[j].name));
    assert j == i;
  }

  /** An unlisted, non-blank type that contains no category name, in any
      case, is Other. */
  lemma UnmatchedTypeIsOther(t: string)
    requires !Blank(Some(t)) && t !in TypeToCategory
    requires forall i :: 0 <= i < |TypeCategories| ==> !Contains(Lower(t), Lower(TypeCategories[i].name))
    ensures CategoryOf(Some(t)) == OtherCategory
  {
  }

  /** The classifier as the script runs it: guard, table lookup, then the
      scan over the entries with an early return. */
  method GetCategory(t: Option<string>) returns (c: string)
    ensures c == CategoryOf(t)
  {
    if t.None? || t.value == "" || t.value == "NaN" || t.value == "null" {
      return OtherCategory;
    }
    var s := t.value;
    if s in TypeToCategory {
      return TypeToCategory[s];
    }
    c := ScanEntries(Lower(s), TypeCategories);
  }

  /** The scan over the entries, returning at the first contained name. */
  method ScanEntries(lowerType: string, entries: seq<CategoryEntry>) returns (c: string)
    ensures c == FirstContained(lowerType, entries)
  {
    var i := 0;
    while i < |entries|
      invariant 0 <= i <= |entries|
      invariant FirstContained(lowerType, entries) == FirstContained(lowerType, entries[i..])
    {
      var entry := entries[i];
      if Contains(lowerType, Lower(entry.name)) {
        return entry.name;
      }
      assert entries[i..][1..] == entries[i + 1..];
      i := i + 1;
    }
    return OtherCategory;
  }

  // ---------------------------------------------------------------------
  // Colours

  const ConvertedColor: string := "#008000"
  const OtherColor: string := "#808080"

  const PlantTypeColors: map<string, string> := map[
    "Coal" := "#000000",
    "Natural Gas" := "#FFA500",
    "Nuclear" := "#800080",
    "Hydro" := "#0000FF",
    "Oil" := "#8B4513",
    "Wind" := "#90EE90",
    "Solar" := "#FFFF00",
    OtherCategory := OtherColor,
    ConvertedKey := ConvertedColor]

  /** The legend's keys: every category, and Converted. */
  lemma ColorKeys()
    ensures PlantTypeColors.Keys == (set c | c in CategoryNames) + {ConvertedKey}
  {
  }

  /** Distinct categories are drawn in distinct colours, none of them the converted green. */
  lemma ColorsDistinguishCategories(a: string, b: string)
    requires a in CategoryNames && b in CategoryNames && a != b
    ensures PlantTypeColors[a] != PlantTypeColors[b]
    ensures PlantTypeColors[a] != ConvertedColor
  {
  }

  /** Every category has its own colour in the table, never the converted green. */
  lemma CategoryHasColor(c: string)
    requires c in CategoryNames
    ensures c in PlantTypeColors && PlantTypeColors[c] != ConvertedColor
  {
  }

  /** A marker's fill: the converted green, or the colour of its category.
      The category is always a colour key, so the Other fallback never applies. */
  function FillColor(t: Option<string>, converted: bool): (color: string)
    ensures converted ==> color == ConvertedColor
    ensures !converted ==> CategoryOf(t) in PlantTypeColors && color == PlantTypeColors[CategoryOf(t)]
    ensures color == ConvertedColor <==> converted
  {
    if converted then ConvertedColor
    else
      var category := CategoryOf(t);
      CategoryHasColor(category);
      if category in PlantTypeColors then PlantTypeColors[category] else OtherColor
  }

  method GetColor(t: Option<string>, converted: bool) returns (color: string)
    ensures color == FillColor(t, converted)
  {
    if converted {
      return PlantTypeColors[ConvertedKey];
    }
    var category := GetCategory(t);
    if category in PlantTypeColors {
      color := PlantTypeColors[category];
    } else {
      color := OtherColor;
    }
  }

  // ---------------------------------------------------------------------
  // CO2 credited for a conversion (tons)

  const CoalFactor: nat := 2_000_000
  const GasFactor: nat := 1_000_000
  const OilFactor: nat := 1_500_000
  const DefaultFactor: nat := 500_000

  /** The factor switch of the click handler. Fossil categories earn more
      than the default; every factor is positive. */
  function Co2Factor(category: string): (f: nat)
    ensures DefaultFactor <= f <= CoalFactor
    ensures category == "Coal" ==> f == CoalFactor
    ensures category == "Natural Gas" ==> f == GasFactor
    ensures category == "Oil" ==> f == OilFactor
    ensures f == DefaultFactor <==> category != "Coal" && category != "Natural Gas" && category != "Oil"
  {
    match category
    case "Coal" => CoalFactor
    case "Natural Gas" => GasFactor
    case "Oil" => OilFactor
    case _ => DefaultFactor
  }

  // ---------------------------------------------------------------------
  // The lookup as written

  /** Property names every plain object inherits. */
  const InheritedNames: set<string> := {
    "constructor", "toString", "toLocaleString", "valueOf", "hasOwnProperty",
    "isPrototypeOf", "propertyIsEnumerable", "__proto__",
    "__defineGetter__", "__defineSetter__", "__lookupGetter__", "__lookupSetter__"}

  /** What getCategory can return: a category name, or an inherited member. */
  datatype LookupResult = Name(name: string) | InheritedMember(member: string)

  /** getCategory as written: the reverse table is a plain object, so the
      lookup also finds the inherited members, which are truthy. */
  function CategoryAsWritten(t: Option<string>): (r: LookupResult)
    ensures r.Name? ==> r.name in CategoryNames
    ensures r.InheritedMember? ==> r.member in InheritedNames && r.member !in CategoryNames
  {
    if Blank(t) then Name(OtherCategory)
    else if t.value in TypeToCategory then
      ReverseTableValues(TypeCategories);
      NamesAreCategories(TypeToCategory[t.value]);
      Name(TypeToCategory[t.value])
    else if t.value in InheritedNames then InheritedMember(t.value)
    else
      var c := FirstContained(Lower(t.value), TypeCategories);
      NamesAreCategories(c);
      Name(c)
  }

  /** A plant whose type is "constructor" is given no category at all:
      it is neither counted under a legend entry nor classified as Other. */
  lemma ConstructorTypeMisclassified()
    ensures CategoryAsWritten(Some("constructor")) == InheritedMember("constructor")
    ensures CategoryOf(Some("constructor")) in CategoryNames
  {
    ListedTypesCapitalised();
    assert !Declared(TypeCategories, "constructor");
    ReverseTableLookup(TypeCategories, "constructor");
  }

  /** Away from the inherited names, the lookup as written is the intended one. */
  lemma AsWrittenAgrees(t: Option<string>)
    requires Blank(t) || t.value !in InheritedNames
    ensures CategoryAsWritten(t) == Name(CategoryOf(t))
  {
  }
}
