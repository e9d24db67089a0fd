/**
 * The fixed city registry of the component: an object literal from city name to `[lat, lon]`,
 * and the list of selectable names taken from it with `Object.keys`.
 */
module Registry {
  import opened Wrappers
  import opened Geometry

  /** The properties of the `cityCoordinates` object literal, in the order they are written. */
  const Entries: seq<(string, Pair)> := [
    ("Colombo", Pair(6.9271, 79.8612)),
    ("Kandy", Pair(7.2906, 80.6337)),
    ("Galle", Pair(6.0535, 80.2210)),
    ("Jaffna", Pair(9.6615, 80.0255)),
    ("Negombo", Pair(7.2008, 79.8737)),
    ("Anuradhapura", Pair(8.3114, 80.4037)),
    ("Trincomalee", Pair(8.5874, 81.2152)),
    ("Batticaloa", Pair(7.7310, 81.6747)),
    ("Matara", Pair(5.9549, 80.5550)),
    ("Kurunegala", Pair(7.4863, 80.3647)),
    ("Ratnapura", Pair(6.6828, 80.3992)),
    ("Badulla", Pair(6.9934, 81.0550)),
    ("Nuwara Eliya", Pair(6.9497, 80.7891)),
    ("Polonnaruwa", Pair(7.9403, 81.0188)),
    ("Dambulla", Pair(7.8675, 80.6517)),
    ("Hikkaduwa", Pair(6.1395, 80.1063)),
    ("Mirissa", Pair(5.9485, 80.4718)),
    ("Ella", Pair(6.8667, 81.0466)),
    ("Sigiriya", Pair(7.9570, 80.7603)),
    ("Hambantota", Pair(6.1429, 81.1212)),
    ("Chilaw", Pair(7.5758, 79.7953)),
    ("Kalmunai", Pair(7.4167, 81.8167)),
    ("Vavuniya", Pair(8.7514, 80.4971)),
    ("Mannar", Pair(8.9810, 79.9044)),
    ("Ampara", Pair(7.2975, 81.6820))
  ]

  /** The object an object literal evaluates to: a later property with the same name overrides an earlier one. */
  function ObjectLiteral(entries: seq<(string, Pair)>): (m: map<string, Pair>)
    ensures forall k :: k in m <==> (exists i :: 0 <= i < |entries| && entries[i].0 == k)
    ensures entries != [] ==> m[entries[|entries| - 1].0] == entries[|entries| - 1].1
  {
    if entries == [] then map[]
    else
      var last := entries[|entries| - 1];
      var m' := ObjectLiteral(entries[..|entries| - 1]);
      assert forall i :: 0 <= i < |entries| - 1 ==> entries[..|entries| - 1][i] == entries[i];
      m'[last.0 := last.1]
  }

  predicate Distinct(s: seq<string>) {
    forall i, j :: 0 <= i < j < |s| ==> s[i] != s[j]
  }

  /**
   * `Object.keys` of that object, for literals none of whose names is an array index (see
   * `IsIndexLike`): every property name once, in the order of its first definition.  The
   * names are exactly the keys of the map and none is repeated.
   */
  function ObjectKeys(entries: seq<(string, Pair)>): (keys: seq<string>)
    ensures forall k :: k in keys <==> k in ObjectLiteral(entries)
    ensures Distinct(keys)
  {
    if entries == [] then []
    else
      var last := entries[|entries| - 1];
      var keys' := ObjectKeys(entries[..|entries| - 1]);
      assert forall i :: 0 <= i < |entries| - 1 ==> entries[..|entries| - 1][i] == entries[i];
      if last.0 in keys' then keys' else keys' + [last.0]
  }

  /** The property names of a literal as written, repeats included. */
  function PropertyNames(entries: seq<(string, Pair)>): (names: seq<string>)
    ensures |names| == |entries|
    ensures forall i :: 0 <= i < |entries| ==> names[i] == entries[i].0
  {
    if entries == [] then [] else PropertyNames(entries[..|entries| - 1]) + [entries[|entries| - 1].0]
  }

  /**
   * When no name is repeated (and, as for `ObjectKeys`, none is an array index), `Object.keys`
   * lists the names exactly in the order they are written.
   */
  lemma {:induction false} KeysInLiteralOrder(entries: seq<(string, Pair)>)
    requires Distinct(PropertyNames(entries))
    ensures ObjectKeys(entries) == PropertyNames(entries)
  {
    if entries != [] {
      var prefix := entries[..|entries| - 1];
      assert PropertyNames(prefix) == PropertyNames(entries)[..|entries| - 1];
      KeysInLiteralOrder(prefix);
      assert entries[|entries| - 1].0 !in PropertyNames(prefix);
    }
  }

  /** With no name repeated, each key of the object holds the value written beside it. */
  lemma {:induction false} ObjectLiteralAt(entries: seq<(string, Pair)>, i: nat)
    requires Distinct(PropertyNames(entries)) && i < |entries|
    ensures ObjectLiteral(entries)[entries[i].0] == entries[i].1
  {
    var prefix := entries[..|entries| - 1];
    if i < |entries| - 1 {
      assert PropertyNames(prefix) == PropertyNames(entries)[..|entries| - 1];
      assert prefix[i] == entries[i];
      ObjectLiteralAt(prefix, i);
      assert PropertyNames(entries)[i] != PropertyNames(entries)[|entries| - 1];
    }
  }

  /**
   * A name `Object.keys` would list before all others, in numeric order: a non-empty run of
   * decimal digits (a superset of the canonical array indices).
   */
  predicate IsIndexLike(name: string) {
    |name| > 0 && forall k :: 0 <= k < |name| ==> '0' <= name[k] <= '9'
  }

  /** `cityCoordinates`. */
  const CityCoordinates: map<string, Pair> := ObjectLiteral(Entries)

  /** `cities`, initialised as `Object.keys(this.cityCoordinates)`. */
  const Cities: seq<string> := ObjectKeys(Entries)

  /** The 25 city names, in the order the literal writes them. */
  const Names: seq<string> := ["Colombo", "Kandy", "Galle", "Jaffna", "Negombo", "Anuradhapura",
    "Trincomalee", "Batticaloa", "Matara", "Kurunegala", "Ratnapura", "Badulla", "Nuwara Eliya",
    "Polonnaruwa", "Dambulla", "Hikkaduwa", "Mirissa", "Ella", "Sigiriya", "Hambantota", "Chilaw",
    "Kalmunai", "Vavuniya", "Mannar", "Ampara"]

  /** The names the literal writes, in order. */
  lemma RegistryNamesAsWritten()
    ensures PropertyNames(Entries) == Names
  {
    var n := PropertyNames(Entries);
    forall i | 0 <= i < |n| ensures n[i] == Names[i] {
      assert n[i] == Entries[i].0;
    }
  }

  /** The literal writes 25 different names. */
  lemma RegistryNamesDistinct()
    ensures Distinct(Names)
  {
    forall i, j | 0 <= i < j < |Names| ensures Names[i] != Names[j] {
    }
  }

  /** None of the 25 names is an array index, so `Object.keys` keeps them in written order. */
  lemma RegistryNamesNotIndices()
    ensures forall i :: 0 <= i < |Names| ==> !IsIndexLike(Names[i])
  {
    forall i | 0 <= i < |Names| ensures !IsIndexLike(Names[i]) {
      assert !('0' <= Names[i][0] <= '9');
    }
  }

  /** `cities` is the 25 names in the order the literal writes them. */
  lemma CitiesInLiteralOrder()
    ensures Cities == Names && |Cities| == 25
  {
    RegistryNamesAsWritten();
    RegistryNamesDistinct();
    KeysInLiteralOrder(Entries);
  }

  /** The property read `obj[name]`; `None` stands for `undefined`. */
  function Lookup(obj: map<string, Pair>, name: string): Option<Pair> {
    if name in obj then Some(obj[name]) else None
  }

  /**
   * `cityCoordinates[name]` is defined exactly for the listed cities, and for each of them it is
   * the coordinate the literal writes beside that name.
   */
  lemma CoordinatesAsWritten(name: string)
    ensures Lookup(CityCoordinates, name).Some? <==> name in Cities
    ensures forall i :: 0 <= i < |Entries| && Entries[i].0 == name ==> Lookup(CityCoordinates, name) == Some(Entries[i].1)
  {
    RegistryNamesAsWritten();
    RegistryNamesDistinct();
    forall i | 0 <= i < |Entries| && Entries[i].0 == name
      ensures Lookup(CityCoordinates, name) == Some(Entries[i].1)
    {
      ObjectLiteralAt(Entries, i);
    }
  }

  /** Every selectable city resolves to a coordinate, and every key of the registry is selectable. */
  lemma CitiesAreRegistryKeys()
    ensures forall c :: c in Cities <==> c in CityCoordinates
  {
  }

  /** No city is listed twice, so the list is as long as the registry is large. */
  lemma CitiesListedOnce()
    ensures Distinct(Cities)
    ensures |Cities| == |CityCoordinates|
  {
    assert (set c | c in Cities) == CityCoordinates.Keys;
    DistinctCard(Cities);
  }

  lemma {:induction false} DistinctCard(s: seq<string>)
    requires Distinct(s)
    ensures |set c | c in s| == |s|
  {
    if s != [] {
      var t := s[1..];
      assert Distinct(t);
      DistinctCard(t);
      assert (set c | c in s) == (set c | c in t) + {s[0]};
      assert s[0] !in t;
    }
  }
}
