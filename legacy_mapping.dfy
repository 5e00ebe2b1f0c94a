/**
 * The static translation from the pre-Johnny.Decimal folders (category,
 * subcategory) to a Johnny.Decimal (area, category) pair, shared by both
 * migration scripts. Each script carries its own table; the lookup is the same.
 */
module LegacyMapping {
  import opened Base
  import opened Text

  type Pair = (string, string)

  /** `CATEGORY_MAPPING` as its entries in source order; no key occurs twice. */
  type Table = seq<(Pair, Pair)>

  /** The target of every pair the table does not list. */
  const DefaultTarget: Pair := ("50-59 Personal", "54 Memberships")

  /** The first entry whose key is `key`. */
  function Lookup(table: Table, key: Pair): (r: Option<Pair>)
    ensures r.None? <==> forall i :: 0 <= i < |table| ==> table[i].0 != key
    ensures r.Some? ==> exists i :: (0 <= i < |table| && table[i] == (key, r.value) &&
      forall j :: 0 <= j < i ==> table[j].0 != key)
  {
    if |table| == 0 then None
    else if table[0].0 == key then Some(table[0].1)
    else
      var rest := Lookup(table[1..], key);
      if rest.Some? then
        var i :| 0 <= i < |table[1..]| && table[1..][i] == (key, rest.value) &&
          forall j :: 0 <= j < i ==> table[1..][j].0 != key;
        assert table[i + 1] == (key, rest.value);
        rest
      else rest
  }

  /** `get_jd_mapping`: both parts of the key lower-cased, the default on a miss. */
  function JdMapping(table: Table, category: string, subcategory: string): (r: Pair)
  {
    match Lookup(table, (Lower(category), Lower(subcategory)))
    case Some(p) => p
    case None => DefaultTarget
  }

  /** The lookup ignores letter case in its arguments. */
  lemma JdMappingIgnoresCase(table: Table, category: string, subcategory: string)
    ensures JdMapping(table, category, subcategory) == JdMapping(table, Lower(category), Lower(subcategory))
  {
    LowerIdempotent(category);
    LowerIdempotent(subcategory);
  }

  /** A listed pair gets its own target, an unlisted one the default. */
  lemma JdMappingCases(table: Table, category: string, subcategory: string)
    ensures var key := (Lower(category), Lower(subcategory));
      var r := JdMapping(table, category, subcategory);
      ((exists i :: 0 <= i < |table| && table[i].0 == key) ==>
         exists i :: 0 <= i < |table| && table[i] == (key, r)) &&
      ((forall i :: 0 <= i < |table| ==> table[i].0 != key) ==> r == DefaultTarget)
  {
  }

  /** In a table whose keys are lower case and unique, every entry is reached by its own key, in any case. */
  lemma JdMappingOfEntry(table: Table, i: nat, category: string, subcategory: string)
    requires i < |table|
    requires forall j, k :: 0 <= j < k < |table| ==> table[j].0 != table[k].0
    requires Lower(category) == table[i].0.0 && Lower(subcategory) == table[i].0.1
    ensures JdMapping(table, category, subcategory) == table[i].1
  {
    var key := (Lower(category), Lower(subcategory));
    var r := Lookup(table, key);
    assert table[i].0 == key;
    var k :| 0 <= k < |table| && table[k] == (key, r.value) && forall j :: 0 <= j < k ==> table[j].0 != key;
  }
}
