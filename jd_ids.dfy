/**
 * The Johnny.Decimal ID format shared by the migration scripts and the rename
 * preview: `AC.ID` with a two-digit ID, and the ID folder `"{id} {descriptor} {year}"`.
 */
module JdIds {
  import opened Text

  /** `f"{cat_num}.{n:02d}"` */
  function JdId(catNum: string, n: nat): string
  {
    catNum + "." + Pad2(n)
  }

  /** Within one category number, distinct numbers give distinct IDs. */
  lemma JdIdInjective(catNum: string, m: nat, n: nat)
    requires JdId(catNum, m) == JdId(catNum, n)
    ensures m == n
  {
    var k := |catNum| + 1;
    assert Pad2(m) == JdId(catNum, m)[k..];
    assert Pad2(n) == JdId(catNum, n)[k..];
    Pad2Injective(m, n);
  }

  /** An ID folder's name: `f"{jd_id} {descriptor} {year}"`. */
  function IdFolderName(jdId: string, descriptor: string, year: string): string
  {
    jdId + " " + descriptor + " " + year
  }

  /** The name is the ID, a space, and the rest of the name. */
  lemma IdFolderNameRest(jdId: string, descriptor: string, year: string)
    ensures IdFolderName(jdId, descriptor, year) == jdId + " " + (descriptor + " " + year)
  {
  }
}
