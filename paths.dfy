/** `pathlib` name handling: `Path(p).name`, `.suffix`, `.stem` and `/` joining. */
module PathNames {
  import opened Base
  import opened Text

  /** `Path(p).name`: the text after the last slash. */
  function BaseName(p: string): (r: string)
    ensures !Contains(r, "/")
    ensures EndsWith(p, r)
  {
    match FindLast(p, "/")
    case None => p
    case Some(i) => RSplitOnce(p, "/")[1]
  }

  /** Index of the dot that starts the suffix, per pathlib: not at the start and not at the end. */
  function SuffixDot(name: string): (r: Option<nat>)
    ensures r.Some? ==> 0 < r.value < |name| - 1 && name[r.value] == '.'
    ensures r.Some? ==> forall j :: r.value < j < |name| ==> name[j] != '.'
  {
    match FindLast(name, ".")
    case Some(i) =>
      if 0 < i < |name| - 1 then
        assert name[i..i + 1] == ".";
        assert forall j :: i < j < |name| ==> name[j] != '.' by {
          forall j | i < j < |name| ensures name[j] != '.' {
            assert !OccursAt(name, ".", j);
            assert name[j..j + 1] == [name[j]];
          }
        }
        Some(i)
      else None
    case None => None
  }

  /** `Path(name).suffix` */
  function Suffix(name: string): (r: string)
    ensures |r| > 0 ==> r[0] == '.' && |r| >= 2 && EndsWith(name, r)
    ensures forall j :: 0 < j < |r| ==> r[j] != '.'
  {
    match SuffixDot(name)
    case Some(i) => name[i..]
    case None => ""
  }

  /** `Path(name).stem` */
  function Stem(name: string): (r: string)
  {
    match SuffixDot(name)
    case Some(i) => name[..i]
    case None => name
  }

  /** A name is its stem followed by its suffix. */
  lemma StemSuffix(name: string)
    ensures Stem(name) + Suffix(name) == name
  {
  }

  /** A name made of a non-empty stem and a dotted extension splits back into those two parts. */
  lemma SuffixSplit(stem: string, ext: string)
    requires |stem| > 0 && |ext| >= 2 && ext[0] == '.'
    requires forall j :: 0 < j < |ext| ==> ext[j] != '.'
    ensures Suffix(stem + ext) == ext && Stem(stem + ext) == stem
  {
    var name := stem + ext;
    assert name[|stem|..|stem| + 1] == ".";
    assert OccursAt(name, ".", |stem|);
    assert forall j :: |stem| < j < |name| ==> !OccursAt(name, ".", j) by {
      forall j | |stem| < j < |name| ensures !OccursAt(name, ".", j) {
        assert name[j..j + 1] == [ext[j - |stem|]];
      }
    }
  }

  /** `Path(dir) / name`, for names without slashes. */
  function JoinPath(dir: string, name: string): (r: string)
    ensures EndsWith(r, "/" + name)
  {
    dir + "/" + name
  }

  /** `str(Path(p).parent)`: the text before the last slash, `/` for a top-level path, `.` without a slash. */
  function Parent(p: string): (r: string)
  {
    var parts := RSplitOnce(p, "/");
    if |parts| == 1 then "." else if parts[0] == "" then "/" else parts[0]
  }

  /** The parent of `dir / name` is `dir`. */
  lemma ParentJoin(dir: string, name: string)
    requires dir != "" && '/' !in name
    ensures Parent(JoinPath(dir, name)) == dir
  {
    RSplitOnceTail(dir, '/', name);
  }
}
