/**
 * Python string operations used by the core, over ASCII: `lower`, `title`, `isdigit`,
 * `isalnum`, `strip`, `split`, `rsplit`, `join`, `replace`, `in`, slicing, and the
 * decimal rendering of integers (`str(n)` and `f"{n:02d}"`).
 */
module Text {
  import opened Base

  predicate IsWhitespace(c: char)
  {
    c == ' ' || ('\t' <= c <= '\r') || ('\U{1C}' <= c <= '\U{1F}')
  }

  predicate IsDigit(c: char) { '0' <= c <= '9' }

  predicate IsUpper(c: char) { 'A' <= c <= 'Z' }

  predicate IsLower(c: char) { 'a' <= c <= 'z' }

  predicate IsLetter(c: char) { IsUpper(c) || IsLower(c) }

  predicate IsAlnum(c: char) { IsLetter(c) || IsDigit(c) }

  /** `s.isdigit()`: non-empty and made of digits only. */
  predicate IsDigits(s: string)
  {
    |s| > 0 && forall i :: 0 <= i < |s| ==> IsDigit(s[i])
  }

  function LowerChar(c: char): (r: char)
    ensures !IsUpper(r)
    ensures IsUpper(c) ==> r as int == c as int + 32
    ensures !IsUpper(c) ==> r == c
  {
    if IsUpper(c) then (c as int + 32) as char else c
  }

  function UpperChar(c: char): (r: char)
    ensures !IsLower(r)
    ensures IsLower(c) ==> r as int == c as int - 32
    ensures !IsLower(c) ==> r == c
  {
    if IsLower(c) then (c as int - 32) as char else c
  }

  /** `s.lower()` */
  function Lower(s: string): (r: string)
    ensures |r| == |s|
    ensures forall i :: 0 <= i < |s| ==> r[i] == LowerChar(s[i])
  {
    seq(|s|, i requires 0 <= i < |s| => LowerChar(s[i]))
  }

  /**
   * `s.title()`: a letter that follows a letter is lower-cased, any other letter is
   * upper-cased (digits and punctuation start a new word, as in Python).
   */
  function Title(s: string): (r: string)
    ensures |r| == |s|
    ensures forall i :: 0 <= i < |s| ==> r[i] == (if i > 0 && IsLetter(s[i - 1]) then LowerChar(s[i]) else UpperChar(s[i]))
  {
    seq(|s|, i requires 0 <= i < |s| => if i > 0 && IsLetter(s[i - 1]) then LowerChar(s[i]) else UpperChar(s[i]))
  }

  /** `s[:n]` for a non-negative `n`. */
  function Take(s: string, n: nat): (r: string)
    ensures |r| == if |s| <= n then |s| else n
    ensures r == s[..|r|]
  {
    if |s| <= n then s else s[..n]
  }

  predicate StartsWith(s: string, p: string)
  {
    |p| <= |s| && s[..|p|] == p
  }

  predicate EndsWith(s: string, p: string)
  {
    |p| <= |s| && s[|s| - |p|..] == p
  }

  predicate OccursAt(s: string, t: string, i: int)
  {
    0 <= i && i + |t| <= |s| && s[i..i + |t|] == t
  }

  /** The first occurrence of `t` in `s` at or after `from` (`s.find(t, from)`). */
  function FindFrom(s: string, t: string, from: nat): (r: Option<nat>)
    ensures r.Some? ==> from <= r.value && OccursAt(s, t, r.value)
    ensures r.Some? ==> forall j :: from <= j < r.value ==> !OccursAt(s, t, j)
    ensures r.None? ==> forall j :: from <= j ==> !OccursAt(s, t, j)
    decreases |s| - from
  {
    if from + |t| > |s| then None
    else if s[from..from + |t|] == t then Some(from)
    else FindFrom(s, t, from + 1)
  }

  /** Python `t in s`. */
  predicate Contains(s: string, t: string)
  {
    FindFrom(s, t, 0).Some?
  }

  lemma ContainsAt(s: string, t: string, i: nat)
    requires OccursAt(s, t, i)
    ensures Contains(s, t)
  {
  }

  /** A string that lacks some character of `t` cannot contain `t`. */
  lemma NotContainsByChar(s: string, t: string, k: nat)
    requires k < |t|
    requires forall i :: 0 <= i < |s| ==> s[i] != t[k]
    ensures !Contains(s, t)
  {
    forall i | 0 <= i && i + |t| <= |s| ensures !OccursAt(s, t, i) {
      assert s[i..i + |t|][k] == s[i + k];
    }
  }

  /** The last occurrence of `t` in `s` (`s.rfind(t)`), searching at or before `upto`. */
  function FindLastUpTo(s: string, t: string, upto: int): (r: Option<nat>)
    ensures r.Some? ==> r.value <= upto && OccursAt(s, t, r.value)
    ensures r.Some? ==> forall j :: r.value < j <= upto ==> !OccursAt(s, t, j)
    ensures r.None? ==> forall j :: j <= upto ==> !OccursAt(s, t, j)
    decreases upto + 1
  {
    if upto < 0 then None
    else if OccursAt(s, t, upto) then Some(upto)
    else FindLastUpTo(s, t, upto - 1)
  }

  function FindLast(s: string, t: string): (r: Option<nat>)
    ensures r.Some? ==> OccursAt(s, t, r.value) && forall j :: r.value < j ==> !OccursAt(s, t, j)
    ensures r.None? ==> forall j :: !OccursAt(s, t, j)
  {
    FindLastUpTo(s, t, |s|)
  }

  /** `sep.join(parts)` */
  function Join(parts: seq<string>, sep: string): string
  {
    if |parts| == 0 then ""
    else if |parts| == 1 then parts[0]
    else parts[0] + sep + Join(parts[1..], sep)
  }

  /** The text before the first occurrence of `t` does not contain `t`. */
  lemma PrefixBeforeFirst(s: string, t: string, i: nat)
    requires |t| > 0 && FindFrom(s, t, 0) == Some(i)
    ensures !Contains(s[..i], t)
  {
    var head := s[..i];
    forall j | 0 <= j && j + |t| <= |head| ensures !OccursAt(head, t, j) {
      assert head[j..j + |t|] == s[j..j + |t|];
      assert !OccursAt(s, t, j);
    }
  }

  /** `s.split(sep)` for a non-empty separator. */
  function Split(s: string, sep: string): (r: seq<string>)
    requires |sep| > 0
    ensures |r| > 0
    ensures forall i :: 0 <= i < |r| ==> !Contains(r[i], sep)
    decreases |s|
  {
    match FindFrom(s, sep, 0)
    case None => [s]
    case Some(i) =>
      var head := s[..i];
      PrefixBeforeFirst(s, sep, i);
      [head] + Split(s[i + |sep|..], sep)
  }

  /** A string that holds the separator splits into at least two parts, the first one ending where the separator starts. */
  lemma SplitFound(s: string, sep: string)
    requires |sep| > 0 && Contains(s, sep)
    ensures |Split(s, sep)| >= 2
    ensures Split(s, sep)[0] == s[..FindFrom(s, sep, 0).value]
    ensures Split(s, sep)[1..] == Split(s[FindFrom(s, sep, 0).value + |sep|..], sep)
  {
  }

  /** Splitting and joining on the same separator gives the string back. */
  lemma {:induction false} JoinSplit(s: string, sep: string)
    requires |sep| > 0
    ensures Join(Split(s, sep), sep) == s
    decreases |s|
  {
    match FindFrom(s, sep, 0)
    case None =>
    case Some(i) =>
      var rest := s[i + |sep|..];
      JoinSplit(rest, sep);
      assert s == s[..i] + sep + rest by {
        assert s[i..i + |sep|] == sep;
      }
  }

  /** `s.split(sep, 1)` */
  function SplitOnce(s: string, sep: string): (r: seq<string>)
    requires |sep| > 0
    ensures 1 <= |r| <= 2
    ensures |r| == 1 <==> !Contains(s, sep)
    ensures |r| == 1 ==> r[0] == s
    ensures |r| == 2 ==> s == r[0] + sep + r[1] && !Contains(r[0], sep)
  {
    match FindFrom(s, sep, 0)
    case None => [s]
    case Some(i) =>
      assert s == s[..i] + sep + s[i + |sep|..] by { assert s[i..i + |sep|] == sep; }
      assert Split(s, sep)[0] == s[..i];
      [s[..i], s[i + |sep|..]]
  }

  /** `s.rsplit(sep, 1)` */
  function RSplitOnce(s: string, sep: string): (r: seq<string>)
    requires |sep| > 0
    ensures 1 <= |r| <= 2
    ensures |r| == 1 <==> !Contains(s, sep)
    ensures |r| == 1 ==> r[0] == s
    ensures |r| == 2 ==> s == r[0] + sep + r[1] && !Contains(r[1], sep)
  {
    match FindLast(s, sep)
    case None =>
      [s]
    case Some(i) =>
      var tail := s[i + |sep|..];
      assert s == s[..i] + sep + tail by { assert s[i..i + |sep|] == sep; }
      assert !Contains(tail, sep) by {
        forall j | 0 <= j && j + |sep| <= |tail| ensures !OccursAt(tail, sep, j) {
          assert s[i + |sep| + j..i + |sep| + j + |sep|] == tail[j..j + |sep|];
          assert !OccursAt(s, sep, i + |sep| + j);
        }
      }
      [s[..i], tail]
  }

  /** `s.replace(pat, rep)` for a non-empty `pat`: every occurrence, left to right. */
  function Replace(s: string, pat: string, rep: string): (r: string)
    requires |pat| > 0
  {
    Join(Split(s, pat), rep)
  }

  /** Replacing a string that does not occur changes nothing. */
  lemma ReplaceAbsent(s: string, pat: string, rep: string)
    requires |pat| > 0 && !Contains(s, pat)
    ensures Replace(s, pat, rep) == s
  {
  }

  function LStrip(s: string): (r: string)
    ensures |r| <= |s| && r == s[|s| - |r|..]
    ensures |r| > 0 ==> !IsWhitespace(r[0])
    ensures forall i :: 0 <= i < |s| - |r| ==> IsWhitespace(s[i])
  {
    if |s| > 0 && IsWhitespace(s[0]) then LStrip(s[1..]) else s
  }

  /** Remove trailing characters that satisfy `drop` (`s.rstrip(chars)`). */
  function RStripBy(s: string, drop: char -> bool): (r: string)
    ensures |r| <= |s| && r == s[..|r|]
    ensures |r| > 0 ==> !drop(r[|r| - 1])
    ensures forall i :: |r| <= i < |s| ==> drop(s[i])
  {
    if |s| > 0 && drop(s[|s| - 1]) then RStripBy(s[..|s| - 1], drop) else s
  }

  function RStrip(s: string): (r: string)
    ensures |r| <= |s| && r == s[..|r|]
    ensures |r| > 0 ==> !IsWhitespace(r[|r| - 1])
  {
    RStripBy(s, IsWhitespace)
  }

  /** `s.strip()` */
  function Strip(s: string): (r: string)
    ensures |r| <= |s|
    ensures |r| > 0 ==> !IsWhitespace(r[0]) && !IsWhitespace(r[|r| - 1])
    ensures (forall i :: 0 <= i < |s| ==> !IsWhitespace(s[i])) ==> r == s
  {
    RStrip(LStrip(s))
  }

  /** A string whose ends are not whitespace is its own strip. */
  lemma StripKeeps(s: string)
    requires |s| > 0 && !IsWhitespace(s[0]) && !IsWhitespace(s[|s| - 1])
    ensures Strip(s) == s
  {
  }

  /** A string with no upper-case letter is its own lower-case form. */
  lemma LowerKeeps(s: string)
    requires forall i :: 0 <= i < |s| ==> !IsUpper(s[i])
    ensures Lower(s) == s
  {
  }

  /** `s.split()`: the maximal runs of non-whitespace characters. */
  function Words(s: string): (r: seq<string>)
    ensures forall i :: 0 <= i < |r| ==> |r[i]| > 0
    decreases |s|
  {
    var t := LStrip(s);
    if |t| == 0 then []
    else
      var w := WordPrefix(t);
      var rest := Words(t[|w|..]);
      NonEmptyCons(w, rest);
      [w] + rest
  }

  lemma NonEmptyCons<T>(w: seq<T>, rest: seq<seq<T>>)
    requires |w| > 0 && forall i :: 0 <= i < |rest| ==> |rest[i]| > 0
    ensures forall i :: 0 <= i < |[w] + rest| ==> |([w] + rest)[i]| > 0
  {
    forall i | 0 <= i < |[w] + rest| ensures |([w] + rest)[i]| > 0 {
      if i > 0 {
        assert ([w] + rest)[i] == rest[i - 1];
      }
    }
  }

  /** The leading run of non-whitespace characters. */
  function WordPrefix(s: string): (r: string)
    requires |s| > 0 && !IsWhitespace(s[0])
    ensures 0 < |r| <= |s| && r == s[..|r|]
    ensures forall i :: 0 <= i < |r| ==> !IsWhitespace(r[i])
    ensures |r| < |s| ==> IsWhitespace(s[|r|])
  {
    if |s| == 1 || IsWhitespace(s[1]) then s[..1] else s[..1] + WordPrefix(s[1..])
  }

  function DigitChar(d: nat): (c: char)
    requires d < 10
    ensures IsDigit(c) && c as int - '0' as int == d
  {
    ('0' as int + d) as char
  }

  /** `str(n)` */
  function NatStr(n: nat): (r: string)
    ensures IsDigits(r)
    ensures n >= 10 ==> |r| >= 2
    decreases n
  {
    if n < 10 then [DigitChar(n)] else NatStr(n / 10) + [DigitChar(n % 10)]
  }

  /** The value of a string of decimal digits (`int(s)`). */
  function DigitsValue(s: string): (v: nat)
    requires forall i :: 0 <= i < |s| ==> IsDigit(s[i])
  {
    if |s| == 0 then 0
    else
      assert IsDigit(s[|s| - 1]);
      DigitsValue(s[..|s| - 1]) * 10 + (s[|s| - 1] as int - '0' as int)
  }

  lemma {:induction false} NatStrValue(n: nat)
    ensures DigitsValue(NatStr(n)) == n
    decreases n
  {
    if n >= 10 {
      var r := NatStr(n);
      NatStrValue(n / 10);
      assert r[..|r| - 1] == NatStr(n / 10);
    }
  }

  lemma NatStrInjective(m: nat, n: nat)
    requires NatStr(m) == NatStr(n)
    ensures m == n
  {
    NatStrValue(m);
    NatStrValue(n);
  }

  /** `f"{n:02d}"`: at least two digits, padded with a leading zero. */
  function Pad2(n: nat): (r: string)
    ensures IsDigits(r) && |r| >= 2
  {
    if n < 10 then ['0'] + NatStr(n) else NatStr(n)
  }

  lemma {:induction false} DigitsValueLeadingZero(s: string)
    requires forall i :: 0 <= i < |s| ==> IsDigit(s[i])
    ensures DigitsValue(['0'] + s) == DigitsValue(s)
    decreases |s|
  {
    if |s| > 0 {
      var t := ['0'] + s;
      assert t[..|t| - 1] == ['0'] + s[..|s| - 1];
      DigitsValueLeadingZero(s[..|s| - 1]);
    }
  }

  /** The padded rendering can be read back, so distinct numbers give distinct strings. */
  lemma Pad2Value(n: nat)
    ensures DigitsValue(Pad2(n)) == n
  {
    NatStrValue(n);
    if n < 10 { DigitsValueLeadingZero(NatStr(n)); }
  }

  lemma Pad2Injective(m: nat, n: nat)
    requires Pad2(m) == Pad2(n)
    ensures m == n
  {
    Pad2Value(m);
    Pad2Value(n);
  }

  /** Lower-casing twice is lower-casing once. */
  lemma LowerIdempotent(s: string)
    ensures Lower(Lower(s)) == Lower(s)
  {
  }

  /** Every `c` replaced by `d`, character by character. */
  function MapChar(s: string, c: char, d: char): (r: string)
    ensures |r| == |s|
    ensures forall i :: 0 <= i < |s| ==> r[i] == (if s[i] == c then d else s[i])
  {
    seq(|s|, i requires 0 <= i < |s| => if s[i] == c then d else s[i])
  }

  /** `s.replace(c, d)` for one-character strings replaces character by character. */
  lemma {:induction false} ReplaceChar(s: string, c: char, d: char)
    ensures Replace(s, [c], [d]) == MapChar(s, c, d)
    decreases |s|
  {
    match FindFrom(s, [c], 0)
    case None =>
      forall i | 0 <= i < |s| ensures s[i] != c {
        if s[i] == c {
          assert s[i..i + 1] == [c];
          ContainsAt(s, [c], i);
        }
      }
      assert MapChar(s, c, d) == s;
    case Some(i) =>
      var head, rest := s[..i], s[i + 1..];
      PrefixBeforeFirst(s, [c], i);
      assert s[i..i + 1] == [c];
      assert s == head + [c] + rest;
      forall j | 0 <= j < i ensures head[j] != c {
        if head[j] == c {
          assert head[j..j + 1] == [c];
          ContainsAt(head, [c], j);
        }
      }
      ReplaceChar(rest, c, d);
      var parts := Split(rest, [c]);
      assert Split(s, [c]) == [head] + parts;
      assert ([head] + parts)[1..] == parts;
      assert Replace(s, [c], [d]) == head + [d] + Replace(rest, [c], [d]);
      MapCharAround(head, c, d, rest);
  }

  /** Mapping over `head + [c] + rest`, where `head` has no `c`. */
  lemma MapCharAround(head: string, c: char, d: char, rest: string)
    requires forall j :: 0 <= j < |head| ==> head[j] != c
    ensures MapChar(head + [c] + rest, c, d) == head + [d] + MapChar(rest, c, d)
  {
    var s := head + [c] + rest;
    var r := MapChar(s, c, d);
    var e := head + [d] + MapChar(rest, c, d);
    assert |r| == |e|;
    forall k | 0 <= k < |r| ensures r[k] == e[k] {
      if k < |head| {
        assert s[k] == head[k];
      } else if k == |head| {
        assert s[k] == c;
      } else {
        assert s[k] == rest[k - |head| - 1];
      }
    }
  }

  /** A character absent from the input and from the replacement is absent from `s.replace(pat, rep)`. */
  lemma ReplaceLacks(s: string, pat: string, rep: string, ch: char)
    requires |pat| > 0 && ch !in s && ch !in rep
    ensures ch !in Replace(s, pat, rep)
  {
    SplitLacks(s, pat, ch);
    JoinLacks(Split(s, pat), rep, ch);
  }

  /** `s.replace(pat, rep)` of a non-empty `s` ends with the last character of `s` or of `rep`. */
  lemma {:induction false} ReplaceLast(s: string, pat: string, rep: string)
    requires |pat| > 0 && |rep| > 0 && |s| > 0
    ensures var r := Replace(s, pat, rep); |r| > 0 && (r[|r| - 1] == s[|s| - 1] || r[|r| - 1] == rep[|rep| - 1])
    decreases |s|
  {
    match FindFrom(s, pat, 0)
    case None =>
    case Some(i) =>
      var rest := s[i + |pat|..];
      var parts := Split(rest, pat);
      assert Split(s, pat) == [s[..i]] + parts;
      assert ([s[..i]] + parts)[1..] == parts;
      assert Replace(s, pat, rep) == s[..i] + rep + Replace(rest, pat, rep);
      if |rest| > 0 {
        ReplaceLast(rest, pat, rep);
      }
  }

  lemma {:induction false} SplitLacks(s: string, sep: string, ch: char)
    requires |sep| > 0 && ch !in s
    ensures forall k :: 0 <= k < |Split(s, sep)| ==> ch !in Split(s, sep)[k]
    decreases |s|
  {
    match FindFrom(s, sep, 0)
    case None =>
    case Some(i) =>
      var rest := s[i + |sep|..];
      assert forall j :: 0 <= j < |rest| ==> rest[j] == s[i + |sep| + j];
      assert forall j :: 0 <= j < i ==> s[..i][j] == s[j];
      SplitLacks(rest, sep, ch);
  }

  lemma {:induction false} JoinLacks(parts: seq<string>, sep: string, ch: char)
    requires ch !in sep
    requires forall k :: 0 <= k < |parts| ==> ch !in parts[k]
    ensures ch !in Join(parts, sep)
    decreases |parts|
  {
    if |parts| > 1 {
      JoinLacks(parts[1..], sep, ch);
    }
  }

  /** The first `c` in `head + [c] + rest` is the one after `head`, when `head` has none. */
  lemma FindFirstChar(head: string, c: char, rest: string)
    requires c !in head
    ensures FindFrom(head + [c] + rest, [c], 0) == Some(|head|)
  {
    var s := head + [c] + rest;
    assert s[|head|..|head| + 1] == [c];
    assert OccursAt(s, [c], |head|);
    forall j | 0 <= j < |head| ensures !OccursAt(s, [c], j) {
      assert s[j..j + 1] == [head[j]];
    }
  }

  lemma SplitOnceHead(head: string, c: char, rest: string)
    requires c !in head
    ensures SplitOnce(head + [c] + rest, [c]) == [head, rest]
  {
    var s := head + [c] + rest;
    FindFirstChar(head, c, rest);
    assert s[..|head|] == head;
    assert s[|head| + 1..] == rest;
  }

  /** `(head + c + rest).split(c)` starts with `head` when `head` has no `c`. */
  lemma SplitHead(head: string, c: char, rest: string)
    requires c !in head
    ensures Split(head + [c] + rest, [c]) == [head] + Split(rest, [c])
  {
    var s := head + [c] + rest;
    FindFirstChar(head, c, rest);
    assert s[..|head|] == head;
    assert s[|head| + 1..] == rest;
  }

  /** Blocks of lines written one after the other. */
  function Flatten(blocks: seq<seq<string>>): seq<string>
    decreases |blocks|
  {
    if |blocks| == 0 then [] else Flatten(blocks[..|blocks| - 1]) + blocks[|blocks| - 1]
  }

  /** Every line of every block is in the flattened lines. */
  lemma {:induction false} FlattenHas(blocks: seq<seq<string>>, i: nat, line: string)
    requires i < |blocks| && line in blocks[i]
    ensures line in Flatten(blocks)
    decreases |blocks|
  {
    if i < |blocks| - 1 {
      var init := blocks[..|blocks| - 1];
      assert init[i] == blocks[i];
      FlattenHas(init, i, line);
    }
  }

  lemma FlattenNext(blocks: seq<seq<string>>, i: nat)
    requires i < |blocks|
    ensures Flatten(blocks[..i + 1]) == Flatten(blocks[..i]) + blocks[i]
  {
    assert blocks[..i + 1][..i] == blocks[..i];
  }

  /** `c in s` for a one-character `c`. */
  lemma ContainsChar(s: string, c: char)
    ensures Contains(s, [c]) <==> c in s
  {
    if c in s {
      var i :| 0 <= i < |s| && s[i] == c;
      assert s[i..i + 1] == [c];
      ContainsAt(s, [c], i);
    }
    if Contains(s, [c]) {
      var i := FindFrom(s, [c], 0).value;
      assert s[i..i + 1][0] == s[i];
    }
  }

  /** The last `c` in `head + [c] + tail` is the one before `tail`, when `tail` has none. */
  lemma RSplitOnceTail(head: string, c: char, tail: string)
    requires c !in tail
    ensures RSplitOnce(head + [c] + tail, [c]) == [head, tail]
  {
    var s := head + [c] + tail;
    assert s[|head|..|head| + 1] == [c];
    ContainsAt(s, [c], |head|);
    var r := RSplitOnce(s, [c]);
    ContainsChar(r[1], c);
    assert s == r[0] + [c] + r[1];
    assert s[|r[0]|] == c && s[|head|] == c;
    assert forall j :: |head| + 1 <= j < |s| ==> s[j] == tail[j - |head| - 1];
    assert forall j :: |r[0]| + 1 <= j < |s| ==> s[j] == r[1][j - |r[0]| - 1];
    assert |r[1]| == |tail|;
    assert r[1] == s[|s| - |tail|..] == tail;
    assert r[0] == s[..|head|] == head;
  }
}
