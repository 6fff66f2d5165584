/** The parts of Python's string library the client relies on:
    `str.split` with a one-character separator, ASCII `str.lower`, and `posixpath.splitext`. */
module PyStrings {
  import opened Wrappers

  /** `sep.join(parts)`. */
  function Join(parts: seq<string>, sep: char): string
  {
    if parts == [] then ""
    else if |parts| == 1 then parts[0]
    else parts[0] + [sep] + Join(parts[1..], sep)
  }

  /** `s.split(sep)`: the pieces between separators; never empty, `"".split(sep) == [""]`. */
  function Split(s: string, sep: char): (parts: seq<string>)
    ensures |parts| >= 1
    ensures forall i :: 0 <= i < |parts| ==> sep !in parts[i]
    ensures Join(parts, sep) == s
    decreases |s|
  {
    if s == [] then [""]
    else
      var rest := Split(s[1..], sep);
      if s[0] == sep then
        assert s == [sep] + s[1..];
        [""] + rest
      else
        var parts := [[s[0]] + rest[0]] + rest[1..];
        assert s == [s[0]] + s[1..];
        assert sep !in parts[0];
        assert forall i :: 1 <= i < |parts| ==> parts[i] == rest[i];
        parts
  }

  /** Splitting undoes joining pieces that contain no separator. */
  lemma {:induction false} SplitJoin(parts: seq<string>, sep: char)
    requires |parts| >= 1 && forall i :: 0 <= i < |parts| ==> sep !in parts[i]
    ensures Split(Join(parts, sep), sep) == parts
    decreases |parts|, |parts[0]|
  {
    var rest := parts[1..];
    if |parts| == 1 {
      SplitNoSeparator(parts[0], sep);
    } else if parts[0] == [] {
      assert parts == [""] + rest;
      JoinHead("", rest, sep);
      SplitSeparator(Join(rest, sep), sep);
      SplitJoin(rest, sep);
    } else {
      var c := parts[0][0];
      var p := parts[0][1..];
      var shorter := [p] + rest;
      assert parts[0] == [c] + p;
      assert parts == [[c] + p] + rest;
      assert forall i :: 0 <= i < |shorter| ==> sep !in shorter[i] by {
        forall i | 0 <= i < |shorter| ensures sep !in shorter[i] {
          if i > 0 { assert shorter[i] == parts[i]; }
        }
      }
      JoinFirstChar(c, p, rest, sep);
      SplitChar(c, Join(shorter, sep), sep);
      SplitJoin(shorter, sep);
      assert shorter[1..] == rest;
    }
  }

  lemma JoinHead(first: string, rest: seq<string>, sep: char)
    requires |rest| >= 1
    ensures Join([first] + rest, sep) == first + [sep] + Join(rest, sep)
  {
    assert ([first] + rest)[1..] == rest;
  }

  lemma JoinFirstChar(c: char, p: string, rest: seq<string>, sep: char)
    ensures Join([[c] + p] + rest, sep) == [c] + Join([p] + rest, sep)
  {
    if rest != [] {
      JoinHead([c] + p, rest, sep);
      JoinHead(p, rest, sep);
    }
  }

  lemma SplitSeparator(x: string, sep: char)
    ensures Split([sep] + x, sep) == [""] + Split(x, sep)
  {
    assert ([sep] + x)[1..] == x;
  }

  lemma SplitChar(c: char, x: string, sep: char)
    requires c != sep
    ensures Split([c] + x, sep) == [[c] + Split(x, sep)[0]] + Split(x, sep)[1..]
  {
    assert ([c] + x)[1..] == x;
  }

  lemma {:induction false} SplitNoSeparator(s: string, sep: char)
    requires sep !in s
    ensures Split(s, sep) == [s]
    decreases |s|
  {
    if s != [] {
      SplitNoSeparator(s[1..], sep);
      assert s == [s[0]] + s[1..];
    }
  }

  /** There is a second piece exactly when the separator occurs. */
  lemma SplitHasSecond(s: string, sep: char)
    ensures |Split(s, sep)| >= 2 <==> sep in s
  {
    var parts := Split(s, sep);
    if |parts| >= 2 {
      assert Join(parts, sep) == parts[0] + [sep] + Join(parts[1..], sep);
      assert s[|parts[0]|] == sep;
    } else {
      assert s == parts[0];
    }
  }

  /** `s.split(sep)[1]`, or `None` where Python raises IndexError. */
  function SecondPiece(s: string, sep: char): (r: Option<string>)
    ensures r.Some? <==> sep in s
    ensures r.Some? ==> sep !in r.value
  {
    SplitHasSecond(s, sep);
    var parts := Split(s, sep);
    if |parts| >= 2 then Some(parts[1]) else None
  }

  /** ASCII behaviour of `str.lower` on one character. */
  function LowerChar(c: char): char
  {
    if 'A' <= c <= 'Z' then (c as int + 32) as char else c
  }

  predicate IsLower(s: string)
  {
    forall i :: 0 <= i < |s| ==> !('A' <= s[i] <= 'Z')
  }

  /** `s.lower()`, restricted to ASCII letters. */
  function Lower(s: string): (r: string)
    ensures |r| == |s| && IsLower(r)
    ensures forall i :: 0 <= i < |s| ==> r[i] == LowerChar(s[i])
    ensures IsLower(s) ==> r == s
  {
    seq(|s|, i requires 0 <= i < |s| => LowerChar(s[i]))
  }

  /** Index of the last occurrence of c in s, or -1: `s.rfind(c)`. */
  function RFind(s: string, c: char): (r: int)
    ensures -1 <= r < |s|
    ensures r >= 0 ==> s[r] == c
    ensures forall i :: r < i < |s| ==> s[i] != c
    decreases |s|
  {
    if s == [] then -1
    else if s[|s| - 1] == c then |s| - 1
    else RFind(s[..|s| - 1], c)
  }

  /** `posixpath.splitext(p)`: the extension is the last '.'-suffix of the last path component,
      unless everything before that dot in the component is dots. */
  function SplitExt(p: string): (r: (string, string))
    ensures r.0 + r.1 == p
    ensures r.1 == [] || (r.1[0] == '.' && '.' !in r.1[1..] && '/' !in r.1)
  {
    var sepIndex := RFind(p, '/');
    var dotIndex := RFind(p, '.');
    if dotIndex > sepIndex && exists k :: sepIndex + 1 <= k < dotIndex && p[k] != '.' then
      assert p[..dotIndex] + p[dotIndex..] == p;
      (p[..dotIndex], p[dotIndex..])
    else
      assert p + "" == p;
      (p, "")
  }

  /** The last path component of p has a character other than '.' before index i. */
  predicate StemBefore(p: string, i: int)
  {
    exists k :: RFind(p, '/') < k < i && 0 <= k < |p| && p[k] != '.'
  }

  /** `rfind` ignores a tail that does not hold the character. */
  lemma RFindSkip(s: string, t: string, c: char)
    requires c !in t
    ensures RFind(s + t, c) == RFind(s, c)
  {
    var r1, r2 := RFind(s + t, c), RFind(s, c);
    if r2 >= 0 {
      assert (s + t)[r2] == s[r2];
    }
    if r1 >= 0 {
      assert forall j :: 0 <= j < |t| ==> (s + t)[|s| + j] == t[j];
      assert r1 < |s|;
      assert s[r1] == (s + t)[r1];
    }
  }

  /** A dot followed by a dot-free, slash-free extension, behind a stem that is not all dots,
      splits off as the extension. */
  lemma SplitExtOf(root: string, ext: string)
    requires '.' !in ext && '/' !in ext && StemBefore(root, |root|)
    ensures SplitExt(root + "." + ext) == (root, "." + ext)
  {
    var p := root + "." + ext;
    assert p == root + ("." + ext);
    RFindSkip(root, "." + ext, '/');
    RFindSkip(root + ".", ext, '.');
    var dot := root + ".";
    assert RFind(dot, '.') == |root| by {
      assert dot[|root|] == '.';
    }
    var k :| RFind(root, '/') < k < |root| && 0 <= k < |root| && root[k] != '.';
    assert p[k] == root[k];
    assert p[..|root|] == root;
    assert p[|root|..] == "." + ext;
  }

  /** There is an extension exactly when the last component has a non-dot character before
      its last dot; it is then everything from that dot on. */
  lemma SplitExtCases(p: string)
    ensures SplitExt(p).1 != "" <==> StemBefore(p, RFind(p, '.'))
    ensures SplitExt(p).1 != "" ==> SplitExt(p) == (p[..RFind(p, '.')], p[RFind(p, '.')..])
    ensures SplitExt(p).1 == "" ==> SplitExt(p).0 == p
  {
  }

  /** `s[1:]`. */
  function DropFirst(s: string): (r: string)
    ensures |s| > 0 ==> [s[0]] + r == s
    ensures |s| == 0 ==> r == s
  {
    if |s| == 0 then s else s[1..]
  }
}
