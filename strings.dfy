/**
 * The JavaScript string operations the handlers rely on (`includes`, `indexOf`,
 * `replace` with a string pattern, `lastIndexOf`, `trim`, the `\s` character class,
 * `join`, and the slash-collapsing regular expression), stated over `seq<char>`.
 */
module Strings {

  /** `t` occurs in `s` starting at index `i`. */
  predicate OccursAt(s: string, t: string, i: int) {
    0 <= i && i + |t| <= |s| && s[i..i + |t|] == t
  }

  /** `s.includes(t)`. */
  predicate Contains(s: string, t: string) {
    exists i | 0 <= i <= |s| - |t| :: OccursAt(s, t, i)
  }

  /** `s.indexOf(t)`: the first index at which `t` occurs, or -1. */
  function IndexOf(s: string, t: string): (r: int)
    ensures -1 <= r <= |s|
    ensures r == -1 <==> !Contains(s, t)
    ensures r >= 0 ==> OccursAt(s, t, r)
    ensures forall j :: 0 <= j < r ==> !OccursAt(s, t, j)
    decreases |s|
  {
    if |t| > |s| then
      assert forall i :: !OccursAt(s, t, i);
      -1
    else if t <= s then
      assert OccursAt(s, t, 0);
      0
    else
      var k := IndexOf(s[1..], t);
      forall j | 1 <= j <= |s|
        ensures OccursAt(s, t, j) <==> OccursAt(s[1..], t, j - 1)
      {
        OccursShift(s, t, j);
      }
      assert !OccursAt(s, t, 0);
      if k < 0 then
        assert forall i :: !OccursAt(s, t, i);
        -1
      else
        assert OccursAt(s, t, k + 1);
        k + 1
  }

  /** Dropping the first character shifts every later occurrence one place left. */
  lemma OccursShift(s: string, t: string, j: int)
    requires 1 <= j <= |s|
    ensures OccursAt(s, t, j) <==> OccursAt(s[1..], t, j - 1)
  {
    if j + |t| <= |s| {
      var u := s[1..];
      var shifted, window := u[j - 1..j - 1 + |t|], s[j..j + |t|];
      forall i | 0 <= i < |t| ensures shifted[i] == window[i] {
        assert u[j - 1 + i] == s[j + i];
      }
      assert shifted == window;
    }
  }

  /** Lemma-friendly witness: an occurrence at `i` means `s` contains `t`. */
  lemma OccursContains(s: string, t: string, i: int)
    requires OccursAt(s, t, i)
    ensures Contains(s, t)
  {
  }

  /** A one-character pattern occurs exactly when the character does. */
  lemma ContainsChar(s: string, c: char)
    ensures Contains(s, [c]) <==> c in s
  {
    if c in s {
      var k :| 0 <= k < |s| && s[k] == c;
      assert s[k..k + 1] == [c];
      assert OccursAt(s, [c], k);
    }
    if Contains(s, [c]) {
      var k :| 0 <= k <= |s| - 1 && OccursAt(s, [c], k);
      assert s[k..k + 1][0] == s[k];
    }
  }

  /** For a one-character pattern, `indexOf` is the first position holding that character. */
  lemma IndexOfChar(s: string, c: char, k: int)
    requires 0 <= k < |s| && s[k] == c && c !in s[..k]
    ensures IndexOf(s, [c]) == k
  {
    assert s[k..k + 1] == [c];
    assert OccursAt(s, [c], k);
    OccursContains(s, [c], k);
    var r := IndexOf(s, [c]);
    assert s[r..r + 1][0] == s[r];
    assert forall j :: 0 <= j < k ==> s[j] != c by {
      forall j | 0 <= j < k ensures s[j] != c {
        assert s[..k][j] == s[j];
      }
    }
  }

  /**
   * `s.replace(t, u)` for a string pattern `t`: the first occurrence of `t` is replaced
   * by `u`; everything before and after it is kept; without an occurrence `s` is returned.
   */
  function ReplaceFirst(s: string, t: string, u: string): (r: string)
    ensures !Contains(s, t) ==> r == s
    ensures Contains(s, t) ==>
      var i := IndexOf(s, t);
      && |r| == |s| - |t| + |u|
      && r[..i] == s[..i]
      && OccursAt(r, u, i)
      && r[i + |u|..] == s[i + |t|..]
  {
    var i := IndexOf(s, t);
    if i < 0 then s else s[..i] + u + s[i + |t|..]
  }

  /** The characters JavaScript's `\s` class and `String.prototype.trim` treat as white space. */
  predicate IsWhitespace(c: char) {
    var n := c as int;
    || (0x09 <= n <= 0x0D) || n == 0x20 || n == 0xA0 || n == 0x1680
    || (0x2000 <= n <= 0x200A) || n == 0x2028 || n == 0x2029 || n == 0x202F
    || n == 0x205F || n == 0x3000 || n == 0xFEFF
  }

  predicate AllWhitespace(s: string) {
    forall i :: 0 <= i < |s| ==> IsWhitespace(s[i])
  }

  /** Drops the leading white space. */
  function TrimStart(s: string): (r: string)
    ensures |r| <= |s| && r == s[|s| - |r|..]
    ensures AllWhitespace(s[..|s| - |r|])
    ensures r == [] || !IsWhitespace(r[0])
    ensures s == [] || !IsWhitespace(s[0]) ==> r == s
  {
    if s != [] && IsWhitespace(s[0]) then
      var r := TrimStart(s[1..]);
      TrimStartStep(s, r);
      r
    else
      s
  }

  /** A suffix of `s[1..]` after white space is a suffix of `s` after white space, when `s[0]` is white space. */
  lemma TrimStartStep(s: string, r: string)
    requires s != [] && IsWhitespace(s[0])
    requires |r| <= |s| - 1 && r == s[1..][|s| - 1 - |r|..]
    requires AllWhitespace(s[1..][..|s| - 1 - |r|])
    ensures r == s[|s| - |r|..]
    ensures AllWhitespace(s[..|s| - |r|])
  {
    DropFirstSlice(s, |s| - |r|);
    WhitespaceCons(s[0], s[1..|s| - |r|]);
  }

  /** Drops the trailing white space. */
  function TrimEnd(s: string): (r: string)
    ensures |r| <= |s| && r == s[..|r|]
    ensures AllWhitespace(s[|r|..])
    ensures r == [] ==> AllWhitespace(s)
    ensures r == [] || !IsWhitespace(r[|r| - 1])
    ensures s == [] || !IsWhitespace(s[|s| - 1]) ==> r == s
  {
    if s != [] && IsWhitespace(s[|s| - 1]) then
      var r := TrimEnd(s[..|s| - 1]);
      DropLastSlice(s, |r|);
      WhitespaceSnoc(s[|r|..|s| - 1], s[|s| - 1]);
      r
    else
      s
  }

  /** Slicing off the last character, then a prefix, leaves the middle; putting the last character back gives the suffix. */
  lemma DropLastSlice(s: string, k: int)
    requires 0 <= k <= |s| - 1
    ensures s[..|s| - 1][k..] == s[k..|s| - 1]
    ensures s[k..] == s[k..|s| - 1] + [s[|s| - 1]]
  {
  }

  lemma DropFirstSlice(s: string, k: int)
    requires 1 <= k <= |s|
    ensures s[1..][..k - 1] == s[1..k]
    ensures s[..k] == [s[0]] + s[1..k]
    ensures s[1..][k - 1..] == s[k..]
  {
  }

  /** A white-space character followed by white space is white space. */
  lemma WhitespaceCons(c: char, a: string)
    requires IsWhitespace(c) && AllWhitespace(a)
    ensures AllWhitespace([c] + a)
  {
    forall i | 0 <= i < |[c] + a| ensures IsWhitespace(([c] + a)[i]) {
      if i > 0 {
        assert ([c] + a)[i] == a[i - 1];
      }
    }
  }

  /** White space followed by a white-space character is white space. */
  lemma WhitespaceSnoc(a: string, c: char)
    requires AllWhitespace(a) && IsWhitespace(c)
    ensures AllWhitespace(a + [c])
  {
    forall i | 0 <= i < |a + [c]| ensures IsWhitespace((a + [c])[i]) {
      if i < |a| {
        assert (a + [c])[i] == a[i];
      }
    }
  }

  /** `s.trim()`: the longest infix of `s` that neither starts nor ends with white space. */
  function Trim(s: string): (r: string)
    ensures r == [] <==> AllWhitespace(s)
    ensures r == [] || (!IsWhitespace(r[0]) && !IsWhitespace(r[|r| - 1]))
    ensures Contains(s, r)
    ensures s == [] || (!IsWhitespace(s[0]) && !IsWhitespace(s[|s| - 1])) ==> r == s
  {
    var a := TrimStart(s);
    var r := TrimEnd(a);
    TrimEmptyMeansWhitespace(s, a, r);
    TrimEnds(s, a, r);
    TrimKeepsTrimmed(s, a, r);
    InfixOfSuffix(s, a, r);
    OccursContains(s, r, |s| - |a|);
    r
  }

  /**
   * Trimming cuts white space and nothing else: `Trim(s)` is the part of `s` that starts
   * where the leading white space ends and has only white space after it.
   */
  lemma TrimCutsOnlyWhitespace(s: string)
    ensures var a := TrimStart(s); var r := TrimEnd(a); var k := |s| - |a|;
      && r == Trim(s)
      && k + |r| <= |s|
      && r == s[k..k + |r|]
      && AllWhitespace(s[..k]) && AllWhitespace(s[k + |r|..])
  {
    var a := TrimStart(s);
    var r := TrimEnd(a);
    TrimWindow(s, a, r);
  }

  /** `TrimCutsOnlyWhitespace` with the two trimming steps named. */
  lemma TrimWindow(s: string, a: string, r: string)
    requires a == TrimStart(s) && r == TrimEnd(a)
    ensures r == Trim(s)
    ensures var k := |s| - |a|;
      && k + |r| <= |s|
      && r == s[k..k + |r|]
      && AllWhitespace(s[..k]) && AllWhitespace(s[k + |r|..])
  {
    WindowOfSuffix(s, a, r);
  }

  /** A prefix `r` of a suffix `a` of `s`, followed in `a` by white space, sits in `s` before white space only. */
  lemma WindowOfSuffix(s: string, a: string, r: string)
    requires |a| <= |s| && a == s[|s| - |a|..] && |r| <= |a| && r == a[..|r|]
    requires AllWhitespace(a[|r|..])
    ensures var k := |s| - |a|;
      k + |r| <= |s| && r == s[k..k + |r|] && AllWhitespace(s[k + |r|..])
  {
    var k := |s| - |a|;
    assert s[k + |r|..] == a[|r|..];
  }

  /** A text with no white space at either end is its own trimmed form. */
  lemma TrimKeepsTrimmed(s: string, a: string, r: string)
    requires a == TrimStart(s) && r == TrimEnd(a)
    ensures s == [] || (!IsWhitespace(s[0]) && !IsWhitespace(s[|s| - 1])) ==> r == s
  {
  }

  /** The trimmed text is empty only when everything was trimmed away as white space. */
  lemma TrimEmptyMeansWhitespace(s: string, a: string, r: string)
    requires a == TrimStart(s) && r == TrimEnd(a)
    ensures r == [] ==> AllWhitespace(s)
  {
    if r == [] {
      TrimmedAway(s, a);
    }
  }

  /** A non-empty trimmed text starts and ends with non-white space, so the input was not all white space. */
  lemma TrimEnds(s: string, a: string, r: string)
    requires a == TrimStart(s) && r == TrimEnd(a)
    ensures r == [] || (!IsWhitespace(r[0]) && !IsWhitespace(r[|r| - 1]))
    ensures r != [] ==> !AllWhitespace(s)
  {
    if r != [] {
      assert r[0] == a[0] && a[0] == s[|s| - |a|];
      NotAllWhitespace(s, |s| - |a|);
    }
  }

  /** One character that is not white space is enough to rule out all white space. */
  lemma NotAllWhitespace(s: string, i: int)
    requires 0 <= i < |s| && !IsWhitespace(s[i])
    ensures !AllWhitespace(s)
  {
  }

  /** A prefix of a suffix of `s` occurs in `s`. */
  lemma InfixOfSuffix(s: string, a: string, r: string)
    requires |a| <= |s| && a == s[|s| - |a|..] && |r| <= |a| && r == a[..|r|]
    ensures OccursAt(s, r, |s| - |a|)
  {
  }

  /** White space before a white-space suffix `a` of `s`: the whole input was white space. */
  lemma TrimmedAway(s: string, a: string)
    requires |a| <= |s| && a == s[|s| - |a|..]
    requires AllWhitespace(s[..|s| - |a|]) && AllWhitespace(a)
    ensures AllWhitespace(s)
  {
    var off := |s| - |a|;
    forall i | 0 <= i < |s| ensures IsWhitespace(s[i]) {
      if i >= off {
        assert a[i - off] == s[i];
      } else {
        assert s[..off][i] == s[i];
      }
    }
  }

  /** `s.replace(/\s/g, "")`: every white-space character removed, the others kept in order. */
  function RemoveWhitespace(s: string): (r: string)
    ensures |r| <= |s|
    ensures forall i :: 0 <= i < |r| ==> !IsWhitespace(r[i])
    ensures r == [] <==> AllWhitespace(s)
    ensures (forall i :: 0 <= i < |s| ==> !IsWhitespace(s[i])) ==> r == s
  {
    if s == [] then []
    else
      var rest := RemoveWhitespace(s[1..]);
      assert AllWhitespace(s[1..]) <==> forall i :: 1 <= i < |s| ==> IsWhitespace(s[i]) by {
        forall i | 1 <= i < |s| ensures s[1..][i - 1] == s[i] { }
      }
      if IsWhitespace(s[0]) then rest else [s[0]] + rest
  }

  /** Removing white space distributes over concatenation. */
  lemma {:induction false} RemoveWhitespaceAppend(a: string, b: string)
    ensures RemoveWhitespace(a + b) == RemoveWhitespace(a) + RemoveWhitespace(b)
    decreases |a|
  {
    if a == [] {
      assert a + b == b;
    } else {
      assert (a + b)[1..] == a[1..] + b;
      RemoveWhitespaceAppend(a[1..], b);
    }
  }

  /** Trimming first makes no difference once all white space is removed. */
  lemma RemoveWhitespaceIgnoresTrim(s: string)
    ensures RemoveWhitespace(Trim(s)) == RemoveWhitespace(s)
  {
    var a := TrimStart(s);
    assert Trim(s) == TrimEnd(a);
    RemoveWhitespaceIgnoresTrimEnd(a);
    RemoveWhitespaceIgnoresTrimStart(s);
  }

  lemma RemoveWhitespaceIgnoresTrimStart(s: string)
    ensures RemoveWhitespace(TrimStart(s)) == RemoveWhitespace(s)
  {
    var a := TrimStart(s);
    var front := s[..|s| - |a|];
    assert s == front + a;
    RemoveWhitespaceAppend(front, a);
  }

  lemma RemoveWhitespaceIgnoresTrimEnd(s: string)
    ensures RemoveWhitespace(TrimEnd(s)) == RemoveWhitespace(s)
  {
    var r := TrimEnd(s);
    var back := s[|r|..];
    assert s == r + back;
    RemoveWhitespaceAppend(r, back);
  }

  /** One character is dropped exactly when it is white space, and kept otherwise. */
  lemma RemoveWhitespaceChar(c: char)
    ensures RemoveWhitespace([c]) == if IsWhitespace(c) then [] else [c]
  {
    assert [c][1..] == [];
  }

  /** `s.lastIndexOf(c)` for a one-character needle. */
  function LastIndexOf(s: string, c: char): (r: int)
    ensures -1 <= r < |s|
    ensures r == -1 <==> c !in s
    ensures r >= 0 ==> s[r] == c
    ensures forall j :: r < j < |s| ==> s[j] != c
  {
    if s == [] then -1
    else if s[|s| - 1] == c then |s| - 1
    else
      var r := LastIndexOf(s[..|s| - 1], c);
      assert s == s[..|s| - 1] + [s[|s| - 1]];
      r
  }

  /** `parts.join(sep)`. */
  function Join(parts: seq<string>, sep: string): string {
    if parts == [] then ""
    else if |parts| == 1 then parts[0]
    else parts[0] + sep + Join(parts[1..], sep)
  }

  predicate NoDoubleSlash(s: string) {
    forall i :: 0 <= i < |s| - 1 ==> !(s[i] == '/' && s[i + 1] == '/')
  }

  /** The characters of `s` other than `/`, in order. */
  function WithoutSlashes(s: string): string {
    if s == [] then [] else (if s[0] == '/' then [] else [s[0]]) + WithoutSlashes(s[1..])
  }

  /**
   * `s.replace(/\/{2,}/g, "/")`: every run of two or more slashes becomes one slash.
   * The first character is kept, and a string without a doubled slash is unchanged;
   * `CollapseKeepsCharacters`, `CollapseKeepsSegments` and `CollapseKeepsEnd` say what
   * else is kept.
   */
  function CollapseSlashes(s: string): (r: string)
    ensures |r| <= |s|
    ensures NoDoubleSlash(r)
    ensures r == [] <==> s == []
    ensures s != [] ==> r[0] == s[0]
    ensures NoDoubleSlash(s) ==> r == s
  {
    if |s| >= 2 && s[0] == '/' && s[1] == '/' then
      CollapseSlashes(s[1..])
    else if s == [] then
      []
    else
      var rest := CollapseSlashes(s[1..]);
      assert NoDoubleSlash(s) ==> NoDoubleSlash(s[1..]) by {
        if NoDoubleSlash(s) {
          forall i | 0 <= i < |s[1..]| - 1 ensures !(s[1..][i] == '/' && s[1..][i + 1] == '/') {
            assert s[1..][i] == s[i + 1] && s[1..][i + 1] == s[i + 2];
          }
        }
      }
      [s[0]] + rest
  }

  /** Nothing but slashes is removed: the other characters are kept, in order. */
  lemma {:induction false} CollapseKeepsCharacters(s: string)
    ensures WithoutSlashes(CollapseSlashes(s)) == WithoutSlashes(s)
    decreases |s|
  {
    if |s| >= 2 && s[0] == '/' && s[1] == '/' {
      CollapseDropsDouble(s);
      CollapseKeepsCharacters(s[1..]);
    } else if s != [] {
      var r := CollapseSlashes(s);
      CollapseKeepsHead(s);
      CollapseKeepsCharacters(s[1..]);
      assert r[1..] == CollapseSlashes(s[1..]);
    }
  }

  /** `s.endsWith(c)` for a one-character `c`: `s` is not empty and its last character is `c`. */
  predicate EndsWith(s: string, c: char)
    decreases |s|
  {
    s != [] && (if |s| == 1 then s[0] == c else EndsWith(s[1..], c))
  }

  /** The definition of `EndsWith` agrees with the last index. */
  lemma {:induction false} EndsWithLast(s: string, c: char)
    ensures EndsWith(s, c) <==> s != [] && s[|s| - 1] == c
    decreases |s|
  {
    if |s| > 1 {
      EndsWithLast(s[1..], c);
    }
  }

  /** A character put in front of a non-empty text does not change how it ends. */
  lemma EndsWithCons(x: char, t: string, c: char)
    requires t != []
    ensures EndsWith([x] + t, c) <==> EndsWith(t, c)
  {
    assert ([x] + t)[1..] == t;
  }

  /** A non-empty text put at the end decides how the whole ends. */
  lemma {:induction false} EndsWithAppend(a: string, b: string, c: char)
    requires b != []
    ensures EndsWith(a + b, c) <==> EndsWith(b, c)
    decreases |a|
  {
    if a == [] {
      assert a + b == b;
    } else {
      assert a + b == [a[0]] + (a[1..] + b);
      EndsWithCons(a[0], a[1..] + b, c);
      EndsWithAppend(a[1..], b, c);
    }
  }

  /** Collapsing slashes does not change how a text ends: a trailing slash stays a trailing slash. */
  lemma {:induction false} CollapseKeepsEnd(s: string, c: char)
    ensures EndsWith(CollapseSlashes(s), c) <==> EndsWith(s, c)
    decreases |s|
  {
    if |s| >= 2 && s[0] == '/' && s[1] == '/' {
      CollapseDropsDouble(s);
      CollapseKeepsEnd(s[1..], c);
      EndsWithCons(s[0], s[1..], c);
    } else if |s| == 1 {
      CollapseKeepsHead(s);
      assert CollapseSlashes(s) == s;
    } else if s != [] {
      CollapseKeepsHead(s);
      CollapseKeepsEnd(s[1..], c);
      EndsWithCons(s[0], s[1..], c);
      EndsWithCons(s[0], CollapseSlashes(s[1..]), c);
    }
  }

  /** A slash followed by a slash is dropped. */
  lemma CollapseDropsDouble(s: string)
    requires |s| >= 2 && s[0] == '/' && s[1] == '/'
    ensures CollapseSlashes(s) == CollapseSlashes(s[1..])
  {
  }

  /** Any other first character is kept. */
  lemma CollapseKeepsHead(s: string)
    requires s != [] && !(|s| >= 2 && s[0] == '/' && s[1] == '/')
    ensures CollapseSlashes(s) == [s[0]] + CollapseSlashes(s[1..])
  {
  }

  /**
   * The non-empty pieces of `s` between slashes, in order: the path's folders and file
   * name. Built from the front: a character other than `/` either starts a new piece or,
   * when another such character follows, joins the piece that character begins.
   */
  function Segments(s: string): (r: seq<string>)
    ensures s != [] && s[0] != '/' ==> r != []
    decreases |s|
  {
    if s == [] then []
    else
      var rest := Segments(s[1..]);
      if s[0] == '/' then rest
      else if |s| > 1 && s[1] != '/' then [[s[0]] + rest[0]] + rest[1..]
      else [[s[0]]] + rest
  }

  /** Collapsing runs of slashes keeps every folder and file name: each run becomes one slash, none vanishes. */
  lemma {:induction false} CollapseKeepsSegments(s: string)
    ensures Segments(CollapseSlashes(s)) == Segments(s)
    decreases |s|
  {
    if |s| >= 2 && s[0] == '/' && s[1] == '/' {
      CollapseDropsDouble(s);
      CollapseKeepsSegments(s[1..]);
    } else if s != [] {
      var t := CollapseSlashes(s[1..]);
      var r := CollapseSlashes(s);
      CollapseKeepsHead(s);
      CollapseKeepsSegments(s[1..]);
      assert r[1..] == t;
      assert |r| > 1 <==> |s| > 1;
      assert |s| > 1 ==> r[1] == s[1];
    }
  }

  /** A slash-free word followed by nothing or by a slash is one piece of its own. */
  lemma {:induction false} SegmentsAfterWord(w: string, q: string)
    requires w != [] && '/' !in w
    requires q == [] || q[0] == '/'
    ensures Segments(w + q) == [w] + Segments(q)
    decreases |w|
  {
    var s := w + q;
    assert w[0] in w;
    assert s[1..] == w[1..] + q;
    if |w| == 1 {
      assert w[1..] + q == q;
      assert w == [s[0]];
      assert |s| > 1 ==> s[1] == q[0];
    } else {
      assert w[1] in w;
      assert '/' !in w[1..] by {
        forall i | 0 <= i < |w[1..]| ensures w[1..][i] != '/' { assert w[1..][i] == w[i + 1]; }
      }
      SegmentsAfterWord(w[1..], q);
      assert [s[0]] + w[1..] == w;
    }
  }

  /** A leading slash adds no piece. */
  lemma SegmentsAfterSlash(q: string)
    ensures Segments(['/'] + q) == Segments(q)
  {
    assert (['/'] + q)[1..] == q;
  }

  lemma {:induction false} WithoutSlashesAppend(a: string, b: string)
    ensures WithoutSlashes(a + b) == WithoutSlashes(a) + WithoutSlashes(b)
    decreases |a|
  {
    if a == [] {
      assert a + b == b;
    } else {
      assert (a + b)[1..] == a[1..] + b;
      WithoutSlashesAppend(a[1..], b);
    }
  }

  /** A text without slashes loses nothing. */
  lemma {:induction false} WithoutSlashesNone(x: string)
    requires '/' !in x
    ensures WithoutSlashes(x) == x
  {
    if x != [] {
      assert '/' !in x[1..] by {
        forall i | 0 <= i < |x[1..]| ensures x[1..][i] != '/' { assert x[1..][i] == x[i + 1]; }
      }
      WithoutSlashesNone(x[1..]);
    }
  }

  /** A single `/` in front of a text that does not start with one is kept as it is. */
  lemma CollapseLeadingSlash(t: string)
    requires t != [] && t[0] != '/'
    ensures CollapseSlashes(['/'] + t) == ['/'] + CollapseSlashes(t)
  {
    assert (['/'] + t)[1..] == t;
  }

  /** A character other than `/` in front of `t` passes through the collapsing untouched. */
  lemma CollapseStep(c: char, t: string)
    requires c != '/'
    ensures CollapseSlashes([c] + t) == [c] + CollapseSlashes(t)
  {
    assert ([c] + t)[1..] == t;
  }

  /** Splitting a slash-free word into its first character and the rest. */
  lemma SplitWord(x: string, s: string)
    requires x != [] && '/' !in x
    ensures x[0] != '/' && '/' !in x[1..]
    ensures x + s == [x[0]] + (x[1..] + s)
  {
    assert x[0] in x;
    assert x == [x[0]] + x[1..];
  }

  /** A slash-free word in front of `s` passes through the collapsing untouched. */
  lemma {:induction false} CollapseAfterWord(x: string, s: string)
    requires '/' !in x
    ensures CollapseSlashes(x + s) == x + CollapseSlashes(s)
    decreases |x|
  {
    if x == [] {
      assert x + s == s;
    } else {
      calc {
        CollapseSlashes(x + s);
        == { SplitWord(x, s); }
        CollapseSlashes([x[0]] + (x[1..] + s));
        == { SplitWord(x, s); CollapseStep(x[0], x[1..] + s); }
        [x[0]] + CollapseSlashes(x[1..] + s);
        == { SplitWord(x, s); CollapseAfterWord(x[1..], s); }
        [x[0]] + (x[1..] + CollapseSlashes(s));
        == { SplitWord(x, CollapseSlashes(s)); }
        x + CollapseSlashes(s);
      }
    }
  }

  /** A `/` and a slash-free word in front of `s` pass through the collapsing untouched. */
  lemma CollapseAfterRootWord(w: string, s: string)
    requires w != [] && '/' !in w
    ensures CollapseSlashes(['/'] + (w + s)) == ['/'] + (w + CollapseSlashes(s))
  {
    assert w[0] in w;
    var t := w + s;
    CollapseLeadingSlash(t);
    CollapseAfterWord(w, s);
  }

  /** The value of a decimal digit (0 for any other character). */
  function DigitValue(c: char): nat {
    if '0' <= c <= '9' then c as int - '0' as int else 0
  }

  /** The number a string of decimal digits denotes, most significant digit first. */
  function DecimalValue(d: string): nat {
    if d == [] then 0 else DecimalValue(d[..|d| - 1]) * 10 + DigitValue(d[|d| - 1])
  }

  /** The decimal digits of `n`, as JavaScript prints a non-negative integer; `NatToDecimalDenotes` says what they mean. */
  function NatToDecimal(n: nat): (r: string)
    ensures |r| >= 1
    ensures forall i :: 0 <= i < |r| ==> '0' <= r[i] <= '9'
    decreases n
  {
    var d := [(('0' as int) + n % 10) as char];
    if n < 10 then d else NatToDecimal(n / 10) + d
  }

  /** The digits denote `n`, and only zero itself starts with the digit 0. */
  lemma {:induction false} NatToDecimalDenotes(n: nat)
    ensures var r := NatToDecimal(n); DecimalValue(r) == n && (r[0] == '0' <==> n == 0)
    decreases n
  {
    var r := NatToDecimal(n);
    var d := [(('0' as int) + n % 10) as char];
    assert DigitValue(d[0]) == n % 10;
    if n < 10 {
      assert r == d && d[..0] == [];
    } else {
      NatToDecimalDenotes(n / 10);
      assert r == NatToDecimal(n / 10) + d;
      assert r[..|r| - 1] == NatToDecimal(n / 10);
      assert r[0] == NatToDecimal(n / 10)[0];
    }
  }

  /** Different numbers print differently. */
  lemma NatToDecimalInjective(m: nat, n: nat)
    requires NatToDecimal(m) == NatToDecimal(n)
    ensures m == n
  {
    NatToDecimalDenotes(m);
    NatToDecimalDenotes(n);
  }

  /** `String(n)` for an integer `n`. */
  function IntToDecimal(n: int): string {
    if n < 0 then "-" + NatToDecimal(-n) else NatToDecimal(n)
  }
}
