/**
 * The Python `str` operations the lead pipeline uses, restricted to ASCII:
 * `lower`, `title`, `strip`/`rstrip`, `startswith`, `in`, `split`, `join`,
 * `replace` and slicing `[:n]`.
 */
module Str {

  predicate IsUpper(c: char) { 'A' <= c <= 'Z' }
  predicate IsLower(c: char) { 'a' <= c <= 'z' }
  predicate IsLetter(c: char) { IsUpper(c) || IsLower(c) }
  predicate IsDigit(c: char) { '0' <= c <= '9' }

  /** `str.isalnum` on one ASCII character. */
  predicate IsAlnum(c: char) { IsLetter(c) || IsDigit(c) }

  /** `str.isspace` on ASCII: space, \t \n \v \f \r and the separators 0x1c-0x1f. */
  predicate IsSpace(c: char)
  {
    c == ' ' || (9 <= c as int <= 13) || (28 <= c as int <= 31)
  }

  function LowerChar(c: char): char
  {
    if IsUpper(c) then (c as int + 32) as char else c
  }

  function UpperChar(c: char): char
  {
    if IsLower(c) then (c as int - 32) as char else c
  }

  /** `s.lower()` */
  function Lower(s: string): (r: string)
    ensures |r| == |s|
  {
    seq(|s|, i requires 0 <= i < |s| => LowerChar(s[i]))
  }

  /** `s.startswith(prefix)` */
  predicate StartsWith(s: string, prefix: string)
  {
    |prefix| <= |s| && s[..|prefix|] == prefix
  }

  /** `pat in s` */
  predicate Contains(s: string, pat: string)
  {
    exists i | 0 <= i <= |s| :: StartsWith(s[i..], pat)
  }

  /** `any(p in s for p in pats)` */
  function ContainsAny(s: string, pats: seq<string>): (r: bool)
    ensures r <==> exists k | 0 <= k < |pats| :: Contains(s, pats[k])
  {
    if pats == [] then false
    else ContainsAny(s, pats[..|pats| - 1]) || Contains(s, pats[|pats| - 1])
  }

  /** `s[:n]` for a non-negative n */
  function Take(s: string, n: nat): (r: string)
    ensures |r| <= n && StartsWith(s, r)
    ensures |s| <= n ==> r == s
  {
    if |s| <= n then s else s[..n]
  }

  /** `s.lstrip()` */
  function LStrip(s: string): (r: string)
    ensures |r| <= |s| && r == s[|s| - |r|..]
    ensures r == [] || !IsSpace(r[0])
    ensures forall i | 0 <= i < |s| - |r| :: IsSpace(s[i])
  {
    if |s| > 0 && IsSpace(s[0]) then LStrip(s[1..]) else s
  }

  /** `s.rstrip()` */
  function RStrip(s: string): (r: string)
    ensures |r| <= |s| && r == s[..|r|]
    ensures r == [] || !IsSpace(r[|r| - 1])
    ensures forall i | |r| <= i < |s| :: IsSpace(s[i])
  {
    if |s| > 0 && IsSpace(s[|s| - 1]) then RStrip(s[..|s| - 1]) else s
  }

  /** `s.strip()` */
  function Strip(s: string): string
  {
    LStrip(RStrip(s))
  }

  /** `s.split(sep)` for a non-empty separator: scans left to right, cutting at
      every non-overlapping occurrence of `sep`. */
  function Split(s: string, sep: string): (parts: seq<string>)
    requires sep != []
    ensures |parts| >= 1
    decreases |s|
  {
    if |s| < |sep| then [s]
    else if s[..|sep|] == sep then [""] + Split(s[|sep|..], sep)
    else
      var rest := Split(s[1..], sep);
      [[s[0]] + rest[0]] + rest[1..]
  }

  /** `sep.join(parts)` */
  function Join(parts: seq<string>, sep: string): string
  {
    if |parts| == 0 then ""
    else if |parts| == 1 then parts[0]
    else parts[0] + sep + Join(parts[1..], sep)
  }

  /** `s.replace(old, new)` for a non-empty `old` */
  function Replace(s: string, pat: string, repl: string): string
    requires pat != []
  {
    Join(Split(s, pat), repl)
  }

  /** `s.title()`: a letter is upper-cased when it starts a run of letters
      and lower-cased otherwise; every other character is kept. */
  function Title(s: string): string
  {
    TitleFrom(s, false)
  }

  function TitleFrom(s: string, afterLetter: bool): (r: string)
    ensures |r| == |s|
  {
    if s == [] then []
    else if IsLetter(s[0]) then
      [if afterLetter then LowerChar(s[0]) else UpperChar(s[0])] + TitleFrom(s[1..], true)
    else [s[0]] + TitleFrom(s[1..], false)
  }

  /** `s == s.strip()` */
  predicate IsStripped(s: string)
  {
    s == [] || (!IsSpace(s[0]) && !IsSpace(s[|s| - 1]))
  }

  /** No occurrence of `sep` starts inside `x` when `x` is followed by `y`. */
  ghost predicate NoMatchWithin(x: string, y: string, sep: string)
  {
    forall i | 0 <= i < |x| :: !StartsWith((x + y)[i..], sep)
  }

  // ---------------------------------------------------------------------------
  // Lemmas

  /** Joining the pieces of a split with the same separator gives back the string. */
  lemma {:induction false} JoinSplit(s: string, sep: string)
    requires sep != []
    ensures Join(Split(s, sep), sep) == s
    decreases |s|
  {
    if |s| < |sep| {
    } else if s[..|sep|] == sep {
      var tail := s[|sep|..];
      var rest := Split(tail, sep);
      assert Split(s, sep) == [""] + rest;
      JoinSplit(tail, sep);
      assert ([""] + rest)[1..] == rest;
      assert Join([""] + rest, sep) == "" + sep + Join(rest, sep);
      assert s == sep + tail;
    } else {
      var tail := s[1..];
      var rest := Split(tail, sep);
      assert Split(s, sep) == [[s[0]] + rest[0]] + rest[1..];
      JoinSplit(tail, sep);
      JoinConsChar(s[0], rest, sep);
      assert s == [s[0]] + tail;
    }
  }

  lemma JoinConsChar(c: char, parts: seq<string>, sep: string)
    requires |parts| >= 1
    ensures Join([[c] + parts[0]] + parts[1..], sep) == [c] + Join(parts, sep)
  {
    var p := [[c] + parts[0]] + parts[1..];
    if |parts| > 1 {
      assert p[1..] == parts[1..];
    }
  }

  /** A string that contains the separator splits into at least two parts. */
  lemma {:induction false} SplitContains(s: string, sep: string)
    requires sep != [] && Contains(s, sep)
    ensures |Split(s, sep)| >= 2
    decreases |s|
  {
    var i :| 0 <= i <= |s| && StartsWith(s[i..], sep);
    if |s| < |sep| {
      assert false;
    } else if s[..|sep|] == sep {
    } else {
      assert i != 0;
      assert s[1..][i - 1..] == s[i..];
      SplitContains(s[1..], sep);
    }
  }

  /** A string without the separator splits into itself alone. */
  lemma {:induction false} SplitAbsent(s: string, sep: string)
    requires sep != [] && !Contains(s, sep)
    ensures Split(s, sep) == [s]
    decreases |s|
  {
    if |s| < |sep| {
    } else {
      assert StartsWith(s[0..], sep) == (s[..|sep|] == sep);
      assert s[1..] == s[1..];
      forall i | 0 <= i <= |s[1..]|
        ensures !StartsWith(s[1..][i..], sep)
      {
        assert s[1..][i..] == s[i + 1..];
      }
      SplitAbsent(s[1..], sep);
      assert s == [s[0]] + s[1..];
    }
  }

  /** The first part of a split is unaffected by a prefix in which no occurrence starts. */
  lemma {:induction false} SplitHead(x: string, y: string, sep: string)
    requires sep != [] && NoMatchWithin(x, y, sep)
    ensures Split(x + y, sep)[0] == x + Split(y, sep)[0]
    ensures Split(x + y, sep)[1..] == Split(y, sep)[1..]
    decreases |x|
  {
    if x == [] {
      assert x + y == y;
    } else if |x + y| < |sep| {
      assert Split(y, sep) == [y];
    } else {
      var xy := x + y;
      var tail := x[1..] + y;
      assert !StartsWith(xy[0..], sep);
      assert xy[0..] == xy;
      assert xy[1..] == tail;
      var rest := Split(tail, sep);
      assert Split(xy, sep) == [[xy[0]] + rest[0]] + rest[1..];
      forall i | 0 <= i < |x[1..]|
        ensures !StartsWith(tail[i..], sep)
      {
        assert tail[i..] == xy[i + 1..];
      }
      SplitHead(x[1..], y, sep);
      assert x == [x[0]] + x[1..];
    }
  }

  /** A prefix `x` in which no occurrence starts becomes the first part on its own
      when `y` begins with the separator. */
  lemma SplitAtSeparator(x: string, y: string, sep: string)
    requires sep != [] && NoMatchWithin(x, sep + y, sep)
    ensures Split(x + sep + y, sep) == [x] + Split(y, sep)
  {
    var z := sep + y;
    assert x + sep + y == x + z;
    SplitHead(x, z, sep);
    assert z[..|sep|] == sep;
    assert z[|sep|..] == y;
    assert Split(z, sep) == [""] + Split(y, sep);
    var parts := Split(x + z, sep);
    assert parts[0] == x + "" == x;
    assert parts == [parts[0]] + parts[1..];
  }

  /** No occurrence starts in `a + b` when none starts in `a` (followed by
      `b + y`) and none starts in `b` (followed by `y`). */
  lemma NoMatchConcat(a: string, b: string, y: string, sep: string)
    requires NoMatchWithin(a, b + y, sep) && NoMatchWithin(b, y, sep)
    ensures NoMatchWithin(a + b, y, sep)
  {
    forall i | 0 <= i < |a + b|
      ensures !StartsWith((a + b + y)[i..], sep)
    {
      if i < |a| {
        assert (a + b + y)[i..] == (a + (b + y))[i..];
      } else {
        assert (a + b + y)[i..] == (b + y)[i - |a|..];
      }
    }
  }

  /** An occurrence cannot start in `x` when `x` holds none and `y` begins with a
      character that occurs nowhere after the separator's first character. */
  lemma NoStraddle(x: string, y: string, sep: string)
    requires sep != [] && !Contains(x, sep)
    requires |y| > 0 && y[0] !in sep[1..]
    ensures NoMatchWithin(x, y, sep)
  {
    forall i | 0 <= i < |x|
      ensures !StartsWith((x + y)[i..], sep)
    {
      if i + |sep| <= |x| {
        assert !StartsWith(x[i..], sep);
        assert x[i..][..|sep|] == (x + y)[i..][..|sep|];
      } else if |sep| <= |(x + y)[i..]| {
        var k := |x| - i;
        assert sep[1..][k - 1] == sep[k];
        assert (x + y)[i..][..|sep|][k] == y[0] != sep[k];
      }
    }
  }

  /** A single-character separator: a word free of it followed by it splits off whole. */
  lemma {:induction false} SplitWordThenSep(w: string, t: string, sep: char)
    requires sep !in w
    ensures Split(w + [sep] + t, [sep]) == [w] + Split(t, [sep])
    decreases |w|
  {
    var s := w + [sep] + t;
    if w == [] {
      assert s == [sep] + t && s[..1] == [sep] && s[1..] == t;
    } else {
      assert s[..1] == [w[0]] != [sep];
      assert s[1..] == w[1..] + [sep] + t;
      SplitWordThenSep(w[1..], t, sep);
      assert [w[0]] + w[1..] == w;
    }
  }

  /** A single-character separator absent from `w`: `w` splits into itself. */
  lemma SplitNoChar(w: string, sep: char)
    requires sep !in w
    ensures Split(w, [sep]) == [w]
  {
    forall i | 0 <= i <= |w|
      ensures !StartsWith(w[i..], [sep])
    {
      if i < |w| {
        assert w[i..][..1] == [w[i]];
      }
    }
    SplitAbsent(w, [sep]);
  }

  /** Splitting the join of words that never contain the separator gives the words back. */
  lemma {:induction false} SplitJoin(words: seq<string>, sep: char)
    requires forall k | 0 <= k < |words| :: sep !in words[k]
    requires words != []
    ensures Split(Join(words, [sep]), [sep]) == words
    decreases |words|
  {
    if |words| == 1 {
      SplitNoChar(words[0], sep);
    } else {
      SplitJoin(words[1..], sep);
      SplitWordThenSep(words[0], Join(words[1..], [sep]), sep);
      assert words == [words[0]] + words[1..];
    }
  }

  /** Two separators of equal length give joins of equal length. */
  lemma {:induction false} JoinLength(words: seq<string>, a: string, b: string)
    requires |a| == |b|
    ensures |Join(words, a)| == |Join(words, b)|
    decreases |words|
  {
    if |words| > 1 {
      JoinLength(words[1..], a, b);
    }
  }

  /** `title()` characterised position by position: a letter is upper-cased exactly
      when no letter precedes it, lower-cased otherwise; other characters are kept. */
  lemma {:induction false} TitleAt(s: string, afterLetter: bool, i: nat)
    requires i < |s|
    ensures TitleFrom(s, afterLetter)[i] ==
      if !IsLetter(s[i]) then s[i]
      else if (if i == 0 then afterLetter else IsLetter(s[i - 1])) then LowerChar(s[i])
      else UpperChar(s[i])
    decreases i
  {
    if i > 0 {
      TitleAt(s[1..], IsLetter(s[0]), i - 1);
      assert s[1..][i - 1] == s[i];
      if i > 1 {
        assert s[1..][i - 2] == s[i - 1];
      }
    }
  }

  /** A separator whose second character differs from its first cannot occur
      in, or start inside, a string free of that second character. */
  lemma NoMatchBySecondChar(x: string, y: string, sep: string)
    requires |sep| >= 2 && sep[0] != sep[1] && sep[1] !in x
    ensures !Contains(x, sep)
    ensures NoMatchWithin(x, sep + y, sep)
  {
    forall i | 0 <= i <= |x|
      ensures !StartsWith(x[i..], sep)
    {
      if |sep| <= |x[i..]| {
        assert x[i..][..|sep|][1] == x[i + 1] != sep[1];
      }
    }
    forall i | 0 <= i < |x|
      ensures !StartsWith((x + sep + y)[i..], sep)
    {
      var z := x + sep + y;
      assert |sep| <= |z[i..]|;
      if i + 1 < |x| {
        assert z[i..][..|sep|][1] == x[i + 1] != sep[1];
      } else {
        assert z[i..][..|sep|][1] == sep[0] != sep[1];
      }
    }
  }

  /** Splitting the join of words free of the separator's second character gives the words back. */
  lemma {:induction false} SplitJoinBySecondChar(words: seq<string>, sep: string)
    requires |sep| >= 2 && sep[0] != sep[1]
    requires forall k | 0 <= k < |words| :: sep[1] !in words[k]
    requires words != []
    ensures Split(Join(words, sep), sep) == words
    decreases |words|
  {
    NoMatchBySecondChar(words[0], Join(words[1..], sep), sep);
    if |words| == 1 {
      SplitAbsent(words[0], sep);
    } else {
      SplitJoinBySecondChar(words[1..], sep);
      assert words[0] + sep + Join(words[1..], sep) == words[0] + (sep + Join(words[1..], sep));
      SplitAtSeparator(words[0], Join(words[1..], sep), sep);
      assert words == [words[0]] + words[1..];
    }
  }

  /** Lower-casing twice is lower-casing once. */
  lemma LowerIdempotent(s: string)
    ensures Lower(Lower(s)) == Lower(s)
  {
    forall i | 0 <= i < |s|
      ensures Lower(Lower(s))[i] == Lower(s)[i]
    {
    }
  }

  /** Containment is transitive. */
  lemma ContainsTrans(s: string, p: string, q: string)
    requires Contains(s, p) && Contains(p, q)
    ensures Contains(s, q)
  {
    var i :| 0 <= i <= |s| && StartsWith(s[i..], p);
    var j :| 0 <= j <= |p| && StartsWith(p[j..], q);
    assert s[i..][..|p|] == p;
    forall k | 0 <= k < |q|
      ensures s[i + j + k] == q[k]
    {
      assert s[i + j + k] == s[i..][..|p|][j + k];
      assert q[k] == p[j..][..|q|][k];
    }
    assert s[i + j..][..|q|] == q;
  }

  /** Stripping a stripped string changes nothing. */
  lemma StripStripped(s: string)
    requires IsStripped(s)
    ensures Strip(s) == s
  {
    if s != [] {
      assert RStrip(s) == s;
    }
  }

  /** `(" " + s).strip()` is `s` for an already stripped `s`. */
  lemma StripPadded(s: string)
    requires IsStripped(s)
    ensures Strip(" " + s) == s
  {
    if s == [] {
      assert RStrip(" ") == RStrip("");
    } else {
      assert RStrip(" " + s) == " " + s;
      assert (" " + s)[1..] == s;
      assert LStrip(" " + s) == LStrip(s);
    }
  }

  /** `(prefix + " " + s).replace(prefix, "").strip()` gives back `s` when `s` is
      stripped and holds no copy of `prefix`, which does not start with a space. */
  lemma RemovePrefixAndStrip(prefix: string, s: string)
    requires prefix != [] && prefix[0] != ' '
    requires IsStripped(s) && !Contains(s, prefix)
    ensures Strip(Replace(prefix + " " + s, prefix, "")) == s
  {
    var z := " " + s;
    forall i | 0 <= i <= |z|
      ensures !StartsWith(z[i..], prefix)
    {
      if i == 0 {
        assert z[..1] == " ";
        if |prefix| <= |z| {
          assert z[..|prefix|][0] == ' ';
        }
      } else {
        assert z[i..] == s[i - 1..];
      }
    }
    SplitAbsent(z, prefix);
    assert NoMatchWithin("", prefix + z, prefix);
    SplitAtSeparator("", z, prefix);
    assert "" + prefix + z == prefix + " " + s;
    assert Split(prefix + " " + s, prefix) == ["", z];
    assert Join(["", z], "") == z;
    StripPadded(s);
  }

  /** Replacing a single character, one position at a time. */
  lemma ReplaceCharCons(s: string, a: char, b: char)
    requires s != []
    ensures Replace(s, [a], [b]) == (if s[0] == a then [b] else [s[0]]) + Replace(s[1..], [a], [b])
  {
    var rest := Split(s[1..], [a]);
    if s[..1] == [a] {
      assert Split(s, [a]) == [""] + rest;
      assert ([""] + rest)[1..] == rest;
    } else {
      JoinConsChar(s[0], rest, [b]);
    }
  }

  /** `s.replace(a, b)` for single characters, position by position. */
  lemma {:induction false} ReplaceCharAt(s: string, a: char, b: char)
    ensures |Replace(s, [a], [b])| == |s|
    ensures forall i | 0 <= i < |s| :: Replace(s, [a], [b])[i] == if s[i] == a then b else s[i]
    decreases |s|
  {
    if s != [] {
      ReplaceCharCons(s, a, b);
      ReplaceCharAt(s[1..], a, b);
      assert forall i | 1 <= i < |s| :: s[1..][i - 1] == s[i];
    }
  }

  /** A property every character of the words and of the separator has, every
      character of the join has. */
  lemma {:induction false} JoinPreserves(words: seq<string>, sep: string, ok: char -> bool)
    requires forall i | 0 <= i < |sep| :: ok(sep[i])
    requires forall k, i | 0 <= k < |words| && 0 <= i < |words[k]| :: ok(words[k][i])
    ensures forall i | 0 <= i < |Join(words, sep)| :: ok(Join(words, sep)[i])
    decreases |words|
  {
    if |words| > 1 {
      JoinPreserves(words[1..], sep, ok);
      var rest := Join(words[1..], sep);
      var j := words[0] + sep + rest;
      forall i | 0 <= i < |j|
        ensures ok(j[i])
      {
        if i < |words[0]| {
        } else if i < |words[0]| + |sep| {
          assert j[i] == sep[i - |words[0]|];
        } else {
          assert j[i] == rest[i - |words[0]| - |sep|];
        }
      }
    }
  }

  /** The join ends with the last character of its last word. */
  lemma {:induction false} JoinLast(words: seq<string>, sep: string)
    requires words != [] && words[|words| - 1] != []
    ensures |Join(words, sep)| > 0
    ensures Join(words, sep)[|Join(words, sep)| - 1] == words[|words| - 1][|words[|words| - 1]| - 1]
    decreases |words|
  {
    if |words| > 1 {
      JoinLast(words[1..], sep);
    }
  }
}
