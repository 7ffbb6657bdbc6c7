/** The Python `str` operations the orchestration code relies on:
    `sub in s`, `s.find(sub)`, `s.split(sep)`, `sep.join(xs)` and `s.strip()`.
    Strings are sequences of code points, as in Python 3. */
module PyStr {

  import opened Wrappers

  /** The code points Python's `str.isspace` accepts: exactly the characters
      `str.strip()` with no argument removes. */
  const Whitespace: set<char> := {
    '\t', '\n', '\U{0B}', '\U{0C}', '\r', '\U{1C}', '\U{1D}', '\U{1E}', '\U{1F}', ' ',
    '\U{85}', '\U{A0}', '\U{1680}',
    '\U{2000}', '\U{2001}', '\U{2002}', '\U{2003}', '\U{2004}', '\U{2005}',
    '\U{2006}', '\U{2007}', '\U{2008}', '\U{2009}', '\U{200A}',
    '\U{2028}', '\U{2029}', '\U{202F}', '\U{205F}', '\U{3000}'
  }

  /** Python's `c.isspace()`. */
  predicate IsSpace(c: char) {
    c in Whitespace
  }

  /** The printable ASCII characters other than the blank are not white
      space. */
  lemma PrintableNotSpace(c: char)
    requires '!' <= c <= '~'
    ensures !IsSpace(c)
  {
  }

  /** Every character is white space (also true of the empty string). */
  predicate IsBlank(s: string) {
    forall k :: 0 <= k < |s| ==> IsSpace(s[k])
  }

  /** A concatenation is blank exactly when its parts are. */
  lemma BlankConcat(a: string, c: char, b: string)
    ensures IsBlank(a + [c] + b) <==> IsBlank(a) && IsSpace(c) && IsBlank(b)
  {
    var s := a + [c] + b;
    assert forall k :: 0 <= k < |a| ==> s[k] == a[k];
    assert forall k :: 0 <= k < |b| ==> s[|a| + 1 + k] == b[k];
    assert s[|a|] == c;
  }

  /** Neither end of `s` is white space. */
  predicate IsStripped(s: string) {
    s == [] || (!IsSpace(s[0]) && !IsSpace(s[|s| - 1]))
  }

  /** `sub` occurs in `s` starting at index `i`. */
  predicate OccursAt(s: string, sub: string, i: nat) {
    i + |sub| <= |s| && s[i..i + |sub|] == sub
  }

  /** Python's `sub in s`. */
  predicate Contains(s: string, sub: string) {
    exists i: nat :: i <= |s| && OccursAt(s, sub, i)
  }

  /** A string lacking the first character of `sub` does not contain `sub`. */
  lemma AbsentFirstChar(s: string, sub: string)
    requires sub != [] && sub[0] !in s
    ensures !Contains(s, sub)
  {
    forall i: nat | i <= |s|
      ensures !OccursAt(s, sub, i)
    {
      if i + |sub| <= |s| {
        assert s[i..i + |sub|][0] == s[i];
      }
    }
  }

  /** The first occurrence of `sub` in `s` at or after `i`. */
  function FindFrom(s: string, sub: string, i: nat): (r: Option<nat>)
    requires i <= |s|
    ensures r.Some? ==> i <= r.value <= |s| && OccursAt(s, sub, r.value)
    ensures r.Some? ==> forall j: nat :: i <= j < r.value ==> !OccursAt(s, sub, j)
    ensures r.None? ==> forall j: nat :: i <= j <= |s| ==> !OccursAt(s, sub, j)
    decreases |s| - i
  {
    if OccursAt(s, sub, i) then Some(i)
    else if i == |s| then None
    else FindFrom(s, sub, i + 1)
  }

  /** Python's `s.find(sub)`, with `None` for Python's `-1`: the lowest index
      at which `sub` occurs. */
  function Find(s: string, sub: string): (r: Option<nat>)
    ensures r.Some? <==> Contains(s, sub)
    ensures r.Some? ==> OccursAt(s, sub, r.value)
    ensures r.Some? ==> forall j: nat :: j < r.value ==> !OccursAt(s, sub, j)
  {
    FindFrom(s, sub, 0)
  }

  /** A prefix that ends before the first occurrence of `sep` holds no `sep`. */
  lemma NoMatchBeforeFirst(s: string, sep: string, k: nat)
    requires sep != [] && k <= |s|
    requires forall j: nat :: j < k ==> !OccursAt(s, sep, j)
    ensures !Contains(s[..k], sep)
  {
    forall i: nat | i <= k
      ensures !OccursAt(s[..k], sep, i)
    {
      if i + |sep| <= k {
        assert s[..k][i..i + |sep|] == s[i..i + |sep|];
        assert !OccursAt(s, sep, i);
      }
    }
  }

  /** An occurrence with none before it is what `find` reports. */
  lemma FindFirst(s: string, sub: string, k: nat)
    requires OccursAt(s, sub, k)
    requires forall j: nat :: j < k ==> !OccursAt(s, sub, j)
    ensures Find(s, sub) == Some(k)
  {
    assert Contains(s, sub);
  }

  /** Python's `s.split(sep)` for a non-empty separator (an empty one raises
      `ValueError`): the pieces between the leftmost non-overlapping matches. */
  function Split(s: string, sep: string): (r: seq<string>)
    requires sep != []
    ensures |r| >= 1
    ensures |r| >= 2 <==> Contains(s, sep)
    ensures forall k :: 0 <= k < |r| ==> !Contains(r[k], sep)
    decreases |s|
  {
    match Find(s, sep)
    case None => [s]
    case Some(k) =>
      NoMatchBeforeFirst(s, sep, k);
      [s[..k]] + Split(s[k + |sep|..], sep)
  }

  /** `s.split(sep)[i]`; `None` stands for the `IndexError` Python raises. */
  function SplitPiece(s: string, sep: string, i: nat): (r: Option<string>)
    requires sep != []
    ensures i == 0 ==> r.Some?
    ensures i == 1 ==> (r.Some? <==> Contains(s, sep))
    ensures r.Some? ==> !Contains(r.value, sep)
  {
    var pieces := Split(s, sep);
    if i < |pieces| then Some(pieces[i]) else None
  }

  /** Python's `sep.join(xs)`. */
  function Join(sep: string, xs: seq<string>): string {
    if |xs| == 0 then []
    else if |xs| == 1 then xs[0]
    else xs[0] + sep + Join(sep, xs[1..])
  }

  /** Splitting and joining again with the same separator gives back the
      original string. */
  lemma {:induction false} JoinSplit(s: string, sep: string)
    requires sep != []
    ensures Join(sep, Split(s, sep)) == s
    decreases |s|
  {
    match Find(s, sep)
    case None =>
    case Some(k) =>
      var tail := s[k + |sep|..];
      var rest := Split(tail, sep);
      JoinSplit(tail, sep);
      assert Split(s, sep) == [s[..k]] + rest;
      assert ([s[..k]] + rest)[1..] == rest;
      assert Join(sep, Split(s, sep)) == s[..k] + sep + tail;
      assert s[k..k + |sep|] == sep;
      assert s == s[..k] + s[k..k + |sep|] + tail;
  }

  /** A one-character separator occurs exactly where that character does. */
  lemma ContainsChar(s: string, c: char)
    ensures Contains(s, [c]) <==> c in s
  {
    if c in s {
      var i :| 0 <= i < |s| && s[i] == c;
      assert OccursAt(s, [c], i);
    }
    if Contains(s, [c]) {
      var i: nat :| i <= |s| && OccursAt(s, [c], i);
      assert s[i] == c;
    }
  }

  /** Splitting on a character at its first occurrence. */
  lemma SplitCharCons(a: string, c: char, b: string)
    requires c !in a
    ensures Split(a + [c] + b, [c]) == [a] + Split(b, [c])
  {
    var s := a + [c] + b;
    forall j: nat | j < |a|
      ensures !OccursAt(s, [c], j)
    {
      assert s[j] == a[j];
    }
    assert s[|a|..|a| + 1] == [c];
    FindFirst(s, [c], |a|);
    assert s[..|a|] == a;
    assert s[|a| + 1..] == b;
  }

  /** A string holding `c` is its part before the first `c`, then `c`, then the rest. */
  lemma SplitAtFirstChar(a: string, c: char) returns (a1: string, a2: string)
    requires c in a
    ensures a == a1 + [c] + a2 && c !in a1 && |a2| < |a|
  {
    ContainsChar(a, c);
    var k := Find(a, [c]).value;
    assert a[k..k + 1] == [c];
    a1, a2 := a[..k], a[k + 1..];
    assert a == a1 + [c] + a2;
    NoMatchBeforeFirst(a, [c], k);
    ContainsChar(a1, c);
  }

  /** A character separator splits a concatenation piece by piece. */
  lemma {:induction false} SplitCharAppend(a: string, c: char, b: string)
    ensures Split(a + [c] + b, [c]) == Split(a, [c]) + Split(b, [c])
    decreases |a|
  {
    if c !in a {
      ContainsChar(a, c);
      SplitCharCons(a, c, b);
    } else {
      var a1, a2 := SplitAtFirstChar(a, c);
      calc {
        Split(a + [c] + b, [c]);
        { assert a + [c] + b == a1 + [c] + (a2 + [c] + b); }
        Split(a1 + [c] + (a2 + [c] + b), [c]);
        { SplitCharCons(a1, c, a2 + [c] + b); }
        [a1] + Split(a2 + [c] + b, [c]);
        { SplitCharAppend(a2, c, b); }
        [a1] + (Split(a2, [c]) + Split(b, [c]));
        ([a1] + Split(a2, [c])) + Split(b, [c]);
        { SplitCharCons(a1, c, a2); }
        Split(a, [c]) + Split(b, [c]);
      }
    }
  }

  /** No piece of a split on a character holds that character. */
  lemma SplitCharPieces(s: string, c: char)
    ensures forall k :: 0 <= k < |Split(s, [c])| ==> c !in Split(s, [c])[k]
  {
    var pieces := Split(s, [c]);
    forall k | 0 <= k < |pieces|
      ensures c !in pieces[k]
    {
      ContainsChar(pieces[k], c);
    }
  }

  /** The first piece of a split is the text before the first match. */
  lemma SplitHead(s: string, sep: string)
    requires sep != []
    ensures Find(s, sep).None? ==> Split(s, sep)[0] == s
    ensures Find(s, sep).Some? ==> Split(s, sep)[0] == s[..Find(s, sep).value]
  {
  }

  /** Joining on a character that no piece holds is undone by splitting. */
  lemma {:induction false} SplitJoinChar(c: char, xs: seq<string>)
    requires |xs| >= 1
    requires forall k :: 0 <= k < |xs| ==> c !in xs[k]
    ensures Split(Join([c], xs), [c]) == xs
    decreases |xs|
  {
    if |xs| == 1 {
      ContainsChar(xs[0], c);
    } else {
      SplitJoinChar(c, xs[1..]);
      SplitCharCons(xs[0], c, Join([c], xs[1..]));
      assert xs == [xs[0]] + xs[1..];
    }
  }

  /** Joining one more piece appends the separator and the piece. */
  lemma {:induction false} JoinAppend(sep: string, xs: seq<string>, x: string)
    ensures Join(sep, xs + [x]) == if xs == [] then x else Join(sep, xs) + sep + x
    decreases |xs|
  {
    if |xs| == 0 {
      assert xs + [x] == [x];
    } else if |xs| == 1 {
      assert (xs + [x])[1..] == [x];
    } else {
      assert (xs + [x])[1..] == xs[1..] + [x];
      JoinAppend(sep, xs[1..], x);
    }
  }

  /** Number of white-space characters at the front of `s`. */
  function LeadingSpaces(s: string): (n: nat)
    ensures n <= |s|
  {
    if |s| > 0 && IsSpace(s[0]) then 1 + LeadingSpaces(s[1..]) else 0
  }

  /** `LeadingSpaces` counts only white space. */
  lemma {:induction false} LeadingSpacesRun(s: string)
    ensures forall k :: 0 <= k < LeadingSpaces(s) ==> IsSpace(s[k])
    decreases |s|
  {
    if |s| > 0 && IsSpace(s[0]) {
      var rest := s[1..];
      LeadingSpacesRun(rest);
      forall k | 1 <= k < 1 + LeadingSpaces(rest) ensures IsSpace(s[k]) {
        assert s[k] == rest[k - 1];
      }
    }
  }

  /** `LeadingSpaces` stops at the first character that is not white space. */
  lemma {:induction false} LeadingSpacesStop(s: string)
    ensures LeadingSpaces(s) < |s| ==> !IsSpace(s[LeadingSpaces(s)])
    decreases |s|
  {
    if |s| > 0 && IsSpace(s[0]) {
      var rest := s[1..];
      LeadingSpacesStop(rest);
      if 1 + LeadingSpaces(rest) < |s| {
        assert s[1 + LeadingSpaces(rest)] == rest[LeadingSpaces(rest)];
      }
    }
  }

  /** Number of white-space characters at the back of `s`. */
  function TrailingSpaces(s: string): (n: nat)
    ensures n <= |s|
  {
    if |s| > 0 && IsSpace(s[|s| - 1]) then 1 + TrailingSpaces(s[..|s| - 1]) else 0
  }

  /** `TrailingSpaces` counts only white space. */
  lemma {:induction false} TrailingSpacesRun(s: string)
    ensures forall k :: |s| - TrailingSpaces(s) <= k < |s| ==> IsSpace(s[k])
    decreases |s|
  {
    if |s| > 0 && IsSpace(s[|s| - 1]) {
      var init := s[..|s| - 1];
      TrailingSpacesRun(init);
      forall k | |s| - 1 - TrailingSpaces(init) <= k < |s| - 1 ensures IsSpace(s[k]) {
        assert s[k] == init[k];
      }
    }
  }

  /** `TrailingSpaces` stops at the last character that is not white space. */
  lemma {:induction false} TrailingSpacesStop(s: string)
    ensures TrailingSpaces(s) < |s| ==> !IsSpace(s[|s| - 1 - TrailingSpaces(s)])
    decreases |s|
  {
    if |s| > 0 && IsSpace(s[|s| - 1]) {
      var init := s[..|s| - 1];
      TrailingSpacesStop(init);
      if 1 + TrailingSpaces(init) < |s| {
        assert s[|s| - 2 - TrailingSpaces(init)] == init[|init| - 1 - TrailingSpaces(init)];
      }
    }
  }

  /** `r` is `s` with white space removed from both ends: a stripped infix of
      `s` with only white space around it. */
  ghost predicate StripsTo(s: string, r: string) {
    && IsStripped(r)
    && exists i: nat :: OccursAt(s, r, i) && IsBlank(s[..i]) && IsBlank(s[i + |r|..])
  }

  /** Around a witness of `StripsTo` there is only white space. */
  lemma WitnessSurroundings(s: string, r: string, i: nat)
    requires OccursAt(s, r, i) && IsBlank(s[..i]) && IsBlank(s[i + |r|..])
    ensures forall k :: 0 <= k < i ==> IsSpace(s[k])
    ensures forall k :: i + |r| <= k < |s| ==> IsSpace(s[k])
  {
    var e := i + |r|;
    forall k | 0 <= k < i
      ensures IsSpace(s[k])
    {
      assert s[..i][k] == s[k];
    }
    forall k | e <= k < |s|
      ensures IsSpace(s[k])
    {
      assert s[e..][k - e] == s[k];
    }
  }

  /** A stripped infix with only white space around it is what `s` strips
      to. */
  lemma WitnessStripsTo(s: string, r: string, i: nat)
    requires IsStripped(r)
    requires OccursAt(s, r, i) && IsBlank(s[..i]) && IsBlank(s[i + |r|..])
    ensures StripsTo(s, r)
    ensures r == [] <==> IsBlank(s)
  {
    StripsToWitness(s, r, i);
  }

  /** A string strips to nothing exactly when it is blank. */
  lemma StripsToWitness(s: string, r: string, i: nat)
    requires IsStripped(r)
    requires OccursAt(s, r, i) && IsBlank(s[..i]) && IsBlank(s[i + |r|..])
    ensures r == [] <==> IsBlank(s)
  {
    WitnessSurroundings(s, r, i);
    if r != [] {
      assert s[i] == r[0];
    }
  }

  /** Two witnesses of `StripsTo` for the same string are the same infix:
      each starts at the first non-space and ends after the last. */
  lemma WitnessesAgree(s: string, r1: string, i1: nat, r2: string, i2: nat)
    requires IsStripped(r1) && OccursAt(s, r1, i1) && IsBlank(s[..i1]) && IsBlank(s[i1 + |r1|..])
    requires IsStripped(r2) && OccursAt(s, r2, i2) && IsBlank(s[..i2]) && IsBlank(s[i2 + |r2|..])
    ensures r1 == r2
  {
    StripsToWitness(s, r1, i1);
    StripsToWitness(s, r2, i2);
    if r1 != [] && r2 != [] {
      WitnessSurroundings(s, r1, i1);
      WitnessSurroundings(s, r2, i2);
      var e1, e2 := i1 + |r1|, i2 + |r2|;
      assert s[i1] == r1[0] && s[i2] == r2[0];
      assert s[e1 - 1] == r1[|r1| - 1] && s[e2 - 1] == r2[|r2| - 1];
      assert i1 == i2;
      assert e1 == e2;
    }
  }

  /** Python's `s.strip()`. */
  function Strip(s: string): (r: string)
    ensures StripsTo(s, r)
    ensures r == [] <==> IsBlank(s)
  {
    var l := LeadingSpaces(s);
    var t := TrailingSpaces(s[l..]);
    StripSliceStripped(s, l, t);
    StripSliceSurroundings(s, l, t);
    SliceStripsTo(s, l, |s| - t);
    s[l..|s| - t]
  }

  /** The white space `LeadingSpaces` counts is blank. */
  lemma LeadingBlank(s: string)
    ensures IsBlank(s[..LeadingSpaces(s)])
  {
    var l := LeadingSpaces(s);
    LeadingSpacesRun(s);
    forall k | 0 <= k < l ensures IsSpace(s[..l][k]) {
      assert s[..l][k] == s[k];
    }
  }

  /** The white space `TrailingSpaces` counts is blank. */
  lemma TrailingSpacesBlank(x: string)
    ensures IsBlank(x[|x| - TrailingSpaces(x)..])
  {
    var t := TrailingSpaces(x);
    TrailingSpacesRun(x);
    var tail := x[|x| - t..];
    forall k | 0 <= k < |tail| ensures IsSpace(tail[k]) {
      assert tail[k] == x[|x| - t + k];
    }
  }

  /** The white space `TrailingSpaces` counts at the end of a suffix of `s`
      is blank. */
  lemma TrailingBlank(s: string, l: nat)
    requires l <= |s|
    ensures TrailingSpaces(s[l..]) <= |s| - l
    ensures IsBlank(s[|s| - TrailingSpaces(s[l..])..])
  {
    var rest := s[l..];
    TrailingSpacesBlank(rest);
    assert s[|s| - TrailingSpaces(rest)..] == rest[|rest| - TrailingSpaces(rest)..];
  }

  /** Before the white space `TrailingSpaces` counts at the end of a suffix
      of `s` comes a character that is not white space. */
  lemma TrailingStop(s: string, l: nat)
    requires l <= |s|
    ensures TrailingSpaces(s[l..]) < |s| - l ==> !IsSpace(s[|s| - 1 - TrailingSpaces(s[l..])])
  {
    var rest := s[l..];
    TrailingSpacesStop(rest);
    if TrailingSpaces(rest) < |rest| {
      assert s[|s| - 1 - TrailingSpaces(rest)] == rest[|rest| - 1 - TrailingSpaces(rest)];
    }
  }

  /** A slice of `s` occurs in `s` where it was taken. */
  lemma SliceOccurs(s: string, i: nat, j: nat)
    requires i <= j <= |s|
    ensures OccursAt(s, s[i..j], i)
  {
    assert i + |s[i..j]| == j;
  }

  /** A slice whose end characters are not white space is stripped. */
  lemma SliceStripped(s: string, i: nat, j: nat)
    requires i <= j <= |s|
    requires i < j ==> !IsSpace(s[i]) && !IsSpace(s[j - 1])
    ensures IsStripped(s[i..j])
  {
    if i < j {
      assert s[i..j][0] == s[i];
      assert s[i..j][j - i - 1] == s[j - 1];
    }
  }

  /** Cutting `l` characters from the front and `t` from the back of `s`,
      where each cut stops at a character that is not white space, leaves a
      stripped string. */
  lemma StopsStripped(s: string, l: nat, t: nat)
    requires l + t <= |s|
    requires l < |s| ==> !IsSpace(s[l])
    requires t < |s| - l ==> !IsSpace(s[|s| - 1 - t])
    ensures IsStripped(s[l..|s| - t])
  {
    SliceStripped(s, l, |s| - t);
  }

  /** The slice `Strip` takes has no white space at either end. */
  lemma StripSliceStripped(s: string, l: nat, t: nat)
    requires l == LeadingSpaces(s) && t == TrailingSpaces(s[l..])
    ensures l + t <= |s|
    ensures IsStripped(s[l..|s| - t])
  {
    LeadingSpacesStop(s);
    TrailingStop(s, l);
    StopsStripped(s, l, t);
  }

  /** Only white space lies around the slice `Strip` takes. */
  lemma StripSliceSurroundings(s: string, l: nat, t: nat)
    requires l == LeadingSpaces(s) && t == TrailingSpaces(s[l..])
    ensures l + t <= |s|
    ensures IsBlank(s[..l]) && IsBlank(s[|s| - t..])
  {
    LeadingBlank(s);
    TrailingBlank(s, l);
  }

  /** A stripped slice with only white space around it is what `s`
      strips to. */
  lemma SliceStripsTo(s: string, i: nat, j: nat)
    requires i <= j <= |s|
    requires IsStripped(s[i..j])
    requires IsBlank(s[..i]) && IsBlank(s[j..])
    ensures StripsTo(s, s[i..j])
    ensures s[i..j] == [] <==> IsBlank(s)
  {
    SliceOccurs(s, i, j);
    assert i + |s[i..j]| == j;
    WitnessStripsTo(s, s[i..j], i);
  }

  /** Only one string is `s` stripped: `StripsTo` pins `Strip` down. */
  lemma StripsToUnique(s: string, r1: string, r2: string)
    requires StripsTo(s, r1) && StripsTo(s, r2)
    ensures r1 == r2
  {
    var i1: nat :| OccursAt(s, r1, i1) && IsBlank(s[..i1]) && IsBlank(s[i1 + |r1|..]);
    var i2: nat :| OccursAt(s, r2, i2) && IsBlank(s[..i2]) && IsBlank(s[i2 + |r2|..]);
    WitnessesAgree(s, r1, i1, r2, i2);
  }

  /** A string already stripped is left as it is. */
  lemma StripOfStripped(s: string)
    requires IsStripped(s)
    ensures Strip(s) == s
  {
    assert OccursAt(s, s, 0);
    assert s[..0] == [] && s[|s|..] == [];
    StripsToUnique(s, s, Strip(s));
  }

  /** Stripping twice changes nothing. */
  lemma StripIdempotent(s: string)
    ensures Strip(Strip(s)) == Strip(s)
  {
    StripOfStripped(Strip(s));
  }

  /** Where `strip`'s result sits in its argument. */
  lemma StripWitness(s: string) returns (i: nat)
    ensures IsStripped(Strip(s))
    ensures OccursAt(s, Strip(s), i) && IsBlank(s[..i]) && IsBlank(s[i + |Strip(s)|..])
  {
    var r := Strip(s);
    i :| OccursAt(s, r, i) && IsBlank(s[..i]) && IsBlank(s[i + |r|..]);
  }

  /** White space in front of a string keeps the witness of its stripped
      form, one place further on. */
  lemma ConsSpaceWitness(c: char, q: string, r: string, i: nat)
    requires IsSpace(c) && IsStripped(r)
    requires OccursAt(q, r, i) && IsBlank(q[..i]) && IsBlank(q[i + |r|..])
    ensures StripsTo([c] + q, r)
  {
    var s := [c] + q;
    assert s[i + 1..i + 1 + |r|] == q[i..i + |r|];
    assert s[..i + 1] == [c] + q[..i];
    assert s[i + 1 + |r|..] == q[i + |r|..];
    WitnessStripsTo(s, r, i + 1);
  }

  /** A leading white-space character makes no difference to `strip`. */
  lemma StripLeadingSpace(c: char, q: string)
    requires IsSpace(c)
    ensures Strip([c] + q) == Strip(q)
  {
    var i := StripWitness(q);
    ConsSpaceWitness(c, q, Strip(q), i);
    StripsToUnique([c] + q, Strip(q), Strip([c] + q));
  }

  /** An infix keeps only characters of the string it sits in. */
  lemma InfixKeepsChars(s: string, r: string, i: nat, c: char)
    requires OccursAt(s, r, i)
    ensures c in r ==> c in s
  {
    if c in r {
      var k :| 0 <= k < |r| && r[k] == c;
      assert s[i..i + |r|][k] == s[i + k];
    }
  }

  /** `strip` keeps only characters of its argument. */
  lemma StripKeepsChars(s: string, c: char)
    ensures c in Strip(s) ==> c in s
  {
    var i := StripWitness(s);
    InfixKeepsChars(s, Strip(s), i, c);
  }

  /** An infix of a string lacking `sub` lacks it too. */
  lemma InfixKeepsAbsence(s: string, r: string, i: nat, sub: string)
    requires OccursAt(s, r, i) && !Contains(s, sub)
    ensures !Contains(r, sub)
  {
    forall j: nat | j <= |r|
      ensures !OccursAt(r, sub, j)
    {
      if j + |sub| <= |r| {
        var e := j + |sub|;
        forall k | 0 <= k < |sub| ensures r[j..e][k] == s[i + j..i + e][k] {
          assert r[j + k] == s[i..i + |r|][j + k] == s[i + j + k];
        }
        assert r[j..e] == s[i + j..i + e];
        assert !OccursAt(s, sub, i + j);
      }
    }
  }

  /** A substring of a stripped string is a substring of the original. */
  lemma StripKeepsAbsence(s: string, sub: string)
    requires !Contains(s, sub)
    ensures !Contains(Strip(s), sub)
  {
    var i := StripWitness(s);
    InfixKeepsAbsence(s, Strip(s), i, sub);
  }
}
