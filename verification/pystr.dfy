/**
  The Python string operations the wrapper generator and the label extractor
  use, on `seq<char>`: `str.lower`, `str.replace`, `str.rstrip`, `str.strip`,
  `", ".join`, and the two regular-expression rewrites applied to a label.
 */
module PyStr {
  import opened Values
  import opened Decimal

  predicate IsUpper(c: char) {
    'A' <= c <= 'Z'
  }

  predicate IsLowerAlpha(c: char) {
    'a' <= c <= 'z'
  }

  /** The character class `[A-Za-z0-9]`. */
  predicate IsAlnum(c: char) {
    IsUpper(c) || IsLowerAlpha(c) || IsDigit(c)
  }

  /** The regular-expression class `\w` on ASCII text. */
  predicate IsWord(c: char) {
    IsAlnum(c) || c == '_'
  }

  /** `str.isspace` for one character: the characters Python treats as
      whitespace in `strip` and `rstrip`. */
  predicate IsSpace(c: char) {
    || '\U{9}' <= c <= '\U{D}'
    || '\U{1C}' <= c <= '\U{20}'
    || c == '\U{85}' || c == '\U{A0}' || c == '\U{1680}'
    || '\U{2000}' <= c <= '\U{200A}'
    || c == '\U{2028}' || c == '\U{2029}' || c == '\U{202F}' || c == '\U{205F}' || c == '\U{3000}'
  }

  function LowerChar(c: char): char {
    if IsUpper(c) then (c as int - 'A' as int + 'a' as int) as char else c
  }

  /** `s.lower()` on the ASCII letters; every other character is kept. */
  function Lower(s: string): (r: string)
    ensures |r| == |s|
    ensures forall i :: 0 <= i < |s| ==> !IsUpper(r[i])
    ensures forall i :: 0 <= i < |s| && !IsUpper(s[i]) ==> r[i] == s[i]
    ensures forall i :: 0 <= i < |s| && IsUpper(s[i]) ==> r[i] as int == s[i] as int + 32
  {
    seq(|s|, i requires 0 <= i < |s| => LowerChar(s[i]))
  }

  /** `s.replace(pattern, replacement)`: scans left to right and replaces every
      non-overlapping occurrence of `pattern`. */
  function ReplaceAll(s: string, pattern: string, replacement: string): (r: string)
    requires pattern != []
    ensures |s| < |pattern| ==> r == s
    ensures StartsWith(s, pattern) ==> StartsWith(r, replacement)
    ensures |replacement| == |pattern| ==> |r| == |s|
    decreases |s|
  {
    if |s| < |pattern| then s
    else if s[..|pattern|] == pattern then replacement + ReplaceAll(s[|pattern|..], pattern, replacement)
    else [s[0]] + ReplaceAll(s[1..], pattern, replacement)
  }

  /** `s.rstrip()`. */
  function RStrip(s: string): (r: string)
    ensures |r| <= |s| && r == s[..|r|]
    ensures r != [] ==> !IsSpace(r[|r| - 1])
    ensures forall i :: |r| <= i < |s| ==> IsSpace(s[i])
  {
    if s != [] && IsSpace(s[|s| - 1]) then RStrip(s[..|s| - 1]) else s
  }

  /** `s.lstrip()`. */
  function LStrip(s: string): (r: string)
    ensures |r| <= |s| && r == s[|s| - |r|..]
    ensures r != [] ==> !IsSpace(r[0])
    ensures forall i :: 0 <= i < |s| - |r| ==> IsSpace(s[i])
  {
    if s != [] && IsSpace(s[0]) then
      var r := LStrip(s[1..]);
      assert forall i :: 1 <= i < |s| - |r| ==> s[i] == s[1..][i - 1];
      r
    else s
  }

  /** Neither starts nor ends with whitespace. */
  predicate Trimmed(s: string) {
    s == [] || (!IsSpace(s[0]) && !IsSpace(s[|s| - 1]))
  }

  /** `r` sits at position `a` of `s` with only whitespace before and after
      it. */
  predicate SurroundedAt(s: string, r: string, a: int) {
    && 0 <= a <= |s| - |r| && r == s[a..a + |r|]
    && (forall i :: 0 <= i < a ==> IsSpace(s[i]))
    && (forall i :: a + |r| <= i < |s| ==> IsSpace(s[i]))
  }

  /** `r` is what `s.strip()` returns: `s` without its leading and trailing
      whitespace. */
  predicate StripOf(s: string, r: string) {
    Trimmed(r) && exists a :: 0 <= a <= |s| && SurroundedAt(s, r, a)
  }

  /** `s.strip()`: the text between the leading and the trailing whitespace. */
  function Strip(s: string): (r: string)
    ensures r == [] <==> forall i :: 0 <= i < |s| ==> IsSpace(s[i])
    ensures Trimmed(r)
    ensures Contains(s, r)
    ensures StripOf(s, r)
  {
    var right := RStrip(s);
    var r := LStrip(right);
    StripSurrounded(s, right, r);
    r
  }

  /** Left-stripping the right-stripped text leaves it surrounded by the
      whitespace that went. */
  lemma StripSurrounded(s: string, right: string, r: string)
    requires right == RStrip(s) && r == LStrip(right)
    ensures |right| - |r| >= 0 && SurroundedAt(s, r, |right| - |r|)
    ensures MatchAt(s, r, |right| - |r|)
    ensures r == [] <==> right == []
  {
    SuffixOfPrefix(s, right, r);
    StripLeading(s, right, r);
  }

  /** A suffix of a prefix of `s` sits in `s` where it sat in the prefix. */
  lemma SuffixOfPrefix(s: string, right: string, r: string)
    requires |right| <= |s| && right == s[..|right|]
    requires |r| <= |right| && r == right[|right| - |r|..]
    ensures s[|right| - |r|..|right|] == r
    ensures s[|right| - |r|..][..|r|] == r
  {
    assert s[|right| - |r|..|right|] == s[..|right|][|right| - |r|..];
  }

  lemma StripLeading(s: string, right: string, r: string)
    requires right == RStrip(s) && r == LStrip(right)
    ensures forall i :: 0 <= i < |right| - |r| ==> IsSpace(s[i])
  {
    forall i | 0 <= i < |right| - |r| ensures IsSpace(s[i]) {
      assert s[i] == right[i];
    }
  }

  /** At most one text is the stripped form of `s`. */
  lemma StripOfUnique(s: string, r1: string, r2: string)
    requires StripOf(s, r1) && StripOf(s, r2)
    ensures r1 == r2
  {
    var a1 :| 0 <= a1 <= |s| && SurroundedAt(s, r1, a1);
    var a2 :| 0 <= a2 <= |s| && SurroundedAt(s, r2, a2);
    assert r1 != [] ==> s[a1] == r1[0] && s[a1 + |r1| - 1] == r1[|r1| - 1];
    assert r2 != [] ==> s[a2] == r2[0] && s[a2 + |r2| - 1] == r2[|r2| - 1];
  }

  /** `sep.join(xs)`. */
  function Join(sep: string, xs: seq<string>): string {
    if xs == [] then "" else if |xs| == 1 then xs[0] else xs[0] + sep + Join(sep, xs[1..])
  }

  predicate StartsWith(s: string, p: string) {
    |p| <= |s| && s[..|p|] == p
  }

  predicate EndsWith(s: string, p: string) {
    |p| <= |s| && s[|s| - |p|..] == p
  }

  /** `p` occurs in `s` at position `i`. */
  predicate MatchAt(s: string, p: string, i: int) {
    0 <= i <= |s| && StartsWith(s[i..], p)
  }

  /** `p in s`. */
  predicate Contains(s: string, p: string) {
    exists i :: 0 <= i <= |s| && MatchAt(s, p, i)
  }

  /** `s.find(p)`: the first position where `p` occurs, if any. */
  function Find(s: string, p: string): (r: Option<nat>)
    ensures r.Some? ==> MatchAt(s, p, r.value)
    ensures r.Some? ==> forall j :: 0 <= j < r.value ==> !MatchAt(s, p, j)
    ensures r.None? <==> !Contains(s, p)
    decreases |s|
  {
    if StartsWith(s, p) then
      assert MatchAt(s, p, 0) by { assert s[0..] == s; }
      Some(0)
    else if s == [] then None
    else
      assert !MatchAt(s, p, 0) by { assert s[0..] == s; }
      var rest := Find(s[1..], p);
      MatchAtTail(s, p);
      if rest.Some? then
        assert MatchAt(s, p, rest.value + 1);
        Some(rest.value + 1)
      else
        assert forall j :: 0 <= j <= |s| ==> !MatchAt(s, p, j);
        None
  }

  /** Past the first position, `p` occurs in `s` where it occurs in its tail,
      one position on. */
  lemma MatchAtTail(s: string, p: string)
    requires s != []
    ensures forall j :: 1 <= j <= |s| ==> (MatchAt(s, p, j) <==> MatchAt(s[1..], p, j - 1))
  {
    forall j | 1 <= j <= |s| ensures MatchAt(s, p, j) <==> MatchAt(s[1..], p, j - 1) {
      assert s[j..] == s[1..][j - 1..];
    }
  }

  /** `s.split(sep)`: the pieces between the occurrences of `sep`, scanning left
      to right. */
  function Split(s: string, sep: string): (r: seq<string>)
    requires sep != []
    ensures |r| >= 1
    decreases |s|
  {
    match Find(s, sep)
    case None => [s]
    case Some(i) => [s[..i]] + Split(s[i + |sep|..], sep)
  }

  /** Only letters, digits and `_`. */
  predicate WordOnly(s: string) {
    forall i :: 0 <= i < |s| ==> IsAlnum(s[i]) || s[i] == '_'
  }

  predicate NoDoubleUnderscore(s: string) {
    forall i :: 0 <= i < |s| - 1 ==> !(s[i] == '_' && s[i + 1] == '_')
  }

  /** The characters of `s` in `[A-Za-z0-9]`, in order. */
  function Alnums(s: string): string {
    if s == [] then [] else (if IsAlnum(s[0]) then [s[0]] else []) + Alnums(s[1..])
  }

  /** The length of the run of characters outside `[A-Za-z0-9]` at the start of `s`. */
  function NonAlnumRun(s: string): (n: nat)
    ensures n <= |s|
    ensures forall i :: 0 <= i < n ==> !IsAlnum(s[i])
    ensures n < |s| ==> IsAlnum(s[n])
  {
    if s == [] || IsAlnum(s[0]) then 0 else 1 + NonAlnumRun(s[1..])
  }

  /** `re.sub('[^A-Za-z0-9]+', '_', s)`: every maximal run of characters
      outside `[A-Za-z0-9]` becomes one underscore. */
  function Collapse(s: string): (r: string)
    ensures |r| <= |s|
    ensures r == [] <==> s == []
    ensures r != [] ==> (r[0] == '_' <==> !IsAlnum(s[0]))
    ensures WordOnly(r) && NoDoubleUnderscore(r)
    decreases |s|
  {
    if s == [] then []
    else if IsAlnum(s[0]) then [s[0]] + Collapse(s[1..])
    else "_" + Collapse(s[NonAlnumRun(s)..])
  }

  // ---------------------------------------------------------------------------
  // The leading digit group: a digit run at the start of the name, followed by
  // at least one word character, is rewritten through `str(int(...))`.

  /** The length of the run of digits at the start of `s`. */
  function DigitRun(s: string): (n: nat)
    ensures n <= |s|
    ensures forall i :: 0 <= i < n ==> IsDigit(s[i])
    ensures n < |s| ==> !IsDigit(s[n])
  {
    if s == [] || !IsDigit(s[0]) then 0 else 1 + DigitRun(s[1..])
  }

  /** The regular-expression engine's search for `(\d+)(\w+)` at the start: it
      tries the longest digit group first and gives back one digit at a time
      until a word character follows the group. */
  function TryDigitGroup(s: string, k: nat): (g: Option<nat>)
    requires k <= DigitRun(s)
    ensures g.Some? ==> 1 <= g.value <= k && g.value < |s| && IsWord(s[g.value])
    ensures g.Some? ==> forall j :: g.value < j <= k ==> !(j < |s| && IsWord(s[j]))
    ensures g.None? ==> forall j :: 1 <= j <= k ==> !(j < |s| && IsWord(s[j]))
    decreases k
  {
    if k == 0 then None
    else if k < |s| && IsWord(s[k]) then Some(k)
    else TryDigitGroup(s, k - 1)
  }

  /** The rewrite: the digit group goes through `str(int(...))`, everything
      after it is kept. */
  function LeadingInt(s: string): string {
    match TryDigitGroup(s, DigitRun(s))
    case Some(k) => ShowNat(Value(s[..k])) + s[k..]
    case None => s
  }

  /** The rewrite touches nothing but the leading digit run: a text that does
      not start with a digit is unchanged, and whatever follows the run comes
      out at the end of the result. */
  lemma LeadingIntKeepsRest(s: string)
    ensures DigitRun(s) == 0 ==> LeadingInt(s) == s
    ensures var r, rest := LeadingInt(s), s[DigitRun(s)..];
            |rest| <= |r| && r[|r| - |rest|..] == rest
  {
    var n := DigitRun(s);
    var g := TryDigitGroup(s, n);
    if g.Some? {
      var k := g.value;
      var head := ShowNat(Value(s[..k]));
      assert LeadingInt(s) == head + s[k..];
      TailOfAppend(head, s, k, n);
    } else {
      assert LeadingInt(s) == s;
      assert s[n..] == s[|s| - (|s| - n)..];
    }
  }

  lemma TailOfAppend(a: string, s: string, k: nat, n: nat)
    requires k <= n <= |s|
    ensures var r := a + s[k..]; |s| - n <= |r| && r[|r| - (|s| - n)..] == s[n..]
  {
    assert (a + s[k..])[|a| + (n - k)..] == s[n..];
  }

  /** Step by step, as the generator writes it: lowercase, spaces to
      underscores, "continue" to "keep_going", strip trailing whitespace, the
      leading digit group through `int`, then collapse. The result is a name
      in lower snake case: lower-case letters, digits and single underscores,
      never containing "continue". */
  function Sanitise(text: string): (r: string)
    ensures forall i :: 0 <= i < |r| ==> IsLowerAlpha(r[i]) || IsDigit(r[i]) || r[i] == '_'
    ensures NoDoubleUnderscore(r)
    ensures !Contains(r, "continue")
  {
    RespelledShape(text);
    FinishShape(Respelled(text));
    Collapse(LeadingInt(RStrip(Respelled(text))))
  }

  /** The first three steps: lowercase, spaces to underscores, "continue" to
      "keep_going". */
  function Respelled(text: string): string {
    ReplaceAll(ReplaceAll(Lower(text), " ", "_"), "continue", "keep_going")
  }

  // ---------------------------------------------------------------------------
  // Properties of the collapse

  lemma {:induction false} AlnumsSkipRun(s: string, n: nat)
    requires n <= |s| && forall i :: 0 <= i < n ==> !IsAlnum(s[i])
    ensures Alnums(s) == Alnums(s[n..])
    decreases n
  {
    if n > 0 {
      AlnumsSkipRun(s[1..], n - 1);
      assert s[1..][n - 1..] == s[n..];
    }
  }

  /** The collapse keeps every letter and digit, in order, and drops nothing else
      of them. */
  lemma {:induction false} CollapseKeepsAlnums(s: string)
    ensures Alnums(Collapse(s)) == Alnums(s)
    decreases |s|
  {
    if s != [] {
      var r := Collapse(s);
      if IsAlnum(s[0]) {
        CollapseKeepsAlnums(s[1..]);
        assert r[1..] == Collapse(s[1..]);
      } else {
        var n := NonAlnumRun(s);
        CollapseKeepsAlnums(s[n..]);
        AlnumsSkipRun(s, n);
        assert r[1..] == Collapse(s[n..]);
      }
    }
  }

  /** The strings the collapse leaves unchanged are exactly those made of
      letters, digits and single underscores. */
  lemma {:induction false} CollapseFixedPoints(s: string)
    ensures Collapse(s) == s <==> WordOnly(s) && NoDoubleUnderscore(s)
    decreases |s|
  {
    if s != [] && WordOnly(s) && NoDoubleUnderscore(s) {
      assert WordOnly(s[1..]) && NoDoubleUnderscore(s[1..]) by {
        assert forall i :: 0 <= i < |s[1..]| ==> s[1..][i] == s[i + 1];
      }
      CollapseFixedPoints(s[1..]);
      if !IsAlnum(s[0]) {
        assert NonAlnumRun(s) == 1;
      }
      assert s == [s[0]] + s[1..];
    }
  }

  lemma CollapseIdempotent(s: string)
    ensures Collapse(Collapse(s)) == Collapse(s)
  {
    CollapseFixedPoints(Collapse(s));
  }

  /** A non-empty run of characters outside `[A-Za-z0-9]` becomes one `_`. */
  lemma CollapseRun(s: string)
    requires s != [] && forall i :: 0 <= i < |s| ==> !IsAlnum(s[i])
    ensures Collapse(s) == "_"
  {
    assert NonAlnumRun(s) == |s|;
    assert s[|s|..] == [];
  }

  /** The first letter or digit of `s` ends its leading run. */
  lemma NonAlnumRunAt(s: string, k: nat)
    requires k < |s| && IsAlnum(s[k]) && forall i :: 0 <= i < k ==> !IsAlnum(s[i])
    ensures NonAlnumRun(s) == k
  {
  }

  /** A leading run of `n` characters outside `[A-Za-z0-9]`, ending at a letter,
      a digit or the end, becomes one `_`. */
  lemma CollapseSkipRun(s: string, n: nat)
    requires 0 < n <= |s| && forall i :: 0 <= i < n ==> !IsAlnum(s[i])
    requires n == |s| || IsAlnum(s[n])
    ensures Collapse(s) == "_" + Collapse(s[n..])
  {
    if n < |s| {
      NonAlnumRunAt(s, n);
    }
  }

  /** The collapse works piece by piece wherever the pieces meet at a letter or
      digit: no run of other characters spans the join. With `CollapseRun`
      this fixes the result for every input: each letter or digit stays in
      place and each maximal run of other characters becomes one `_`. */
  lemma {:induction false} CollapseAppend(x: string, y: string)
    requires x == [] || y == [] || IsAlnum(x[|x| - 1]) || IsAlnum(y[0])
    ensures Collapse(x + y) == Collapse(x) + Collapse(y)
    decreases |x|
  {
    if x == [] {
      assert x + y == y;
    } else if y == [] {
      assert x + y == x;
    } else if IsAlnum(x[0]) {
      CollapseAppend(x[1..], y);
      CollapseAppendAlnum(x, y);
    } else {
      var n := NonAlnumRun(x);
      if n < |x| {
        CollapseAppend(x[n..], y);
        CollapseAppendRun(x, y, n);
      } else {
        CollapseRun(x);
        CollapseAppendWholeRun(x, y);
      }
    }
  }

  /** The step of `CollapseAppend` for a letter or digit at the front. */
  lemma CollapseAppendAlnum(x: string, y: string)
    requires x != [] && IsAlnum(x[0])
    requires Collapse(x[1..] + y) == Collapse(x[1..]) + Collapse(y)
    ensures Collapse(x + y) == Collapse(x) + Collapse(y)
  {
    DropAppend(x, y, 1);
    Associative([x[0]], Collapse(x[1..]), Collapse(y));
  }

  /** The step of `CollapseAppend` for a run that ends inside `x`. */
  lemma CollapseAppendRun(x: string, y: string, n: nat)
    requires 0 < n < |x| && n == NonAlnumRun(x)
    requires Collapse(x[n..] + y) == Collapse(x[n..]) + Collapse(y)
    ensures Collapse(x + y) == Collapse(x) + Collapse(y)
  {
    DropAppend(x, y, n);
    CollapseSkipRun(x + y, n);
    Associative("_", Collapse(x[n..]), Collapse(y));
  }

  lemma DropAppend(x: string, y: string, n: nat)
    requires n <= |x|
    ensures (x + y)[n..] == x[n..] + y
    ensures forall i :: 0 <= i < n ==> (x + y)[i] == x[i]
  {
  }

  lemma Associative(a: string, b: string, c: string)
    ensures a + (b + c) == (a + b) + c
  {
  }

  /** The step of `CollapseAppend` for an `x` that is one run, followed by a
      letter or digit. */
  lemma CollapseAppendWholeRun(x: string, y: string)
    requires x != [] && forall i :: 0 <= i < |x| ==> !IsAlnum(x[i])
    requires y != [] && IsAlnum(y[0])
    requires Collapse(x) == "_"
    ensures Collapse(x + y) == Collapse(x) + Collapse(y)
  {
    var xy := x + y;
    CollapseSkipRun(xy, |x|);
    assert xy[|x|..] == y;
  }

  /** The texts `strip` leaves unchanged are exactly the empty one and those
      that neither start nor end with whitespace. */
  lemma StripFixedPoints(s: string)
    ensures Strip(s) == s <==> Trimmed(s)
  {
  }

  // ---------------------------------------------------------------------------
  // Join and split

  /** Joining pieces that do not contain the separator's first character and
      splitting the result again gives the pieces back. */
  lemma {:induction false} SplitJoin(sep: string, xs: seq<string>)
    requires sep != [] && xs != []
    requires forall k, j :: 0 <= k < |xs| && 0 <= j < |xs[k]| ==> xs[k][j] != sep[0]
    ensures Split(Join(sep, xs), sep) == xs
    decreases |xs|
  {
    var x := xs[0];
    assert forall j :: 0 <= j < |x| ==> x[j] != sep[0];
    if |xs| == 1 {
      NoSeparator(x, sep);
    } else {
      var tail := Join(sep, xs[1..]);
      assert Join(sep, xs) == x + sep + tail;
      SplitAtFirst(x, sep, tail);
      assert forall k, j :: 0 <= k < |xs[1..]| && 0 <= j < |xs[1..][k]| ==> xs[1..][k][j] == xs[k + 1][j];
      SplitJoin(sep, xs[1..]);
      assert xs == [x] + xs[1..];
    }
  }

  /** A text without the separator's first character splits into itself. */
  lemma NoSeparator(x: string, sep: string)
    requires sep != [] && forall j :: 0 <= j < |x| ==> x[j] != sep[0]
    ensures Split(x, sep) == [x]
  {
    forall i | 0 <= i <= |x| ensures !MatchAt(x, sep, i) {
      if i < |x| {
        assert x[i..][0] == x[i];
      }
    }
  }

  /** The first separator after a text free of its first character is where
      the text ends. */
  lemma SplitAtFirst(x: string, sep: string, tail: string)
    requires sep != [] && forall j :: 0 <= j < |x| ==> x[j] != sep[0]
    ensures Split(x + sep + tail, sep) == [x] + Split(tail, sep)
  {
    var s := x + sep + tail;
    assert MatchAt(s, sep, |x|) by {
      assert s[|x|..] == sep + tail;
      assert (sep + tail)[..|sep|] == sep;
    }
    forall j | 0 <= j < |x| ensures !MatchAt(s, sep, j) {
      assert s[j..][0] == s[j] == x[j];
    }
    assert Find(s, sep) == Some(|x|);
    assert s[..|x|] == x;
    assert s[|x| + |sep|..] == tail;
  }

  // ---------------------------------------------------------------------------
  // Replacement

  /** Replacing one character by another is the character-by-character
      substitution. */
  lemma {:induction false} ReplaceCharPointwise(s: string, a: char, b: char)
    ensures ReplaceAll(s, [a], [b]) == seq(|s|, i requires 0 <= i < |s| => if s[i] == a then b else s[i])
    decreases |s|
  {
    if s != [] {
      ReplaceCharPointwise(s[1..], a, b);
      assert s[..1] == [a] <==> s[0] == a;
    }
  }

  /** A string without the pattern is left as it is. */
  lemma {:induction false} ReplaceAbsent(s: string, pattern: string, replacement: string)
    requires pattern != [] && !Contains(s, pattern)
    ensures ReplaceAll(s, pattern, replacement) == s
    decreases |s|
  {
    if |s| >= |pattern| {
      assert !MatchAt(s, pattern, 0);
      assert s[0..] == s;
      assert !Contains(s[1..], pattern) by {
        forall i | 0 <= i <= |s[1..]| ensures !MatchAt(s[1..], pattern, i) {
          assert s[1..][i..] == s[i + 1..];
          assert !MatchAt(s, pattern, i + 1);
        }
      }
      ReplaceAbsent(s[1..], pattern, replacement);
      assert s == [s[0]] + s[1..];
    }
  }

  /** What the replaced text starts with, the original started with, as long as
      the replacement's first character does not occur in it. */
  lemma {:induction false} ReplacedPrefix(t: string, pattern: string, replacement: string, u: string)
    requires pattern != [] && replacement != []
    requires forall j :: 0 <= j < |u| ==> u[j] != replacement[0]
    ensures StartsWith(ReplaceAll(t, pattern, replacement), u) ==> StartsWith(t, u)
    decreases |t|
  {
    if |t| >= |pattern| && u != [] {
      var r := ReplaceAll(t, pattern, replacement);
      if t[..|pattern|] == pattern {
        assert r[0] == replacement[0] != u[0];
      } else {
        var rest := ReplaceAll(t[1..], pattern, replacement);
        assert r == [t[0]] + rest;
        assert StartsWith(r, u) ==> StartsWith(rest, u[1..]) by {
          if |u| <= |r| {
            assert rest[..|u| - 1] == r[1..|u|];
          }
        }
        ReplacedPrefix(t[1..], pattern, replacement, u[1..]);
        assert |u| <= |t| ==> t[..|u|] == [t[0]] + t[1..][..|u| - 1];
      }
    }
  }

  /** After the replacement the pattern no longer occurs, provided neither the
      replacement can start it nor its tail can start the replacement. */
  lemma {:induction false} ReplaceLeavesNoPattern(s: string, pattern: string, replacement: string)
    requires pattern != [] && replacement != []
    requires forall j :: 0 <= j < |replacement| ==> replacement[j] != pattern[0]
    requires forall j :: 1 <= j < |pattern| ==> pattern[j] != replacement[0]
    ensures !Contains(ReplaceAll(s, pattern, replacement), pattern)
    decreases |s|
  {
    var r := ReplaceAll(s, pattern, replacement);
    if |s| < |pattern| {
    } else if s[..|pattern|] == pattern {
      var rest := ReplaceAll(s[|pattern|..], pattern, replacement);
      ReplaceLeavesNoPattern(s[|pattern|..], pattern, replacement);
      assert r == replacement + rest;
      forall i | 0 <= i <= |r| ensures !MatchAt(r, pattern, i) {
        if i < |replacement| {
          assert r[i..][0] == r[i] == replacement[i] != pattern[0];
        } else {
          assert r[i..] == rest[i - |replacement|..];
          assert !MatchAt(rest, pattern, i - |replacement|);
        }
      }
    } else {
      var rest := ReplaceAll(s[1..], pattern, replacement);
      ReplaceLeavesNoPattern(s[1..], pattern, replacement);
      assert r == [s[0]] + rest;
      forall i | 0 <= i <= |r| ensures !MatchAt(r, pattern, i) {
        if i == 0 {
          assert r[0..] == r;
          assert StartsWith(r, pattern) ==> StartsWith(rest, pattern[1..]) by {
            if |pattern| <= |r| {
              assert rest[..|pattern| - 1] == r[1..|pattern|];
            }
          }
          ReplacedPrefix(s[1..], pattern, replacement, pattern[1..]);
          assert s[..|pattern|] == [s[0]] + s[1..][..|pattern| - 1];
        } else {
          assert r[i..] == rest[i - 1..];
          assert !MatchAt(rest, pattern, i - 1);
        }
      }
    }
  }

  // ---------------------------------------------------------------------------
  // The leading digit group

  /** The rewrite in closed form, without the engine's backtracking: with a
      word character after the whole digit run, the run loses its leading
      zeros; with none, the engine gives back the last digit and the run
      without it loses its leading zeros; a single digit with nothing
      word-like after it is left alone. */
  function DigitGroupRewrite(s: string): string {
    var n := DigitRun(s);
    if 1 <= n < |s| && IsWord(s[n]) then DropLeadingZeros(s[..n]) + s[n..]
    else if n >= 2 then DropLeadingZeros(s[..n - 1]) + s[n - 1..]
    else s
  }

  lemma LeadingIntClosedForm(s: string)
    ensures LeadingInt(s) == DigitGroupRewrite(s)
  {
    var n := DigitRun(s);
    if 1 <= n < |s| && IsWord(s[n]) {
      LeadingIntWholeRun(s, n);
    } else if n >= 2 {
      LeadingIntGivesBack(s, n);
    } else {
      LeadingIntNoGroup(s, n);
    }
  }

  lemma LeadingIntWholeRun(s: string, n: nat)
    requires n == DigitRun(s) && 1 <= n < |s| && IsWord(s[n])
    ensures LeadingInt(s) == DropLeadingZeros(s[..n]) + s[n..]
  {
    assert TryDigitGroup(s, n) == Some(n);
    IntThenStr(s[..n]);
  }

  lemma LeadingIntGivesBack(s: string, n: nat)
    requires n == DigitRun(s) && n >= 2 && !(n < |s| && IsWord(s[n]))
    ensures LeadingInt(s) == DropLeadingZeros(s[..n - 1]) + s[n - 1..]
  {
    assert IsWord(s[n - 1]);
    assert TryDigitGroup(s, n - 1) == Some(n - 1);
    assert TryDigitGroup(s, n) == Some(n - 1);
    IntThenStr(s[..n - 1]);
  }

  lemma LeadingIntNoGroup(s: string, n: nat)
    requires n == DigitRun(s) && n <= 1 && !(1 <= n < |s| && IsWord(s[n]))
    ensures LeadingInt(s) == s
  {
    assert TryDigitGroup(s, 0) == None;
    assert TryDigitGroup(s, n) == None;
  }

  lemma ContainsInPrefix(s: string, n: nat, p: string)
    requires n <= |s| && Contains(s[..n], p)
    ensures Contains(s, p)
  {
    var i :| 0 <= i <= n && MatchAt(s[..n], p, i);
    assert s[..n][i..][..|p|] == s[i..][..|p|];
    assert MatchAt(s, p, i);
  }

  /** The digit rewrite brings in only digits, so it creates no occurrence of a
      text that starts with something else. */
  lemma LeadingIntAddsNothing(s: string, p: string)
    requires p != [] && !IsDigit(p[0])
    requires Contains(LeadingInt(s), p)
    ensures Contains(s, p)
  {
    var r := LeadingInt(s);
    var i :| 0 <= i <= |r| && MatchAt(r, p, i);
    assert i < |r| && r[i..][0] == r[i] == p[0];
    match TryDigitGroup(s, DigitRun(s))
    case None =>
      assert MatchAt(s, p, i);
    case Some(k) =>
      var d := ShowNat(Value(s[..k]));
      assert r == d + s[k..];
      assert forall m :: 0 <= m < |d| ==> r[m] == d[m];
      assert i >= |d|;
      assert r[i..] == s[k + i - |d|..];
      assert MatchAt(s, p, k + i - |d|);
  }

  /** What the collapsed text starts with, if it is all letters and digits, the
      original started with. */
  lemma {:induction false} CollapsedPrefix(t: string, u: string)
    requires forall j :: 0 <= j < |u| ==> IsAlnum(u[j])
    requires StartsWith(Collapse(t), u)
    ensures StartsWith(t, u)
    decreases |t|
  {
    if u != [] {
      var r := Collapse(t);
      assert IsAlnum(t[0]);
      assert r == [t[0]] + Collapse(t[1..]);
      assert StartsWith(Collapse(t[1..]), u[1..]) by {
        assert Collapse(t[1..])[..|u| - 1] == r[1..|u|];
      }
      CollapsedPrefix(t[1..], u[1..]);
      assert t[..|u|] == [t[0]] + t[1..][..|u| - 1];
    }
  }

  lemma MatchShifted(s: string, p: string, k: nat, j: int)
    requires k <= |s| && 0 <= j <= |s[k..]| && MatchAt(s[k..], p, j)
    ensures MatchAt(s, p, j + k)
  {
    assert s[k..][j..] == s[j + k..];
  }

  /** The collapse creates no occurrence of a text made of letters and digits. */
  lemma {:induction false} CollapseAddsNothing(s: string, p: string)
    requires p != [] && forall j :: 0 <= j < |p| ==> IsAlnum(p[j])
    requires Contains(Collapse(s), p)
    ensures Contains(s, p)
    decreases |s|
  {
    var r := Collapse(s);
    var i :| 0 <= i <= |r| && MatchAt(r, p, i);
    assert i < |r| && r[i..][0] == r[i] == p[0];
    var k := if IsAlnum(s[0]) then 1 else NonAlnumRun(s);
    var rest := Collapse(s[k..]);
    assert r == [r[0]] + rest;
    if i == 0 {
      CollapseMatchAtStart(s, p);
    } else {
      MatchAtTail(r, p);
      assert r[1..] == rest;
      CollapseAddsNothing(s[k..], p);
      var j :| 0 <= j <= |s[k..]| && MatchAt(s[k..], p, j);
      MatchShifted(s, p, k, j);
    }
  }

  lemma CollapseMatchAtStart(s: string, p: string)
    requires p != [] && forall j :: 0 <= j < |p| ==> IsAlnum(p[j])
    requires MatchAt(Collapse(s), p, 0)
    ensures MatchAt(s, p, 0)
  {
    var r := Collapse(s);
    assert r[0..] == r;
    CollapsedPrefix(s, p);
    assert s[0..] == s;
  }

  // ---------------------------------------------------------------------------
  // The sanitised name

  predicate NoUpper(s: string) {
    forall i :: 0 <= i < |s| ==> !IsUpper(s[i])
  }

  lemma {:induction false} ReplaceKeepsNoUpper(s: string, pattern: string, replacement: string)
    requires pattern != [] && NoUpper(s) && NoUpper(replacement)
    ensures NoUpper(ReplaceAll(s, pattern, replacement))
    decreases |s|
  {
    if |s| >= |pattern| {
      if s[..|pattern|] == pattern {
        ReplaceKeepsNoUpper(s[|pattern|..], pattern, replacement);
      } else {
        ReplaceKeepsNoUpper(s[1..], pattern, replacement);
      }
    }
  }

  lemma {:induction false} CollapseKeepsNoUpper(s: string)
    requires NoUpper(s)
    ensures NoUpper(Collapse(s))
    decreases |s|
  {
    if s != [] {
      if IsAlnum(s[0]) {
        CollapseKeepsNoUpper(s[1..]);
      } else {
        CollapseKeepsNoUpper(s[NonAlnumRun(s)..]);
      }
    }
  }

  lemma RespelledShape(text: string)
    ensures NoUpper(Respelled(text)) && !Contains(Respelled(text), "continue")
  {
    var spaced := ReplaceAll(Lower(text), " ", "_");
    ReplaceKeepsNoUpper(Lower(text), " ", "_");
    ReplaceKeepsNoUpper(spaced, "continue", "keep_going");
    ReplaceLeavesNoPattern(spaced, "continue", "keep_going");
  }

  /** The last three steps keep a text free of upper-case letters and of
      `continue`. */
  lemma FinishShape(s: string)
    requires NoUpper(s) && !Contains(s, "continue")
    ensures var r := Collapse(LeadingInt(RStrip(s)));
            NoUpper(r) && !Contains(r, "continue")
  {
    var stripped := RStrip(s);
    var rewritten := LeadingInt(stripped);
    assert NoUpper(rewritten);
    CollapseKeepsNoUpper(rewritten);
    if Contains(Collapse(rewritten), "continue") {
      CollapseAddsNothing(rewritten, "continue");
      LeadingIntAddsNothing(stripped, "continue");
      ContainsInPrefix(s, |stripped|, "continue");
    }
  }

  /** A label of one space keeps one `_`, since the space becomes an
      underscore before `rstrip` runs. */
  lemma SanitiseSpace()
    ensures Sanitise(" ") == "_"
  {
    var lowered := Lower(" ");
    assert lowered == " ";
    assert ReplaceAll(lowered, " ", "_") == "_" + ReplaceAll("", " ", "_");
    var respelled := Respelled(" ");
    assert respelled == "_";
    assert RStrip(respelled) == "_";
    LeadingIntKeepsRest("_");
    CollapseRun("_");
  }

  /** A label of one tab comes out empty: `rstrip` removes it. */
  lemma SanitiseTab()
    ensures Sanitise("\t") == ""
  {
    var lowered := Lower("\t");
    assert lowered == "\t";
    assert ReplaceAll(lowered, " ", "_") == "\t" + ReplaceAll("", " ", "_");
    var respelled := Respelled("\t");
    assert respelled == "\t";
    assert RStrip(respelled) == RStrip("");
    LeadingIntKeepsRest("");
  }

  /** A name that is already in lower snake case, does not contain `continue`
      and does not start with a zero followed by another digit comes out of
      the sanitiser unchanged. */
  lemma SanitiseFixedPoint(s: string)
    requires forall i :: 0 <= i < |s| ==> IsLowerAlpha(s[i]) || IsDigit(s[i]) || s[i] == '_'
    requires NoDoubleUnderscore(s) && !Contains(s, "continue")
    requires !(|s| >= 2 && s[0] == '0' && IsDigit(s[1]))
    ensures Sanitise(s) == s
  {
    RespelledFixed(s);
    RStripFixed(s);
    LeadingIntFixed(s);
    CollapseFixedPoints(s);
    assert WordOnly(s);
  }

  /** A lower snake-case name without "continue" is its own respelling. */
  lemma RespelledFixed(s: string)
    requires forall i :: 0 <= i < |s| ==> IsLowerAlpha(s[i]) || IsDigit(s[i]) || s[i] == '_'
    requires !Contains(s, "continue")
    ensures Respelled(s) == s
  {
    assert Lower(s) == s;
    ReplaceCharPointwise(s, ' ', '_');
    assert ReplaceAll(s, " ", "_") == s;
    ReplaceAbsent(s, "continue", "keep_going");
  }

  lemma RStripFixed(s: string)
    requires s != [] ==> !IsSpace(s[|s| - 1])
    ensures RStrip(s) == s
  {
  }

  /** A text that does not start with a zero followed by another digit is
      unchanged by the digit rewrite. */
  lemma LeadingIntFixed(s: string)
    requires !(|s| >= 2 && s[0] == '0' && IsDigit(s[1]))
    ensures LeadingInt(s) == s
  {
    LeadingIntClosedForm(s);
    RewriteFixed(s);
  }

  lemma RewriteFixed(s: string)
    requires !(|s| >= 2 && s[0] == '0' && IsDigit(s[1]))
    ensures DigitGroupRewrite(s) == s
  {
    var n := DigitRun(s);
    if 1 <= n < |s| && IsWord(s[n]) {
      KeptGroup(s, n);
    } else if n >= 2 {
      KeptGroup(s, n - 1);
    }
  }

  /** A digit group that does not start with a zero, or is a single digit,
      comes back from `str(int(...))` as it was. */
  lemma KeptGroup(s: string, k: nat)
    requires 1 <= k <= |s| && forall i :: 0 <= i < k ==> IsDigit(s[i])
    requires !(|s| >= 2 && s[0] == '0' && IsDigit(s[1]))
    ensures DropLeadingZeros(s[..k]) + s[k..] == s
  {
    var d := s[..k];
    assert forall i :: 0 <= i < |d| ==> d[i] == s[i];
    assert k >= 2 ==> d[0] != '0';
    DropLeadingZerosFixed(d);
    assert d + s[k..] == s;
  }

  lemma DropLeadingZerosFixed(d: string)
    requires |d| >= 1 && AllDigits(d) && (|d| == 1 || d[0] != '0')
    ensures DropLeadingZeros(d) == d
  {
  }
}
