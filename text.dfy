/**
 * String helpers shared by the model: the few JavaScript string operations the
 * source relies on (`toLowerCase`, `split`, `join`, `trim`, `substring`,
 * `startsWith`, `endsWith`), stated over `seq<char>`.
 */
module Text {

  /** Whitespace as `String.prototype.trim` and the regular-expression class `\s` see it. */
  predicate IsSpace(c: char)
  {
    || c == ' ' || c == '\t' || c == '\n' || c == '\r' || c == '\U{000B}' || c == '\U{000C}'
    || c == '\U{00A0}' || c == '\U{1680}' || ('\U{2000}' <= c <= '\U{200A}')
    || c == '\U{2028}' || c == '\U{2029}' || c == '\U{202F}' || c == '\U{205F}'
    || c == '\U{3000}' || c == '\U{FEFF}'
  }

  predicate IsUpper(c: char)
  {
    'A' <= c <= 'Z'
  }

  function LowerChar(c: char): (d: char)
    ensures !IsUpper(d)
    ensures IsUpper(c) ==> d as int == c as int + 32
    ensures !IsUpper(c) ==> d == c
  {
    if IsUpper(c) then (c as int + 32) as char else c
  }

  /** `toLowerCase`, on the ASCII letters. */
  function Lower(s: string): (r: string)
    ensures |r| == |s|
    ensures forall i :: 0 <= i < |s| ==> r[i] == LowerChar(s[i])
  {
    seq(|s|, i requires 0 <= i < |s| => LowerChar(s[i]))
  }

  lemma LowerIdempotent(s: string)
    ensures Lower(Lower(s)) == Lower(s)
  {
    assert forall i :: 0 <= i < |s| ==> Lower(Lower(s))[i] == Lower(s)[i];
  }

  predicate StartsWith(s: string, prefix: string)
  {
    |prefix| <= |s| && s[..|prefix|] == prefix
  }

  predicate EndsWith(s: string, suffix: string)
  {
    |suffix| <= |s| && s[|s| - |suffix|..] == suffix
  }

  /** `parts.join(sep)`: the empty list joins to the empty string. */
  function Join(parts: seq<string>, sep: string): string
  {
    if |parts| == 0 then ""
    else if |parts| == 1 then parts[0]
    else parts[0] + sep + Join(parts[1..], sep)
  }

  /** The position of the first `c` in `s`. */
  function FirstIndex(s: string, c: char): (i: nat)
    requires c in s
    ensures i < |s| && s[i] == c && c !in s[..i]
  {
    if s[0] == c then 0
    else
      var j := FirstIndex(s[1..], c);
      assert s[..j + 1] == [s[0]] + s[1..][..j];
      j + 1
  }

  /** A position holding `c` with no `c` before it is the first index of `c`. */
  lemma {:induction false} FirstIndexIs(s: string, c: char, i: nat)
    requires i < |s| && s[i] == c && c !in s[..i]
    ensures c in s && FirstIndex(s, c) == i
  {
    if i > 0 {
      assert s[..i][0] == s[0];
      assert s[1..][..i - 1] == s[1..i];
      assert forall j :: 0 <= j < i - 1 ==> s[1..i][j] == s[..i][j + 1];
      FirstIndexIs(s[1..], c, i - 1);
    }
  }

  /** `s.split(sep)` for a one-character separator: never empty, and no part holds the separator. */
  function Split(s: string, sep: char): (parts: seq<string>)
    ensures |parts| >= 1
    ensures forall i :: 0 <= i < |parts| ==> sep !in parts[i]
    decreases |s|
  {
    if sep !in s then [s]
    else
      var i := FirstIndex(s, sep);
      [s[..i]] + Split(s[i + 1..], sep)
  }

  /** Joining the parts back with the separator gives the text that was split. */
  lemma {:induction false} JoinSplit(s: string, sep: char)
    ensures Join(Split(s, sep), [sep]) == s
    decreases |s|
  {
    if sep in s {
      var i := FirstIndex(s, sep);
      var rest := Split(s[i + 1..], sep);
      JoinSplit(s[i + 1..], sep);
      JoinCons(s[..i], rest, [sep]);
      assert s == s[..i] + [sep] + s[i + 1..];
    }
  }

  lemma JoinCons(p: string, rest: seq<string>, sep: string)
    requires |rest| >= 1
    ensures Join([p] + rest, sep) == p + sep + Join(rest, sep)
  {
    assert ([p] + rest)[1..] == rest;
  }

  /** `split` cuts at the first separator. */
  lemma SplitAtFirst(s: string, sep: char, k: nat)
    requires k < |s| && s[k] == sep && sep !in s[..k]
    ensures Split(s, sep) == [s[..k]] + Split(s[k + 1..], sep)
  {
    FirstIndexIs(s, sep, k);
  }

  lemma SplitPrefixed(a: string, sep: char, b: string, k: nat)
    requires k < |a| && a[k] == sep && sep !in a[..k]
    ensures Split(a + [sep] + b, sep) == [a[..k]] + Split(a[k + 1..] + [sep] + b, sep)
  {
    var s := a + [sep] + b;
    assert s[..k] == a[..k];
    assert s[k + 1..] == a[k + 1..] + [sep] + b;
    SplitAtFirst(s, sep, k);
  }

  lemma SplitAfterFree(a: string, sep: char, b: string)
    requires sep !in a
    ensures Split(a + [sep] + b, sep) == [a] + Split(b, sep)
  {
    var s := a + [sep] + b;
    assert s[..|a|] == a;
    assert s[|a| + 1..] == b;
    SplitAtFirst(s, sep, |a|);
  }

  /** Splitting at a separator splits the two sides independently. */
  lemma {:induction false} SplitAround(a: string, sep: char, b: string)
    ensures Split(a + [sep] + b, sep) == Split(a, sep) + Split(b, sep)
    decreases |a|
  {
    if sep in a {
      var k := FirstIndex(a, sep);
      var tail := a[k + 1..];
      calc {
        Split(a + [sep] + b, sep);
      == { SplitPrefixed(a, sep, b, k); }
        [a[..k]] + Split(tail + [sep] + b, sep);
      == { SplitAround(tail, sep, b); }
        [a[..k]] + (Split(tail, sep) + Split(b, sep));
      ==
        ([a[..k]] + Split(tail, sep)) + Split(b, sep);
      == { SplitAtFirst(a, sep, k); }
        Split(a, sep) + Split(b, sep);
      }
    } else {
      SplitAfterFree(a, sep, b);
    }
  }

  /** `s.split(sep).join(sep)`'s other direction: parts free of the separator come back unchanged. */
  lemma {:induction false} SplitJoin(parts: seq<string>, sep: char)
    requires |parts| >= 1
    requires forall i :: 0 <= i < |parts| ==> sep !in parts[i]
    ensures Split(Join(parts, [sep]), sep) == parts
  {
    if |parts| > 1 {
      var rest := parts[1..];
      assert parts == [parts[0]] + rest;
      JoinCons(parts[0], rest, [sep]);
      SplitJoin(rest, sep);
      SplitAround(parts[0], sep, Join(rest, [sep]));
      assert Split(parts[0], sep) == [parts[0]];
    }
  }

  /** `s.split(sep).pop()`: the text after the last separator. */
  function LastSegment(s: string, sep: char): (r: string)
    ensures sep !in r
  {
    var parts := Split(s, sep);
    parts[|parts| - 1]
  }


  /** Only the text after the last separator counts. */
  lemma LastSegmentAfter(prefix: string, sep: char, ext: string)
    requires sep !in ext
    ensures LastSegment(prefix + [sep] + ext, sep) == ext
  {
    SplitAround(prefix, sep, ext);
  }



  /** The end of the whitespace run that starts at `k`. */
  function SpaceRunFrom(s: string, k: nat): (n: nat)
    requires k <= |s|
    ensures k <= n <= |s|
    ensures forall i :: k <= i < n ==> IsSpace(s[i])
    ensures n < |s| ==> !IsSpace(s[n])
    decreases |s| - k
  {
    if k < |s| && IsSpace(s[k]) then SpaceRunFrom(s, k + 1) else k
  }

  /** The start of the whitespace run that ends at `k`. */
  function SpaceRunTo(s: string, k: nat): (n: nat)
    requires k <= |s|
    ensures n <= k
    ensures forall i :: n <= i < k ==> IsSpace(s[i])
    ensures n > 0 ==> !IsSpace(s[n - 1])
  {
    if k > 0 && IsSpace(s[k - 1]) then SpaceRunTo(s, k - 1) else k
  }

  /** `s.trimStart()`. */
  function TrimStart(s: string): string
  {
    s[SpaceRunFrom(s, 0)..]
  }

  /** `s.trimEnd()`. */
  function TrimEnd(s: string): string
  {
    s[..SpaceRunTo(s, |s|)]
  }

  /** `s.trim()`: `s` with the longest whitespace prefix and suffix removed. */
  function Trim(s: string): string
  {
    TrimEnd(TrimStart(s))
  }

  predicate AllSpace(s: string)
  {
    forall i :: 0 <= i < |s| ==> IsSpace(s[i])
  }

  /** The whitespace `trim` drops in front. */
  function DroppedFront(s: string): string
  {
    s[..SpaceRunFrom(s, 0)]
  }

  /** The whitespace `trim` drops behind. */
  function DroppedBack(s: string): string
  {
    var t := TrimStart(s);
    t[SpaceRunTo(t, |t|)..]
  }

  lemma TrimDecomposes(s: string)
    ensures s == DroppedFront(s) + Trim(s) + DroppedBack(s)
  {
    var t := TrimStart(s);
    assert s == DroppedFront(s) + t;
    assert t == Trim(s) + DroppedBack(s);
  }

  lemma TrimDropsSpace(s: string)
    ensures AllSpace(DroppedFront(s)) && AllSpace(DroppedBack(s))
  {
    var t := TrimStart(s);
    var hi := SpaceRunTo(t, |t|);
    forall i | 0 <= i < |DroppedBack(s)| ensures IsSpace(DroppedBack(s)[i]) {
      assert DroppedBack(s)[i] == t[hi + i];
    }
  }

  lemma TrimEdges(s: string)
    ensures Trim(s) == [] || (!IsSpace(Trim(s)[0]) && !IsSpace(Trim(s)[|Trim(s)| - 1]))
  {
    var lo := SpaceRunFrom(s, 0);
    var t := s[lo..];
    var hi := SpaceRunTo(t, |t|);
    if hi > 0 {
      assert Trim(s)[0] == s[lo];
      assert Trim(s)[hi - 1] == t[hi - 1];
    }
  }

  /** What `trim` keeps: `s` is the kept text between two runs of whitespace, and the kept text has no whitespace at its edges. */
  lemma TrimSpec(s: string)
    ensures exists lead, trail :: s == lead + Trim(s) + trail && AllSpace(lead) && AllSpace(trail)
    ensures Trim(s) == [] || (!IsSpace(Trim(s)[0]) && !IsSpace(Trim(s)[|Trim(s)| - 1]))
  {
    TrimDecomposes(s);
    TrimDropsSpace(s);
    TrimEdges(s);
    var lead, trail := DroppedFront(s), DroppedBack(s);
    assert s == lead + Trim(s) + trail && AllSpace(lead) && AllSpace(trail);
  }

  /** A name "trims to empty" exactly when it is all whitespace. */
  lemma TrimEmptyIff(s: string)
    ensures Trim(s) == [] <==> AllSpace(s)
  {
    var lo := SpaceRunFrom(s, 0);
    var t := s[lo..];
    if lo < |s| {
      assert t[0] == s[lo];
      assert SpaceRunTo(t, |t|) > 0;
    }
  }

  /** A concatenation starts with its first operand and continues with its second. */
  lemma AppendStartsWith(a: string, b: string)
    ensures StartsWith(a + b, a)
    ensures (a + b)[|a|..] == b
  {
  }

  /** `s.substring(0, n)` for `n >= 0`. */
  function Prefix(s: string, n: nat): (r: string)
    ensures |r| == if n < |s| then n else |s|
    ensures StartsWith(s, r)
  {
    if n < |s| then s[..n] else s
  }

  /** The parts one after another. */
  function Concat<T>(parts: seq<seq<T>>): seq<T>
  {
    if parts == [] then [] else Concat(parts[..|parts| - 1]) + parts[|parts| - 1]
  }

  lemma {:induction false} ConcatAppend<T>(a: seq<seq<T>>, b: seq<seq<T>>)
    ensures Concat(a + b) == Concat(a) + Concat(b)
  {
    if b == [] {
      assert a + b == a;
    } else {
      var init, last := b[..|b| - 1], b[|b| - 1];
      calc {
        Concat(a + b);
      == { assert (a + b)[..|a + b| - 1] == a + init; }
        Concat(a + init) + last;
      == { ConcatAppend(a, init); }
        (Concat(a) + Concat(init)) + last;
      ==
        Concat(a) + (Concat(init) + last);
      }
    }
  }

  /** A concatenation is what comes before a part, the part, and what comes after it. */
  lemma ConcatAt<T>(parts: seq<seq<T>>, k: nat)
    requires k < |parts|
    ensures Concat(parts) == Concat(parts[..k]) + parts[k] + Concat(parts[k + 1..])
  {
    var pre := parts[..k + 1];
    calc {
      Concat(parts);
    == { assert parts == pre + parts[k + 1..]; }
      Concat(pre + parts[k + 1..]);
    == { ConcatAppend(pre, parts[k + 1..]); }
      Concat(pre) + Concat(parts[k + 1..]);
    == { assert pre[..k] == parts[..k]; }
      Concat(parts[..k]) + parts[k] + Concat(parts[k + 1..]);
    }
  }
}
