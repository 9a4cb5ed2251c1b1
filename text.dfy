/**
  * The few Python string and list operations the three transforms rest on:
  * `str.split(sep)` and `sep.join(parts)` for a one-character separator,
  * list padding by `xs += [d] * (n - len(xs))`, ASCII lower-casing, suffix
  * tests and `str.strip()`.
  */
module Text {

  /** `sep.join(parts)`: the parts with one `sep` between neighbours. */
  function Join(parts: seq<string>, sep: char): string
    decreases |parts|
  {
    if |parts| == 0 then ""
    else if |parts| == 1 then parts[0]
    else parts[0] + [sep] + Join(parts[1..], sep)
  }

  /** Joining a first part onto at least one more puts one separator between them. */
  lemma JoinCons(first: string, rest: seq<string>, sep: char)
    requires |rest| >= 1
    ensures Join([first] + rest, sep) == first + [sep] + Join(rest, sep)
  {
    assert ([first] + rest)[1..] == rest;
  }

  /** `s.split(sep)`: never empty, since `"".split(";") == [""]`. */
  function Split(s: string, sep: char): (parts: seq<string>)
    ensures |parts| >= 1
    decreases |s|
  {
    if |s| == 0 then [""]
    else
      var rest := Split(s[1..], sep);
      if s[0] == sep then [""] + rest
      else [[s[0]] + rest[0]] + rest[1..]
  }

  /** No segment of `s.split(sep)` holds the separator, and joining the segments gives back `s`. */
  lemma {:induction false} SplitSegments(s: string, sep: char)
    ensures forall i :: 0 <= i < |Split(s, sep)| ==> sep !in Split(s, sep)[i]
    ensures Join(Split(s, sep), sep) == s
    decreases |s|
  {
    if |s| > 0 {
      var rest := Split(s[1..], sep);
      SplitSegments(s[1..], sep);
      if s[0] == sep {
        assert ([""] + rest)[1..] == rest;
      } else {
        var parts := [[s[0]] + rest[0]] + rest[1..];
        assert parts[1..] == rest[1..];
        assert |rest| > 1 ==> Join(rest, sep) == rest[0] + [sep] + Join(rest[1..], sep);
        assert s == [s[0]] + s[1..];
        assert forall i :: 1 <= i < |parts| ==> parts[i] == rest[i];
      }
    }
  }

  lemma {:induction false} SplitWithoutSeparator(w: string, sep: char)
    requires sep !in w
    ensures Split(w, sep) == [w]
    decreases |w|
  {
    if |w| > 0 {
      SplitWithoutSeparator(w[1..], sep);
      assert [w[0]] + w[1..] == w;
    }
  }

  lemma {:induction false} SplitFirstSegment(w: string, t: string, sep: char)
    requires sep !in w
    ensures Split(w + [sep] + t, sep) == [w] + Split(t, sep)
    decreases |w|
  {
    var s := w + [sep] + t;
    if |w| == 0 {
      assert s[1..] == t;
    } else {
      assert s[0] == w[0] && s[1..] == w[1..] + [sep] + t;
      SplitFirstSegment(w[1..], t, sep);
      assert [w[0]] + w[1..] == w;
    }
  }

  /** Split is the inverse of Join on separator-free parts: the segmentation is unique. */
  lemma {:induction false} SplitJoin(parts: seq<string>, sep: char)
    requires |parts| >= 1
    requires forall i :: 0 <= i < |parts| ==> sep !in parts[i]
    ensures Split(Join(parts, sep), sep) == parts
    decreases |parts|
  {
    if |parts| == 1 {
      SplitWithoutSeparator(parts[0], sep);
    } else {
      assert forall i :: 0 <= i < |parts| - 1 ==> parts[1..][i] == parts[i + 1];
      SplitJoin(parts[1..], sep);
      SplitFirstSegment(parts[0], Join(parts[1..], sep), sep);
      assert [parts[0]] + parts[1..] == parts;
    }
  }

  /**
    * `xs += [d] * (n - len(xs))`: the list is extended with `d` up to length
    * `n`; a list already that long is left as it is (a negative repeat count
    * appends nothing).
    */
  function Pad<T>(xs: seq<T>, n: nat, d: T): (r: seq<T>)
    ensures |r| == if |xs| < n then n else |xs|
    ensures forall i :: 0 <= i < |r| ==> r[i] == if i < |xs| then xs[i] else d
    decreases n - |xs|
  {
    if |xs| < n then Pad(xs + [d], n, d) else xs
  }

  /** Padding again once padded changes nothing. */
  lemma PadIdempotent<T>(xs: seq<T>, n: nat, d: T)
    ensures Pad(Pad(xs, n, d), n, d) == Pad(xs, n, d)
  {
  }

  /** `c.lower()` on the ASCII letters; every other character is kept. */
  function LowerChar(c: char): char {
    if 'A' <= c <= 'Z' then (c as int + 32) as char else c
  }

  function Lower(s: string): (r: string)
    ensures |r| == |s|
    ensures forall i :: 0 <= i < |s| ==> r[i] == LowerChar(s[i])
  {
    seq(|s|, i requires 0 <= i < |s| => LowerChar(s[i]))
  }

  /** Lower-casing commutes with slicing, since it works character by character. */
  lemma LowerSlice(s: string, i: nat, j: nat)
    requires i <= j <= |s|
    ensures Lower(s[i..j]) == Lower(s)[i..j]
  {
  }

  /** A string without upper-case ASCII letters is its own lower-case form. */
  lemma LowerNoUpper(s: string)
    requires forall i :: 0 <= i < |s| ==> !('A' <= s[i] <= 'Z')
    ensures Lower(s) == s
  {
  }

  predicate EndsWith(s: string, suffix: string) {
    |suffix| <= |s| && s[|s| - |suffix|..] == suffix
  }

  /** The characters Python's `str.isspace()` accepts, so the ones `str.strip()` removes. */
  predicate IsSpace(c: char) {
    ('\U{9}' <= c <= '\U{D}') || ('\U{1C}' <= c <= '\U{20}') || c == '\U{85}' || c == '\U{A0}'
    || c == '\U{1680}' || ('\U{2000}' <= c <= '\U{200A}') || c == '\U{2028}' || c == '\U{2029}'
    || c == '\U{202F}' || c == '\U{205F}' || c == '\U{3000}'
  }

  /** Drops the leading characters that `drop` accepts. */
  function TrimStart(s: string, drop: char -> bool): (r: string)
    ensures |r| <= |s| && r == s[|s| - |r|..]
    ensures forall i :: 0 <= i < |s| - |r| ==> drop(s[i])
    ensures r == [] || !drop(r[0])
    decreases |s|
  {
    if |s| > 0 && drop(s[0]) then TrimStart(s[1..], drop) else s
  }

  /** Drops the trailing characters that `drop` accepts. */
  function TrimEnd(s: string, drop: char -> bool): (r: string)
    ensures |r| <= |s| && r == s[..|r|]
    ensures forall i :: |r| <= i < |s| ==> drop(s[i])
    ensures r == [] || !drop(r[|r| - 1])
    decreases |s|
  {
    if |s| > 0 && drop(s[|s| - 1]) then TrimEnd(s[..|s| - 1], drop) else s
  }

  /**
    * `s.strip(chars)`: what is left neither starts nor ends with a dropped
    * character, it is empty exactly when every character is dropped, and a
    * string that already neither starts nor ends with one is kept whole
    * (TrimSlice states which slice of `s` it is).
    */
  function Strip(s: string, drop: char -> bool): (r: string)
    ensures |r| <= |s|
    ensures r == [] || (!drop(r[0]) && !drop(r[|r| - 1]))
    ensures r == [] <==> forall k :: 0 <= k < |s| ==> drop(s[k])
    ensures s == [] || (!drop(s[0]) && !drop(s[|s| - 1])) ==> r == s
  {
    var t := TrimStart(s, drop);
    var r := TrimEnd(t, drop);
    assert r == [] ==> t == [];
    assert s != [] && !drop(s[0]) ==> t == s;
    r
  }

  /**
    * What `strip` keeps, `TrimEnd(TrimStart(s, drop), drop)`, is one slice of
    * `s`: it starts after the leading dropped characters, and every character
    * outside it is dropped.
    */
  lemma TrimSlice(s: string, drop: char -> bool)
    ensures var t := TrimStart(s, drop);
      var i, r := |s| - |t|, TrimEnd(t, drop);
      i + |r| <= |s| && r == s[i..i + |r|]
      && (forall k :: 0 <= k < i ==> drop(s[k]))
      && (forall k :: i + |r| <= k < |s| ==> drop(s[k]))
  {
    var t := TrimStart(s, drop);
    SliceOfTrims(s, |s| - |t|, t, TrimEnd(t, drop), drop);
  }

  /** A prefix of a suffix of `s`, where both cuts remove only dropped characters. */
  lemma SliceOfTrims(s: string, i: nat, t: string, r: string, drop: char -> bool)
    requires i <= |s| && t == s[i..] && |r| <= |t| && r == t[..|r|]
    requires forall k :: |r| <= k < |t| ==> drop(t[k])
    ensures i + |r| <= |s| && r == s[i..i + |r|]
    ensures forall k :: i + |r| <= k < |s| ==> drop(s[k])
  {
    forall k | i + |r| <= k < |s|
      ensures drop(s[k])
    {
      assert s[k] == t[k - i];
    }
  }

  /** `f(xs[0]) + f(xs[1]) + ...` */
  function ConcatMap<A, B>(f: A -> seq<B>, xs: seq<A>): seq<B>
    decreases |xs|
  {
    if xs == [] then [] else ConcatMap(f, xs[..|xs| - 1]) + f(xs[|xs| - 1])
  }

  lemma ConcatMapStep<A, B>(f: A -> seq<B>, xs: seq<A>, j: nat)
    requires j < |xs|
    ensures ConcatMap(f, xs[..j + 1]) == ConcatMap(f, xs[..j]) + f(xs[j])
  {
    var next := xs[..j + 1];
    assert next[..|next| - 1] == xs[..j] && next[|next| - 1] == xs[j];
  }

  lemma {:induction false} ConcatMapAppend<A, B>(f: A -> seq<B>, a: seq<A>, b: seq<A>)
    ensures ConcatMap(f, a + b) == ConcatMap(f, a) + ConcatMap(f, b)
    decreases |b|
  {
    if b == [] {
      assert a + b == a;
    } else {
      var init := b[..|b| - 1];
      ConcatMapAppend(f, a, init);
      var ab := a + b;
      assert ab[..|ab| - 1] == a + init && ab[|ab| - 1] == b[|b| - 1];
    }
  }

  /**
    * Every element of `ConcatMap(f, xs)` comes from `f` of some element of
    * `xs`, and every element of such an `f(xs[i])` is in it.
    */
  lemma {:induction false} ConcatMapMembers<A, B>(f: A -> seq<B>, xs: seq<A>, y: B)
    ensures y in ConcatMap(f, xs) <==> exists i :: 0 <= i < |xs| && y in f(xs[i])
    decreases |xs|
  {
    if xs != [] {
      var init := xs[..|xs| - 1];
      ConcatMapMembers(f, init, y);
      assert forall i :: 0 <= i < |init| ==> init[i] == xs[i];
      if y in f(xs[|xs| - 1]) {
        assert y in ConcatMap(f, xs);
      }
    }
  }
}
