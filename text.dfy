/** The pieces of Python's `str` and `list` behaviour that the generators
    use: the prefix test, `rstrip`/`lstrip` of one character, `replace` of
    every occurrence, `sep.join` and the concatenation of a list of pieces;
    and the suffix test, substring test and `split`, which the generators
    never call and which serve to state properties of their output. */
module Text {

  /** Python's `None` or a value. */
  datatype Option<T> = None | Some(value: T)

  /** `s.startswith(p)` */
  predicate StartsWith(s: string, p: string) {
    |p| <= |s| && s[..|p|] == p
  }

  /** `s.endswith(p)` */
  predicate EndsWith(s: string, p: string) {
    |p| <= |s| && s[|s| - |p|..] == p
  }

  /** `sub in s`: sub occurs in s at some offset. */
  predicate Occurs(sub: string, s: string) {
    exists i :: 0 <= i <= |s| - |sub| && OccursAt(sub, s, i)
  }

  /** sub occurs in s starting at offset i. */
  predicate OccursAt(sub: string, s: string, i: int) {
    0 <= i <= |s| - |sub| && s[i..i + |sub|] == sub
  }

  /** `s.rstrip(c)`: every trailing c removed. */
  function RStrip(s: string, c: char): (r: string)
    ensures StartsWith(s, r)
    ensures r == "" || r[|r| - 1] != c
    ensures forall i :: |r| <= i < |s| ==> s[i] == c
    decreases |s|
  {
    if |s| > 0 && s[|s| - 1] == c then RStrip(s[..|s| - 1], c) else s
  }

  /** `s.lstrip(c)`: every leading c removed. */
  function LStrip(s: string, c: char): (r: string)
    ensures EndsWith(s, r)
    ensures r == "" || r[0] != c
    ensures forall i :: 0 <= i < |s| - |r| ==> s[i] == c
    decreases |s|
  {
    if |s| > 0 && s[0] == c then LStrip(s[1..], c) else s
  }

  /** `s.replace(pat, rep)` for a non-empty pattern: scanning from the left,
      each occurrence of pat that does not overlap an earlier one becomes rep. */
  function Replace(s: string, pat: string, rep: string): (r: string)
    requires pat != ""
    ensures |pat| == |rep| ==> |r| == |s|
    decreases |s|
  {
    if StartsWith(s, pat) then rep + Replace(s[|pat|..], pat, rep)
    else if s == "" then ""
    else [s[0]] + Replace(s[1..], pat, rep)
  }

  /** The concatenation of a list of pieces, in order (`"".join(xs)` for
      strings, repeated `+=`/`append` for lists). */
  function Flatten<T>(xss: seq<seq<T>>): seq<T>
    decreases |xss|
  {
    if xss == [] then [] else Flatten(xss[..|xss| - 1]) + xss[|xss| - 1]
  }

  /** `sep.join(xs)` */
  function Join(xs: seq<string>, sep: string): string
    decreases |xs|
  {
    if xs == [] then ""
    else if |xs| == 1 then xs[0]
    else xs[0] + sep + Join(xs[1..], sep)
  }

  /** `s.split(sep)` for a one-character separator. */
  function Split(s: string, sep: char): (r: seq<string>)
    ensures |r| >= 1
    decreases |s|
  {
    if s == "" then [""]
    else
      var rest := Split(s[1..], sep);
      if s[0] == sep then [""] + rest else [[s[0]] + rest[0]] + rest[1..]
  }

  /** No two elements of xs are equal. */
  predicate Distinct<T(==)>(xs: seq<T>) {
    forall i, j :: 0 <= i < j < |xs| ==> xs[i] != xs[j]
  }

  /** A slice inside the left operand of a concatenation. */
  lemma SliceOfPrefix<T>(a: seq<T>, b: seq<T>, i: nat, j: nat)
    requires i <= j <= |a|
    ensures (a + b)[i..j] == a[i..j]
  {
  }

  /** The right operand of a concatenation, sliced back out. */
  lemma SliceOfSuffix<T>(a: seq<T>, b: seq<T>)
    ensures (a + b)[|a|..|a| + |b|] == b
  {
  }

  /** A slice of the middle operand of a concatenation of three. */
  lemma SliceOfMiddle<T>(a: seq<T>, b: seq<T>, c: seq<T>, i: nat, j: nat)
    requires i <= j <= |b|
    ensures (a + b + c)[|a| + i..|a| + j] == b[i..j]
  {
  }

  /** Taking one element more extends the prefix by that element. */
  lemma TakeSnoc<T>(s: seq<T>, i: nat)
    requires i < |s|
    ensures s[..i + 1][..i] == s[..i] && s[..i + 1][i] == s[i]
    ensures s[..i + 1] == s[..i] + [s[i]]
  {
  }

  // ---------------------------------------------------------------- Occurs

  lemma OccursMiddle(a: string, x: string, b: string)
    ensures Occurs(x, a + x + b)
  {
    var s := a + x + b;
    assert s[|a|..|a| + |x|] == x;
    assert OccursAt(x, s, |a|);
  }

  /** An occurrence in a suffix of s is an occurrence in s. */
  lemma OccursInSuffix(x: string, s: string, k: nat)
    requires k <= |s|
    requires Occurs(x, s[k..])
    ensures Occurs(x, s)
  {
    var i :| 0 <= i <= |s[k..]| - |x| && OccursAt(x, s[k..], i);
    assert s[k + i..k + i + |x|] == s[k..][i..i + |x|];
    assert OccursAt(x, s, k + i);
  }

  /** When s does not start with x, x occurs in s exactly when it occurs in s[1..]. */
  lemma OccursStep(x: string, s: string)
    requires s != "" && !StartsWith(s, x)
    ensures Occurs(x, s) <==> Occurs(x, s[1..])
  {
    if Occurs(x, s) {
      var i :| 0 <= i <= |s| - |x| && OccursAt(x, s, i);
      assert i != 0;
      assert s[1..][i - 1..i - 1 + |x|] == s[i..i + |x|];
      assert OccursAt(x, s[1..], i - 1);
    }
    if Occurs(x, s[1..]) {
      OccursInSuffix(x, s, 1);
    }
  }

  /** A piece of a list occurs in the concatenation of the list. */
  lemma {:induction false} OccursInFlatten(parts: seq<string>, k: nat)
    requires k < |parts|
    ensures Occurs(parts[k], Flatten(parts))
    decreases |parts|
  {
    var init, last := parts[..|parts| - 1], parts[|parts| - 1];
    assert Flatten(parts) == Flatten(init) + last;
    if k == |parts| - 1 {
      OccursMiddle(Flatten(init), last, "");
      assert Flatten(init) + last + "" == Flatten(parts);
    } else {
      assert init[k] == parts[k];
      OccursInFlatten(init, k);
      OccursExtend(parts[k], Flatten(init), last);
    }
  }

  /** An occurrence survives appending text after it. */
  lemma OccursExtend(x: string, s: string, t: string)
    requires Occurs(x, s)
    ensures Occurs(x, s + t)
  {
    var i :| 0 <= i <= |s| - |x| && OccursAt(x, s, i);
    assert (s + t)[i..i + |x|] == s[i..i + |x|];
    assert OccursAt(x, s + t, i);
  }

  // --------------------------------------------------------------- Replace

  /** With a pattern and a replacement of equal length that differ,
      `s.replace(pat, rep) == s` holds exactly when pat does not occur in s. */
  lemma {:induction false} ReplaceUnchangedIff(s: string, pat: string, rep: string)
    requires pat != "" && |pat| == |rep| && pat != rep
    ensures Replace(s, pat, rep) == s <==> !Occurs(pat, s)
    decreases |s|
  {
    var r := Replace(s, pat, rep);
    if StartsWith(s, pat) {
      assert OccursAt(pat, s, 0);
      assert r[..|pat|] == rep;
    } else if s == "" {
    } else {
      ReplaceUnchangedIff(s[1..], pat, rep);
      OccursStep(pat, s);
      assert r == [s[0]] + Replace(s[1..], pat, rep);
      if r == s {
        assert Replace(s[1..], pat, rep) == r[1..] == s[1..];
      }
      if Replace(s[1..], pat, rep) == s[1..] {
        assert r == [s[0]] + s[1..] == s;
      }
    }
  }

  /** Replacement can change s only where pat occurs. */
  lemma ReplaceAbsent(s: string, pat: string, rep: string)
    requires pat != "" && !Occurs(pat, s)
    ensures Replace(s, pat, rep) == s
    decreases |s|
  {
    if StartsWith(s, pat) {
      assert OccursAt(pat, s, 0);
    } else if s != "" {
      OccursStep(pat, s);
      ReplaceAbsent(s[1..], pat, rep);
    }
  }

  /** Two four-character segment markers such as "/en/" and "/ar/": both
      start with the same character, and the second and third characters
      of rep differ from it. */
  predicate SwapPair(pat: string, rep: string) {
    |pat| == 4 && |rep| == 4 && pat[0] == rep[0] && rep[1] != pat[0] && rep[2] != pat[0]
  }

  /** The first character survives the replacement. */
  lemma ReplaceHead(u: string, pat: string, rep: string)
    requires SwapPair(pat, rep) && u != ""
    ensures |Replace(u, pat, rep)| == |u| && Replace(u, pat, rep)[0] == u[0]
  {
    if StartsWith(u, pat) {
      assert u[..4][0] == u[0];
    }
  }

  /** When s does not start with pat, its replacement can start with rep
      only if s already did. */
  lemma ReplaceKeepsRepStart(s: string, pat: string, rep: string)
    requires SwapPair(pat, rep) && s != "" && !StartsWith(s, pat)
    ensures StartsWith(Replace(s, pat, rep), rep) ==> StartsWith(s, rep)
  {
    var r := Replace(s, pat, rep);
    if StartsWith(r, rep) {
      var t := Replace(s[1..], pat, rep);
      assert r == [s[0]] + t;
      assert |s| >= 4;
      ReplaceHead(s[1..], pat, rep);
      assert s[1] == rep[1];
      assert !StartsWith(s[1..], pat) by { assert s[1..][0] == s[1]; }
      assert t == [s[1]] + Replace(s[2..], pat, rep) by { assert s[1..][1..] == s[2..]; }
      ReplaceHead(s[2..], pat, rep);
      assert s[2] == rep[2];
      assert !StartsWith(s[2..], pat) by { assert s[2..][0] == s[2]; }
      assert Replace(s[2..], pat, rep) == [s[2]] + Replace(s[3..], pat, rep) by { assert s[2..][1..] == s[3..]; }
      ReplaceHead(s[3..], pat, rep);
      assert s[3] == rep[3];
      assert s[..4] == rep;
    }
  }

  /** Replacing pat by rep and then rep by pat gives back any string in
      which rep did not occur to begin with. */
  lemma {:induction false} ReplaceInverse(s: string, pat: string, rep: string)
    requires SwapPair(pat, rep) && !Occurs(rep, s)
    ensures Replace(Replace(s, pat, rep), rep, pat) == s
    decreases |s|
  {
    var r := Replace(s, pat, rep);
    if StartsWith(s, pat) {
      var t := Replace(s[4..], pat, rep);
      assert r == rep + t;
      if Occurs(rep, s[4..]) {
        OccursInSuffix(rep, s, 4);
      }
      ReplaceInverse(s[4..], pat, rep);
      assert (rep + t)[..4] == rep;
      assert (rep + t)[4..] == t;
      assert Replace(r, rep, pat) == pat + Replace(t, rep, pat);
      assert s == s[..4] + s[4..];
    } else if s == "" {
    } else {
      var t := Replace(s[1..], pat, rep);
      assert r == [s[0]] + t;
      ReplaceKeepsRepStart(s, pat, rep);
      assert !StartsWith(r, rep) by {
        if StartsWith(s, rep) { assert OccursAt(rep, s, 0); }
      }
      if Occurs(rep, s[1..]) {
        OccursInSuffix(rep, s, 1);
      }
      ReplaceInverse(s[1..], pat, rep);
      assert r[1..] == t;
      assert Replace(r, rep, pat) == [s[0]] + Replace(t, rep, pat);
    }
  }

  // --------------------------------------------------------------- Flatten

  lemma {:induction false} FlattenAppend<T>(a: seq<seq<T>>, b: seq<seq<T>>)
    ensures Flatten(a + b) == Flatten(a) + Flatten(b)
    decreases |b|
  {
    if b == [] {
      assert a + b == a;
    } else {
      var m := |b| - 1;
      assert (a + b)[..|a + b| - 1] == a + b[..m];
      FlattenAppend(a, b[..m]);
    }
  }

  /** Appending one more piece appends its elements. */
  lemma FlattenSnoc<T>(xss: seq<seq<T>>, x: seq<T>)
    ensures Flatten(xss + [x]) == Flatten(xss) + x
  {
    assert (xss + [x])[..|xss|] == xss;
  }

  lemma FlattenOne<T>(x: seq<T>)
    ensures Flatten([x]) == x
  {
    assert [x][..0] == [];
  }

  /** A concatenation starts with its first piece. */
  lemma {:induction false} FlattenStartsWith<T>(xss: seq<seq<T>>)
    requires |xss| > 0
    ensures |xss[0]| <= |Flatten(xss)| && Flatten(xss)[..|xss[0]|] == xss[0]
    decreases |xss|
  {
    var m := |xss| - 1;
    if m > 0 {
      FlattenStartsWith(xss[..m]);
      assert xss[..m][0] == xss[0];
      assert (Flatten(xss[..m]) + xss[m])[..|xss[0]|] == Flatten(xss[..m])[..|xss[0]|];
    } else {
      assert xss[..m] == [];
    }
  }

  /** A concatenation ends with its last piece. */
  lemma FlattenEndsWith(xss: seq<string>)
    requires |xss| > 0
    ensures EndsWith(Flatten(xss), xss[|xss| - 1])
  {
    var m := |xss| - 1;
    var a := Flatten(xss[..m]);
    assert (a + xss[m])[|a|..] == xss[m];
  }

  lemma EndsWithConcat(a: string, b: string)
    ensures EndsWith(a + b, b)
  {
    assert (a + b)[|a|..] == b;
  }

  // ------------------------------------------------------------ Join/Split

  /** `sep.join(xs)` ends with the last element: no separator follows it. */
  lemma {:induction false} JoinEndsWith(xs: seq<string>, sep: string)
    requires |xs| > 0
    ensures EndsWith(Join(xs, sep), xs[|xs| - 1])
    decreases |xs|
  {
    if |xs| == 1 {
      assert Join(xs, sep)[0..] == xs[0];
    } else {
      JoinEndsWith(xs[1..], sep);
      var t := Join(xs[1..], sep);
      assert xs[1..][|xs| - 2] == xs[|xs| - 1];
      var u := xs[|xs| - 1];
      assert t[|t| - |u|..] == u;
      assert (xs[0] + sep + t)[|xs[0] + sep + t| - |u|..] == t[|t| - |u|..];
    }
  }

  lemma {:induction false} SplitNoSep(x: string, sep: char)
    requires sep !in x
    ensures Split(x, sep) == [x]
    decreases |x|
  {
    if x != "" {
      SplitNoSep(x[1..], sep);
      assert [x[0]] + x[1..] == x;
    }
  }

  lemma {:induction false} SplitCons(x: string, sep: char, y: string)
    requires sep !in x
    ensures Split(x + [sep] + y, sep) == [x] + Split(y, sep)
    decreases |x|
  {
    var s := x + [sep] + y;
    if x == "" {
      assert s[1..] == y;
    } else {
      assert s[1..] == x[1..] + [sep] + y;
      SplitCons(x[1..], sep, y);
      assert [x[0]] + x[1..] == x;
    }
  }

  /** `text.split(sep)` recovers the lines that `sep.join` put together,
      as long as no line contains the separator. */
  lemma {:induction false} SplitJoin(xs: seq<string>, sep: char)
    requires |xs| >= 1
    requires forall x :: x in xs ==> sep !in x
    ensures Split(Join(xs, [sep]), sep) == xs
    decreases |xs|
  {
    if |xs| == 1 {
      SplitNoSep(xs[0], sep);
    } else {
      assert xs[0] in xs;
      assert forall x :: x in xs[1..] ==> x in xs;
      SplitJoin(xs[1..], sep);
      SplitCons(xs[0], sep, Join(xs[1..], [sep]));
      assert xs == [xs[0]] + xs[1..];
    }
  }
}
