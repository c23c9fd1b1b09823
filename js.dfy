/** The handful of JavaScript value semantics the route handlers rely on:
    missing values, truthiness, the `||` fallback, `String.prototype.substring`
    and `Array.prototype.join`. Strings are sequences of characters; the
    source's `substring` counts UTF-16 code units, which this model identifies
    with characters. */
module Js {

  /** A value that may be missing: `None` stands for both `null` and `undefined`. */
  datatype Option<+T> = None | Some(value: T)

  function Min(a: int, b: int): int
  {
    if a <= b then a else b
  }

  /** JavaScript truthiness of an optional string: `null`, `undefined` and `""` are falsy. */
  predicate Truthy(v: Option<string>)
  {
    v.Some? && v.value != ""
  }

  /** `v || fallback` on an optional string. */
  function Or(v: Option<string>, fallback: string): (r: string)
    ensures Truthy(v) ==> r == v.value
    ensures !Truthy(v) ==> r == fallback
  {
    if Truthy(v) then v.value else fallback
  }

  /** `s.substring(0, n)` for a non-negative `n`: the prefix of `s` of length `min(n, |s|)`. */
  function Substring(s: string, n: nat): (r: string)
    ensures |r| == Min(n, |s|)
    ensures r <= s
  {
    s[..Min(n, |s|)]
  }

  /** `parts.join(sep)`. */
  function Join(parts: seq<string>, sep: string): string
  {
    if |parts| == 0 then ""
    else if |parts| == 1 then parts[0]
    else parts[0] + sep + Join(parts[1..], sep)
  }

  /** `t` occurs somewhere inside `s`. */
  predicate Occurs(t: string, s: string)
  {
    exists k | 0 <= k <= |s| :: t <= s[k..]
  }

  /** With a non-empty separator, a join is the (falsy) empty string exactly
      when there is nothing to join or the one element is itself empty. */
  lemma JoinEmptyIff(parts: seq<string>, sep: string)
    requires sep != ""
    ensures Join(parts, sep) == "" <==> |parts| == 0 || (|parts| == 1 && parts[0] == "")
  {
    if |parts| >= 2 {
      assert |Join(parts, sep)| >= |sep|;
    }
  }

  /** Joining with the empty separator, unfolded one element at a time. */
  lemma JoinNoSeparatorCons(parts: seq<string>)
    requires parts != []
    ensures Join(parts, "") == parts[0] + Join(parts[1..], "")
  {
    if |parts| == 1 {
      assert parts[1..] == [];
    } else {
      assert parts[0] + "" == parts[0];
    }
  }

  /** `parts.join("")` holds `parts[i]` at its place: after everything before
      it and before everything after it. */
  lemma {:induction false} JoinNoSeparatorSplit(parts: seq<string>, i: nat)
    requires i < |parts|
    ensures Join(parts, "") == Join(parts[..i], "") + parts[i] + Join(parts[i + 1..], "")
  {
    JoinNoSeparatorCons(parts);
    if i == 0 {
      assert parts[..0] == [];
    } else {
      var tail := parts[1..];
      JoinNoSeparatorSplit(tail, i - 1);
      assert tail[..i - 1] == parts[1..i];
      assert tail[i..] == parts[i + 1..];
      assert parts[..i][0] == parts[0] && parts[..i][1..] == parts[1..i];
      JoinNoSeparatorCons(parts[..i]);
    }
  }

  lemma OccursInContext(t: string, a: string, b: string)
    ensures Occurs(t, a + t + b)
  {
    var s := a + t + b;
    assert t <= s[|a|..];
  }

  /** Every element of `parts` occurs in `before + parts.join("") + after`. */
  lemma JoinedPartOccurs(parts: seq<string>, i: nat, before: string, after: string)
    requires i < |parts|
    ensures Occurs(parts[i], before + Join(parts, "") + after)
  {
    var x, y := Join(parts[..i], ""), Join(parts[i + 1..], "");
    JoinNoSeparatorSplit(parts, i);
    Regroup(before, x, parts[i], y, after);
    OccursInContext(parts[i], before + x, y + after);
  }

  /** Two neighbouring elements of `parts` occur together, with nothing
      between them, in `before + parts.join("") + after`. */
  lemma JoinedPairOccurs(parts: seq<string>, i: nat, before: string, after: string)
    requires i + 1 < |parts|
    ensures Occurs(parts[i] + parts[i + 1], before + Join(parts, "") + after)
  {
    var x, y := Join(parts[..i], ""), Join(parts[i + 2..], "");
    var rest := parts[i + 1..];
    JoinNoSeparatorSplit(parts, i);
    JoinNoSeparatorCons(rest);
    assert rest[0] == parts[i + 1] && rest[1..] == parts[i + 2..];
    Regroup4(x, parts[i], parts[i + 1], y);
    Regroup(before, x, parts[i] + parts[i + 1], y, after);
    OccursInContext(parts[i] + parts[i + 1], before + x, y + after);
  }

  /** `before + parts.join("") + after` starts with `before` and the first element. */
  lemma JoinedStart(parts: seq<string>, before: string, after: string)
    requires parts != []
    ensures StartsWith(before + Join(parts, "") + after, before + parts[0])
  {
    var y := Join(parts[1..], "");
    JoinNoSeparatorCons(parts);
    Regroup4(before, parts[0], y, after);
    Framed(before + parts[0], y, after);
  }

  /** `before + parts.join("") + after` ends with the last element and `after`. */
  lemma JoinedEnd(parts: seq<string>, before: string, after: string)
    requires parts != []
    ensures EndsWith(before + Join(parts, "") + after, parts[|parts| - 1] + after)
  {
    var n := |parts|;
    var x := Join(parts[..n - 1], "");
    JoinNoSeparatorSplit(parts, n - 1);
    assert Join(parts[n..], "") == "";
    EmptyRight(x + parts[n - 1]);
    Regroup4(before, x, parts[n - 1], after);
    Framed(before, x, parts[n - 1] + after);
  }

  lemma EmptyRight<T>(a: seq<T>)
    ensures a + [] == a
  {
  }

  lemma Regroup4<T>(a: seq<T>, b: seq<T>, c: seq<T>, d: seq<T>)
    ensures a + (b + c) + d == a + b + (c + d)
    ensures a + (b + c + d) == a + b + c + d
  {
  }

  /** `s.startsWith(t)` */
  predicate StartsWith(s: string, t: string)
  {
    t <= s
  }

  /** `s.endsWith(t)` */
  predicate EndsWith(s: string, t: string)
  {
    |t| <= |s| && s[|s| - |t|..] == t
  }

  /** The first part of a three-part concatenation is its prefix and the last part its suffix. */
  lemma Framed(a: string, b: string, c: string)
    ensures StartsWith(a + b + c, a)
    ensures EndsWith(a + b + c, c)
  {
    assert (a + b + c)[..|a|] == a;
    assert (a + b + c)[|a + b|..] == c;
  }

  lemma Regroup(w: string, x: string, t: string, y: string, z: string)
    ensures w + (x + t + y) + z == (w + x) + t + (y + z)
  {
  }
}
