/** String helpers behind the prompt templates: JavaScript's `Array.join`,
    where each joined part lands, and character searches. */
module Strings {
  import opened Wrappers

  /** `parts.join(sep)`: the parts in order with `sep` between neighbours. */
  function Join(parts: seq<string>, sep: string): (r: string)
    ensures |parts| == 0 ==> r == ""
    ensures |parts| == 1 ==> r == parts[0]
  {
    if |parts| == 0 then ""
    else if |parts| == 1 then parts[0]
    else parts[0] + sep + Join(parts[1..], sep)
  }

  /** Where part `i` starts in `Join(parts, sep)`: every earlier part and one
      separator after each of them. */
  function Offset(parts: seq<string>, sep: string, i: nat): nat
    requires i <= |parts|
  {
    if i == 0 then 0 else |parts[0]| + |sep| + Offset(parts[1..], sep, i - 1)
  }

  /** `t` occurs in `s` as a contiguous substring. */
  ghost predicate Contains(s: string, t: string) {
    exists k :: 0 <= k <= |s| && t <= s[k..]
  }

  /** Part `i` appears verbatim at `Offset(parts, sep, i)` in the joined text. */
  lemma {:induction false} JoinAt(parts: seq<string>, sep: string, i: nat)
    requires i < |parts|
    ensures Offset(parts, sep, i) + |parts[i]| <= |Join(parts, sep)|
    ensures Join(parts, sep)[Offset(parts, sep, i)..Offset(parts, sep, i) + |parts[i]|] == parts[i]
  {
    var j := Join(parts, sep);
    if i == 0 {
      if |parts| > 1 {
        assert j == parts[0] + (sep + Join(parts[1..], sep));
      }
      assert j[..|parts[0]|] == parts[0];
    } else {
      var tail := Join(parts[1..], sep);
      var d := |parts[0]| + |sep|;
      var o := Offset(parts[1..], sep, i - 1);
      JoinAt(parts[1..], sep, i - 1);
      assert parts[1..][i - 1] == parts[i];
      assert j == (parts[0] + sep) + tail;
      assert j[d + o..d + o + |parts[i]|] == tail[o..o + |parts[i]|];
    }
  }

  /** Between part `i` and part `i + 1` stands exactly one separator. */
  lemma {:induction false} JoinSeparatorAt(parts: seq<string>, sep: string, i: nat)
    requires i + 1 < |parts|
    ensures Offset(parts, sep, i + 1) <= |Join(parts, sep)|
    ensures Offset(parts, sep, i) + |parts[i]| + |sep| == Offset(parts, sep, i + 1)
    ensures Join(parts, sep)[Offset(parts, sep, i) + |parts[i]|..Offset(parts, sep, i + 1)] == sep
  {
    var j := Join(parts, sep);
    var tail := Join(parts[1..], sep);
    assert j == (parts[0] + sep) + tail;
    if i == 0 {
      assert j[|parts[0]|..|parts[0]| + |sep|] == sep;
    } else {
      var d := |parts[0]| + |sep|;
      JoinSeparatorAt(parts[1..], sep, i - 1);
      assert parts[1..][i - 1] == parts[i];
      var lo := Offset(parts[1..], sep, i - 1) + |parts[i]|;
      var hi := Offset(parts[1..], sep, i);
      assert j[d + lo..d + hi] == tail[lo..hi];
    }
  }

  /** The joined text ends right after the last part: together with
      `JoinAt` and `JoinSeparatorAt` this determines every character. */
  lemma {:induction false} JoinLength(parts: seq<string>, sep: string)
    requires |parts| > 0
    ensures |Join(parts, sep)| + |sep| == Offset(parts, sep, |parts|)
  {
    if |parts| > 1 {
      JoinLength(parts[1..], sep);
    }
  }

  /** Parts keep their input order: a later part starts after an earlier
      one ends. */
  lemma {:induction false} OffsetOrdered(parts: seq<string>, sep: string, i: nat, k: nat)
    requires i < k <= |parts|
    ensures Offset(parts, sep, i) + |parts[i]| + |sep| <= Offset(parts, sep, k)
  {
    if i > 0 {
      OffsetOrdered(parts[1..], sep, i - 1, k - 1);
      assert parts[1..][i - 1] == parts[i];
    }
  }

  /** A text that starts at position `k` of `b` starts at position
      `|a| + k` of `a + b + c`. */
  lemma InfixOfConcat(a: string, b: string, c: string, k: nat, t: string)
    requires k <= |b| && t <= b[k..]
    ensures |a| + k + |t| <= |a + b + c|
    ensures t <= (a + b + c)[|a| + k..]
  {
    var s := a + b + c;
    assert s[|a| + k..] == b[k..] + c;
  }

  /** A text found at position `k` of a prefix `u` of `s` is found at
      position `k` of `s` too. */
  lemma InfixOfPrefix(u: string, s: string, k: nat, t: string)
    requires u <= s && k <= |u| && t <= u[k..]
    ensures t <= s[k..]
  {
    assert s[k..] == u[k..] + s[|u|..];
  }

  /** The first position at or after `from` that holds `c`. */
  function IndexOf(s: string, c: char, from: nat): (r: Option<nat>)
    decreases |s| - from
    ensures r.Some? ==> from <= r.value < |s| && s[r.value] == c
    ensures r.Some? ==> forall k :: from <= k < r.value ==> s[k] != c
    ensures r.None? ==> forall k :: from <= k < |s| ==> s[k] != c
  {
    if from >= |s| then None
    else if s[from] == c then Some(from)
    else IndexOf(s, c, from + 1)
  }

  /** The last position of `s` that holds `c`. */
  function LastIndexOf(s: string, c: char): (r: Option<nat>)
    ensures r.Some? ==> r.value < |s| && s[r.value] == c
    ensures r.Some? ==> forall k :: r.value < k < |s| ==> s[k] != c
    ensures r.None? ==> forall k :: 0 <= k < |s| ==> s[k] != c
  {
    if |s| == 0 then None
    else if s[|s| - 1] == c then Some(|s| - 1)
    else LastIndexOf(s[..|s| - 1], c)
  }
}
