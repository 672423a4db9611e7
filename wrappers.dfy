/** Optional values: the model's stand-in for JavaScript's `null`/`undefined`
    and Python's `None`. */
module Wrappers {

  datatype Option<+T> = None | Some(value: T) {
    function GetOr(default: T): T {
      match this
      case Some(v) => v
      case None => default
    }
  }
}

/** String helpers shared by the modules below. Strings are sequences of
    characters; only ASCII case folding is modelled. */
module Strings {

  /** `s.startswith(p)` / `s.startsWith(p)` */
  predicate StartsWith(s: string, p: string) {
    |p| <= |s| && s[..|p|] == p
  }

  /** `s.endswith(p)` / `s.endsWith(p)` */
  predicate EndsWith(s: string, p: string) {
    |p| <= |s| && s[|s| - |p|..] == p
  }

  /** `p` occurs in `s` starting at position `i`. */
  predicate OccursAt(s: string, p: string, i: int) {
    0 <= i && i + |p| <= |s| && s[i..i + |p|] == p
  }

  /** `p in s` (Python) / `s.includes(p)` (JavaScript) */
  predicate Contains(s: string, p: string) {
    exists i | 0 <= i <= |s| - |p| :: OccursAt(s, p, i)
  }

  lemma ContainsWitness(s: string, p: string, i: int)
    requires OccursAt(s, p, i)
    ensures Contains(s, p)
  {
  }

  lemma StartsWithContains(s: string, p: string)
    requires StartsWith(s, p)
    ensures Contains(s, p)
  {
    assert OccursAt(s, p, 0);
  }

  /** A string whose first character does not occur in `s` is not a
      substring of `s`. */
  lemma FirstCharAbsent(s: string, q: string)
    requires |q| > 0 && q[0] !in s
    ensures !Contains(s, q)
  {
  }

  /** A string whose first character occurs in `s` only at `j`, and which
      does not occur at `j`, is not a substring of `s`. */
  lemma FirstCharOnlyAt(s: string, q: string, j: int)
    requires |q| > 0
    requires forall i :: 0 <= i < |s| && s[i] == q[0] ==> i == j
    requires !OccursAt(s, q, j)
    ensures !Contains(s, q)
  {
    forall i | 0 <= i <= |s| - |q| && i != j
      ensures !OccursAt(s, q, i)
    {
      assert s[i..i + |q|][0] == s[i];
    }
  }

  /** ASCII `toLowerCase` of one character. */
  function LowerChar(c: char): (r: char)
    ensures 'A' <= c <= 'Z' ==> 'a' <= r <= 'z'
    ensures !('A' <= c <= 'Z') ==> r == c
  {
    if 'A' <= c <= 'Z' then (c as int + 32) as char else c
  }

  /** ASCII `toLowerCase` of a string, character by character. */
  function Lower(s: string): (r: string)
    ensures |r| == |s|
    ensures forall i :: 0 <= i < |s| ==> r[i] == LowerChar(s[i])
  {
    if s == [] then [] else [LowerChar(s[0])] + Lower(s[1..])
  }

  /** Python's `s.lstrip(c)`: drop every leading `c`. */
  function LStrip(s: string, c: char): (r: string)
    ensures |r| <= |s| && r == s[|s| - |r|..]
    ensures r == [] || r[0] != c
    ensures forall i :: 0 <= i < |s| - |r| ==> s[i] == c
  {
    if s != [] && s[0] == c then LStrip(s[1..], c) else s
  }
}

/** Sequence helpers shared by the modules below. */
module Seqs {

  /** `Array.prototype.indexOf` / `list.index` without the exception: the
      first position holding `x`, or -1 when there is none. */
  function IndexOf<T(==)>(s: seq<T>, x: T): (i: int)
    ensures -1 <= i < |s|
    ensures i == -1 <==> x !in s
    ensures 0 <= i ==> s[i] == x && x !in s[..i]
  {
    if s == [] then -1
    else if s[0] == x then 0
    else
      var j := IndexOf(s[1..], x);
      assert s[1..][..if j < 0 then 0 else j] == s[1..if j < 0 then 1 else j + 1];
      if j < 0 then -1 else j + 1
  }

  /** JavaScript `array.slice(-n)` / Python `lst[-n:]` for a positive `n`:
      the last `n` elements, or all of them when there are fewer. */
  function KeepLast<T>(s: seq<T>, n: nat): (r: seq<T>)
    ensures |r| == if |s| <= n then |s| else n
    ensures r == s[|s| - |r|..]
  {
    if |s| <= n then s else s[|s| - n..]
  }
}
