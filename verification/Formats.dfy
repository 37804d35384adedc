/**
 Bank formats (cnvr14.c, cnvr41.c): nested repeat groups of type codes, and the type that a
 format gives to every word of an unbounded stream.

 A code is encoded as 10 * n + k, the beginning of a group repeated n times as 10 * n, its end
 as 0.  When the format is used up it goes on with the last group of the outermost level.
 */
module Formats {
  datatype Format =
    | Nil
    | Code(n: nat, k: nat, rest: Format)
    | Group(n: nat, body: Format, rest: Format)

  function Encode(f: Format): seq<int> {
    match f
    case Nil => []
    case Code(n, k, rest) => [10 * n + k] + Encode(rest)
    case Group(n, body, rest) => [10 * n] + Encode(body) + [0] + Encode(rest)
  }

  /** Repeat counts are positive, type codes have one digit, groups are not empty. */
  predicate WellFormed(f: Format) {
    match f
    case Nil => true
    case Code(n, k, rest) => n > 0 && 0 < k < 10 && WellFormed(rest)
    case Group(n, body, rest) => n > 0 && body != Nil && WellFormed(body) && WellFormed(rest)
  }

  /** How deep groups are nested. */
  function Depth(f: Format): nat {
    match f
    case Nil => 0
    case Code(_, _, rest) => Depth(rest)
    case Group(_, body, rest) => if 1 + Depth(body) > Depth(rest) then 1 + Depth(body) else Depth(rest)
  }

  function Size(f: Format): nat {
    match f
    case Nil => 0
    case Code(_, _, rest) => 1 + Size(rest)
    case Group(_, body, rest) => 1 + Size(body) + Size(rest)
  }

  function Repeat(s: seq<nat>, n: nat): seq<nat> {
    if n == 0 then [] else s + Repeat(s, n - 1)
  }

  /** The types of one pass over the format. */
  function Once(f: Format): seq<nat> {
    match f
    case Nil => []
    case Code(n, k, rest) => Repeat([k], n) + Once(rest)
    case Group(n, body, rest) => Repeat(Once(body), n) + Once(rest)
  }

  /** The part of the format from its last outermost group on; `d` if there is no group. */
  function Revert(f: Format, d: Format): Format {
    match f
    case Nil => d
    case Code(_, _, rest) => Revert(rest, d)
    case Group(_, _, rest) => Revert(rest, f)
  }

  /** The `p`-th type of a stream that starts with `s` and then repeats `t`. */
  function StreamAt(s: seq<nat>, t: seq<nat>, p: nat): nat
    requires t != []
    decreases p, if s == [] then 1 else 0
  {
    if p < |s| then s[p] else StreamAt(t, t, p - |s|)
  }

  lemma {:induction false} OnceNotEmpty(f: Format)
    requires WellFormed(f) && f != Nil
    ensures Once(f) != []
  {
    match f
    case Code(n, k, rest) =>
    case Group(n, body, rest) => OnceNotEmpty(body);
  }

  lemma {:induction false} RevertNotEmpty(f: Format, d: Format)
    requires WellFormed(f) && WellFormed(d) && (f != Nil || d != Nil) && d != Nil
    ensures Revert(f, d) != Nil && WellFormed(Revert(f, d))
  {
    match f
    case Nil =>
    case Code(n, k, rest) => RevertNotEmpty(rest, d);
    case Group(n, body, rest) => RevertNotEmpty(rest, f);
  }

  /** The type of the `p`-th word, counted from zero, in the unbounded use of a format. */
  ghost function TypeAt(f: Format, p: nat): nat
    requires WellFormed(f) && f != Nil
  {
    RevertNotEmpty(f, f);
    OnceNotEmpty(Revert(f, f));
    StreamAt(Once(f), Once(Revert(f, f)), p)
  }

  /** Taking `c` words off the front of a stream. */
  lemma StreamDrop(s: seq<nat>, t: seq<nat>, c: nat, p: nat)
    requires t != [] && c <= |s|
    ensures StreamAt(s, t, c + p) == StreamAt(s[c..], t, p)
  {
  }

  lemma {:induction false} RepeatAt(k: nat, n: nat, p: nat)
    ensures |Repeat([k], n)| == n
    ensures p < n ==> Repeat([k], n)[p] == k
  {
    if n > 0 && p > 0 { RepeatAt(k, n - 1, p - 1); } else if n > 0 { RepeatAt(k, n - 1, 0); }
  }

  lemma {:induction false} RepeatDrop(k: nat, n: nat, c: nat)
    requires c <= n
    ensures |Repeat([k], n)| == n && Repeat([k], n)[c..] == Repeat([k], n - c)
  {
    RepeatAt(k, n, 0);
    if c > 0 {
      RepeatDrop(k, n - 1, c - 1);
      assert Repeat([k], n)[c..] == Repeat([k], n - 1)[c - 1..];
    }
  }
}
