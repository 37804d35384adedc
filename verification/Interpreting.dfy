/**
 The format interpreter that cnvr14.c and cnvr41.c share: fetching the next type code.
 */
module Interpreting {
  import opened Formats
  import opened Slices

  const MANY := 999999999

  /** One row of the table of open groups: position of the parenthesis, repeat count, repetitions done. */
  datatype Level = Level(start: int, count: int, done: int)

  /** The groups that are open: what is left of each, innermost first. */
  datatype Stack =
    | Bottom
    | Frame(start: int, n: nat, done: nat, body: Format, rest: Format, outer: Stack)

  function Height(st: Stack): nat {
    match st
    case Bottom => 0
    case Frame(_, _, _, _, _, outer) => 1 + Height(outer)
  }

  /** The codes behind the present position that belong to open groups. */
  function Suffix(st: Stack): seq<int> {
    match st
    case Bottom => []
    case Frame(_, _, _, _, rest, outer) => [0] + Encode(rest) + Suffix(outer)
  }

  /** The types that open groups still have to give in this pass. */
  ghost function Left(st: Stack): seq<nat> {
    match st
    case Bottom => []
    case Frame(_, n, done, body, rest, outer) =>
      (if done < n then Repeat(Once(body), n - 1 - done) else []) + Once(rest) + Left(outer)
  }

  /** The table of open groups and the stack agree. */
  ghost predicate Frames(ifmt: seq<int>, st: Stack, lv: seq<Level>) {
    Height(st) <= |lv| &&
    match st
    case Bottom => true
    case Frame(start, n, done, body, rest, outer) =>
      && lv[Height(outer)] == Level(start, n, done) && done < n
      && 0 < start <= |ifmt| && ifmt[start - 1] == 10 * n && ifmt[start..] == Encode(body) + Suffix(st)
      && body != Nil && WellFormed(body) && WellFormed(rest)
      && Depth(body) + Height(st) <= |lv| && Depth(rest) + Height(outer) <= |lv|
      && Frames(ifmt, outer, lv)
  }

  /** Where the format will start over when it is used up. */
  ghost function Turn(st: Stack, cur: Format, it: Format): Format {
    match st
    case Bottom => Revert(cur, it)
    case Frame(_, n, _, body, rest, outer) => Turn(outer, rest, Group(n, body, rest))
  }

  ghost predicate Restart(ifmt: seq<int>, iterm: int, it: Format, lv: seq<Level>) {
    0 <= iterm <= |ifmt| && ifmt[iterm..] == Encode(it) && WellFormed(it) && it != Nil && Depth(it) <= |lv|
  }

  /** The interpreter is behind code `imt` of the format `f`, with `cur` to come in the innermost group. */
  ghost predicate At(f: Format, ifmt: seq<int>, imt: int, iterm: int, cur: Format, st: Stack, it: Format,
                     lv: seq<Level>) {
    && WellFormed(f) && f != Nil && ifmt == Encode(f)
    && 0 <= imt <= |ifmt| && WellFormed(cur) && ifmt[imt..] == Encode(cur) + Suffix(st)
    && Depth(cur) + Height(st) <= |lv| && Frames(ifmt, st, lv)
    && Turn(st, cur, it) == Revert(f, f)
    && (st == Bottom ==> Restart(ifmt, iterm, it, lv))
  }

  /** From its `c`-th word on, the types of format `f` are `s` and then its period. */
  ghost predicate Streams(f: Format, c: nat, s: seq<nat>) {
    WellFormed(f) && f != Nil &&
    Once(Revert(f, f)) != [] && forall q: nat :: TypeAt(f, c + q) == StreamAt(s, Once(Revert(f, f)), q)
  }

  // ---- Steps ----------------------------------------------------------------------------------------

  lemma AtStart(f: Format, lv: seq<Level>)
    requires WellFormed(f) && f != Nil && Depth(f) <= |lv|
    ensures At(f, Encode(f), 0, 0, f, Bottom, f, lv)
    ensures Streams(f, 0, Once(f) + Left(Bottom))
  {
    RevertNotEmpty(f, f);
    OnceNotEmpty(Revert(f, f));
    assert Encode(f)[0..] == Encode(f) && Encode(f) + [] == Encode(f);
    assert Once(f) + [] == Once(f);
  }

  /** The format is used up. */
  lemma StepRevert(f: Format, ifmt: seq<int>, imt: int, iterm: int, it: Format, lv: seq<Level>)
    requires At(f, ifmt, imt, iterm, Nil, Bottom, it, lv)
    ensures imt == |ifmt| && it != Nil && At(f, ifmt, iterm, iterm, it, Bottom, it, lv)
    ensures forall c: nat :: Streams(f, c, Once(Nil) + Left(Bottom)) ==> Streams(f, c, Once(it) + Left(Bottom))
  {
    assert Encode(it) + [] == Encode(it) && Once(it) + [] == Once(it);
    assert ifmt[imt..] == [];
    RevertTwice(f);
    forall c: nat | Streams(f, c, Once(Nil) + Left(Bottom)) ensures Streams(f, c, Once(it) + Left(Bottom)) {
      StreamSame(f, c, [], Once(it));
    }
  }

  /** Two streams with the same types. */
  lemma StreamSame(f: Format, c: nat, s: seq<nat>, s': seq<nat>)
    requires WellFormed(f) && f != Nil && Streams(f, c, s)
    requires forall q: nat :: StreamAt(s, Once(Revert(f, f)), q) == StreamAt(s', Once(Revert(f, f)), q)
    ensures Streams(f, c, s')
  {
  }

  predicate NoGroups(f: Format) {
    match f
    case Nil => true
    case Code(_, _, rest) => NoGroups(rest)
    case Group(_, _, _) => false
  }

  lemma {:induction false} RevertFlat(f: Format, d: Format)
    requires NoGroups(f)
    ensures Revert(f, d) == d
  {
    if f.Code? { RevertFlat(f.rest, d); }
  }

  lemma {:induction false} RevertShape(f: Format, d: Format)
    ensures if NoGroups(f) then Revert(f, d) == d else Revert(f, d).Group? && NoGroups(Revert(f, d).rest)
  {
    match f
    case Nil =>
    case Code(_, _, rest) => RevertShape(rest, d);
    case Group(_, _, rest) => RevertShape(rest, f);
  }

  /** The part that is repeated reverts to itself. */
  lemma RevertTwice(f: Format)
    ensures Revert(Revert(f, f), Revert(f, f)) == Revert(f, f)
  {
    var r := Revert(f, f);
    RevertShape(f, f);
    if r.Group? && !NoGroups(f) { RevertFlat(r.rest, r); }
  }

  lemma {:induction false} FramesKept(ifmt: seq<int>, st: Stack, lv: seq<Level>, lv': seq<Level>)
    requires Frames(ifmt, st, lv) && |lv'| == |lv| && forall i :: 0 <= i < Height(st) ==> lv'[i] == lv[i]
    ensures Frames(ifmt, st, lv')
  {
    if st.Frame? { FramesKept(ifmt, st.outer, lv, lv'); }
  }

  lemma Behind(ifmt: seq<int>, imt: int, t: int, s: seq<int>)
    requires 0 <= imt <= |ifmt| && ifmt[imt..] == [t] + s
    ensures imt < |ifmt| && ifmt[imt] == t && ifmt[imt + 1..] == s
  {
    assert ifmt[imt..][0] == t;
    assert ifmt[imt..][1..] == ifmt[imt + 1..];
  }

  lemma GroupCodes(n: nat, body: Format, rest: Format, st: Stack, st': Stack)
    requires st'.Frame? && st'.rest == rest && st'.outer == st
    ensures Encode(Group(n, body, rest)) + Suffix(st) == [10 * n] + (Encode(body) + Suffix(st'))
    ensures Suffix(st') == [0] + (Encode(rest) + Suffix(st))
    ensures Encode(Nil) + Suffix(st') == Suffix(st')
  {
    var a, b, c := Encode(body), Encode(rest), Suffix(st);
    Assoc([0], b, c);
    Assoc([10 * n] + a + [0], b, c);
    Assoc([10 * n] + a, [0], b + c);
    Assoc([10 * n], a, [0] + (b + c));
  }

  lemma CodeCodes(n: nat, k: nat, rest: Format, s: seq<int>)
    ensures Encode(Code(n, k, rest)) + s == [10 * n + k] + (Encode(rest) + s)
  {
    var a := Encode(rest);
    assert [10 * n + k] + a + s == [10 * n + k] + (a + s);
  }

  /** A left parenthesis. */
  lemma StepOpen(f: Format, ifmt: seq<int>, imt: int, iterm: int, cur: Format, st: Stack, it: Format, lv: seq<Level>)
    requires At(f, ifmt, imt, iterm, cur, st, it, lv) && cur.Group?
    ensures imt < |ifmt| && ifmt[imt] == 10 * cur.n && Height(st) < |lv|
    ensures At(f, ifmt, imt + 1, iterm, cur.body, Frame(imt + 1, cur.n, 0, cur.body, cur.rest, st), it,
               lv[Height(st) := Level(imt + 1, cur.n, 0)])
    ensures Once(cur.body) + Left(Frame(imt + 1, cur.n, 0, cur.body, cur.rest, st)) == Once(cur) + Left(st)
  {
    hide Once, Left, Encode, Suffix;
    var st' := Frame(imt + 1, cur.n, 0, cur.body, cur.rest, st);
    GroupCodes(cur.n, cur.body, cur.rest, st, st');
    Behind(ifmt, imt, 10 * cur.n, Encode(cur.body) + Suffix(st'));
    FramesKept(ifmt, st, lv, lv[Height(st) := Level(imt + 1, cur.n, 0)]);
    OnceOpen(cur, st, imt + 1);
    assert Turn(st', cur.body, it) == Turn(st, cur, it);
  }

  lemma OnceOpen(cur: Format, st: Stack, start: int)
    requires cur.Group? && cur.n > 0
    ensures Once(cur.body) + Left(Frame(start, cur.n, 0, cur.body, cur.rest, st)) == Once(cur) + Left(st)
  {
    var a, b, c, d := Once(cur.body), Repeat(Once(cur.body), cur.n - 1), Once(cur.rest), Left(st);
    Assoc(b, c, d);
    Assoc(a, b, c + d);
    Assoc(a + b, c, d);
  }

  /** A right parenthesis, with repetitions left. */
  lemma StepAgain(f: Format, ifmt: seq<int>, imt: int, iterm: int, st: Stack, it: Format, lv: seq<Level>)
    requires At(f, ifmt, imt, iterm, Nil, st, it, lv) && st.Frame? && st.done + 1 < st.n
    ensures imt < |ifmt| && ifmt[imt] == 0 && Height(st.outer) < |lv|
    ensures lv[Height(st.outer)] == Level(st.start, st.n, st.done)
    ensures At(f, ifmt, st.start, iterm, st.body, st.(done := st.done + 1), it,
               lv[Height(st.outer) := Level(st.start, st.n, st.done + 1)])
    ensures Once(st.body) + Left(st.(done := st.done + 1)) == Once(Nil) + Left(st)
  {
    hide Once, Left, Encode, Suffix, Frames, WellFormed;
    GroupCodes(st.n, st.body, st.rest, st.outer, st);
    Behind(ifmt, imt, 0, Encode(st.rest) + Suffix(st.outer));
    FramesAgain(ifmt, st, lv);
    OnceAgain(st);
  }

  lemma FramesAgain(ifmt: seq<int>, st: Stack, lv: seq<Level>)
    requires Frames(ifmt, st, lv) && st.Frame? && st.done + 1 < st.n
    ensures Height(st.outer) < |lv| && lv[Height(st.outer)] == Level(st.start, st.n, st.done)
    ensures var st', lv' := st.(done := st.done + 1), lv[Height(st.outer) := Level(st.start, st.n, st.done + 1)];
            Frames(ifmt, st', lv') && 0 < st.start <= |ifmt| && ifmt[st.start..] == Encode(st.body) + Suffix(st')
            && Height(st') == Height(st) && Depth(st.body) + Height(st) <= |lv| && WellFormed(st.body)
  {
    hide Encode, Suffix, WellFormed;
    GroupCodes(st.n, st.body, st.rest, st.outer, st);
    GroupCodes(st.n, st.body, st.rest, st.outer, st.(done := st.done + 1));
    FramesKept(ifmt, st.outer, lv, lv[Height(st.outer) := Level(st.start, st.n, st.done + 1)]);
  }

  lemma OnceAgain(st: Stack)
    requires st.Frame? && st.done + 1 < st.n
    ensures Once(st.body) + Left(st.(done := st.done + 1)) == Once(Nil) + Left(st)
  {
    var o, m, c, d := Once(st.body), st.n - 2 - st.done, Once(st.rest), Left(st.outer);
    assert Repeat(o, m + 1) == o + Repeat(o, m);
    AddFour(o, Repeat(o, m), c, d);
  }

  lemma AddFour(a: seq<nat>, b: seq<nat>, c: seq<nat>, d: seq<nat>)
    ensures a + (b + c + d) == [] + (a + b + c + d)
  {
    Assoc(b, c, d);
    Assoc(a, b, c + d);
    Assoc(a + b, c, d);
    assert [] + (a + b + c + d) == a + b + c + d;
  }

  /** A right parenthesis, the group being finished. */
  lemma StepClose(f: Format, ifmt: seq<int>, imt: int, iterm: int, st: Stack, it: Format, lv: seq<Level>, d: int)
    requires At(f, ifmt, imt, iterm, Nil, st, it, lv) && st.Frame? && st.done + 1 >= st.n
    ensures imt < |ifmt| && ifmt[imt] == 0 && Height(st.outer) < |lv|
    ensures lv[Height(st.outer)] == Level(st.start, st.n, st.done)
    ensures At(f, ifmt, imt + 1, st.start - 1, st.rest, st.outer, Group(st.n, st.body, st.rest),
               lv[Height(st.outer) := Level(st.start, st.n, d)])
    ensures Once(st.rest) + Left(st.outer) == Once(Nil) + Left(st)
  {
    hide Once, Left, Encode, Suffix;
    GroupCodes(st.n, st.body, st.rest, st.outer, st);
    Behind(ifmt, imt, 0, Encode(st.rest) + Suffix(st.outer));
    FramesKept(ifmt, st.outer, lv, lv[Height(st.outer) := Level(st.start, st.n, d)]);
    OnceClosed(st);
    if st.outer == Bottom {
      assert ifmt[st.start - 1..] == [ifmt[st.start - 1]] + ifmt[st.start..];
      NoSuffix(Group(st.n, st.body, st.rest));
    }
  }

  lemma NoSuffix(g: Format)
    ensures Encode(g) + Suffix(Bottom) == Encode(g)
  {
  }

  lemma OnceClosed(st: Stack)
    requires st.Frame? && st.done < st.n <= st.done + 1
    ensures Once(st.rest) + Left(st.outer) == Once(Nil) + Left(st)
  {
    assert [] + Once(st.rest) + Left(st.outer) == Once(st.rest) + Left(st.outer);
  }

  /** A type code. */
  lemma StepCode(f: Format, ifmt: seq<int>, imt: int, iterm: int, cur: Format, st: Stack, it: Format, lv: seq<Level>)
    requires At(f, ifmt, imt, iterm, cur, st, it, lv) && cur.Code?
    ensures imt < |ifmt| && ifmt[imt] == 10 * cur.n + cur.k
    ensures At(f, ifmt, imt + 1, iterm, cur.rest, st, it, lv)
    ensures Repeat([cur.k], cur.n) + (Once(cur.rest) + Left(st)) == Once(cur) + Left(st)
  {
    hide Left, Encode, Suffix, Repeat;
    CodeCodes(cur.n, cur.k, cur.rest, Suffix(st));
    Behind(ifmt, imt, 10 * cur.n + cur.k, Encode(cur.rest) + Suffix(st));
    AddThree(Repeat([cur.k], cur.n), Once(cur.rest), Left(st));
    assert Turn(st, cur.rest, it) == Turn(st, cur, it);
  }

  lemma AddThree(a: seq<nat>, b: seq<nat>, c: seq<nat>)
    ensures a + (b + c) == (a + b) + c
  {
  }

  // ---- The shortcut for a last group of one code -------------------------------------------------------

  ghost predicate Constant(s: seq<nat>, k: nat) {
    forall i :: 0 <= i < |s| ==> s[i] == k
  }

  lemma {:induction false} ConstantStream(s: seq<nat>, t: seq<nat>, k: nat, p: nat)
    requires t != [] && Constant(s, k) && Constant(t, k)
    ensures StreamAt(s, t, p) == k
    decreases p, if s == [] then 1 else 0
  {
    if p >= |s| { ConstantStream(t, t, k, p - |s|); }
  }

  lemma {:induction false} ConstantRepeat(s: seq<nat>, n: nat, k: nat)
    requires Constant(s, k)
    ensures Constant(Repeat(s, n), k)
  {
    if n > 0 { ConstantRepeat(s, n - 1, k); }
  }

  lemma {:induction false} EncodeEmpty(f: Format)
    ensures Encode(f) == [] <==> f == Nil
  {
  }

  lemma ConstantAdd(s: seq<nat>, t: seq<nat>, k: nat)
    requires Constant(s, k) && Constant(t, k)
    ensures Constant(s + t, k)
  {
  }

  /** A body of one word is a single type code. */
  lemma OneCode(body: Format, n: nat, k: nat)
    requires WellFormed(body) && 0 < k < 10 && Encode(body) == [10 * n + k]
    ensures body == Code(n, k, Nil)
  {
    match body
    case Nil =>
    case Code(n', k', rest) =>
      assert |Encode(rest)| == 0;
      EncodeEmpty(rest);
      assert Encode(body)[0] == 10 * n' + k';
    case Group(_, b, rest) =>
  }

  /** What the source's test means: a last group whose only code is `cur`. */
  lemma LastGroup(f: Format, ifmt: seq<int>, imt: int, iterm: int, cur: Format, st: Stack, it: Format, lv: seq<Level>)
    requires At(f, ifmt, imt, iterm, cur, st, it, lv) && cur.Code? && st != Bottom
    requires imt + 1 == |ifmt| - 1 && imt + 1 == lv[Height(st) - 1].start + 1
    ensures cur.rest == Nil && st.rest == Nil && st.outer == Bottom && st.body == cur
    ensures Revert(f, f) == Group(st.n, cur, Nil)
  {
    StepCode(f, ifmt, imt, iterm, cur, st, it, lv);
    assert |Encode(cur.rest) + ([0] + Encode(st.rest) + Suffix(st.outer))| == 1;
    EncodeEmpty(cur.rest);
    EncodeEmpty(st.rest);
    LastFrame(st.outer);
    assert Suffix(st) == [0];
    assert Encode(cur) + Suffix(st) == Encode(st.body) + Suffix(st);
    assert (Encode(cur) + Suffix(st))[..|ifmt| - imt - 1] == Encode(cur);
    assert (Encode(st.body) + Suffix(st))[..|ifmt| - imt - 1] == Encode(st.body);
    OneCode(st.body, cur.n, cur.k);
    assert Turn(st, cur, it) == Turn(Bottom, Nil, Group(st.n, st.body, Nil)) == Revert(Nil, Group(st.n, st.body, Nil));
  }

  /** When the source's test succeeds, only this code is left for ever. */
  lemma StepMany(f: Format, ifmt: seq<int>, imt: int, iterm: int, cur: Format, st: Stack, it: Format, lv: seq<Level>)
    requires At(f, ifmt, imt, iterm, cur, st, it, lv) && cur.Code? && st != Bottom
    requires imt + 1 == |ifmt| - 1 && imt + 1 == lv[Height(st) - 1].start + 1
    ensures forall c: nat :: Streams(f, c, Once(cur) + Left(st)) ==>
        Streams(f, c, Repeat([cur.k], MANY) + (Once(cur.rest) + Left(st)))
  {
    hide Encode, Suffix, Frames;
    LastGroup(f, ifmt, imt, iterm, cur, st, it, lv);
    var k, o := cur.k, Once(cur);
    ConstantRepeat([k], cur.n, k);
    assert cur == Code(cur.n, k, Nil) && Once(Nil) == [];
    assert o == Repeat([k], cur.n) + Once(Nil);
    ConstantRepeat(o, st.n, k);
    assert Once(Revert(f, f)) == Repeat(o, st.n) + [];
    var m := if st.done < st.n then st.n - 1 - st.done else 0;
    ConstantRepeat(o, m, k);
    assert Constant(Left(st), k);
    ConstantRepeat([k], MANY, k);
    ConstantAdd(o, Left(st), k);
    assert [] + Left(st) == Left(st);
    ConstantAdd(Repeat([k], MANY), Left(st), k);
    forall c: nat | Streams(f, c, o + Left(st)) ensures Streams(f, c, Repeat([k], MANY) + (Once(cur.rest) + Left(st))) {
      ConstantSame(f, c, o + Left(st), Repeat([k], MANY) + Left(st), k);
    }
  }

  lemma ConstantSame(f: Format, c: nat, s: seq<nat>, s': seq<nat>, k: nat)
    requires WellFormed(f) && f != Nil && Streams(f, c, s) && Constant(s, k) && Constant(s', k)
    requires Constant(Once(Revert(f, f)), k)
    ensures Streams(f, c, s')
  {
    var t := Once(Revert(f, f));
    forall q: nat ensures StreamAt(s, t, q) == StreamAt(s', t, q) {
      ConstantStream(s, t, k, q);
      ConstantStream(s', t, k, q);
    }
    StreamSame(f, c, s, s');
  }

  lemma {:induction false} LastFrame(st: Stack)
    ensures Suffix(st) == [] <==> st == Bottom
  {
  }
}
