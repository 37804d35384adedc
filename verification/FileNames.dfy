/**
 Lists of file names (bosopen.c): names separated by commas; an extension of two bounds, each a
 letter and two digits, stands for all extensions between them.
 */
module FileNames {
  predicate IsAlpha(c: char) {
    'a' <= c <= 'z' || 'A' <= c <= 'Z'
  }

  predicate IsDigit(c: char) {
    '0' <= c <= '9'
  }

  /** A character, and two digits. */
  predicate IsExtension(e: string) {
    |e| == 3 && IsDigit(e[1]) && IsDigit(e[2])
  }

  /** The number that an extension stands for: a hundred for every letter. */
  function Value(e: string): (v: nat)
    requires IsExtension(e)
  {
    e[0] as int * 100 + (e[1] as int - '0' as int) * 10 + (e[2] as int - '0' as int)
  }

  /** One string is not behind another of the same length, in the order of characters. */
  predicate AtMost(e: string, f: string) {
    e == [] || f == [] || e[0] < f[0] || (e[0] == f[0] && AtMost(e[1..], f[1..]))
  }

  /** The order of strings is that of the numbers. */
  lemma OrderOfValues(e: string, f: string)
    requires IsExtension(e) && IsExtension(f)
    ensures AtMost(e, f) <==> Value(e) <= Value(f)
  {
    assert AtMost(e, f) <==> e[0] < f[0] || (e[0] == f[0] && AtMost(e[1..], f[1..]));
    assert AtMost(e[1..], f[1..]) <==> e[1] < f[1] || (e[1] == f[1] && AtMost(e[2..], f[2..])) by {
      assert e[1..][1..] == e[2..] && f[1..][1..] == f[2..];
    }
    assert AtMost(e[2..], f[2..]) <==> e[2] <= f[2] by {
      assert e[2..][1..] == [] && f[2..][1..] == [];
    }
  }

  /** Different extensions have different numbers. */
  lemma ValueOnce(e: string, f: string)
    requires IsExtension(e) && IsExtension(f) && Value(e) == Value(f)
    ensures e == f
  {
    Digits(e[0] as int, e[1] as int - '0' as int, e[2] as int - '0' as int, Value(e));
    Digits(f[0] as int, f[1] as int - '0' as int, f[2] as int - '0' as int, Value(f));
    assert e[0] == f[0] && e[1] == f[1] && e[2] == f[2];
  }

  lemma Digits(a: int, b: int, c: int, v: int)
    requires 0 <= b < 10 && 0 <= c < 10 && v == a * 100 + b * 10 + c
    ensures a == v / 100 && b == v / 10 - 10 * (v / 100) && c == v - 10 * (v / 10)
  {
  }

  /** The next extension: the last digits go up, after 99 the letter does. */
  function Next(e: string): (r: string)
    requires IsExtension(e) && e[0] as int < 255
    ensures IsExtension(r) && Value(r) == Value(e) + 1
  {
    var n := (e[2] as int - '0' as int) + (e[1] as int - '0' as int) * 10;
    if n == 99 then [(e[0] as int + 1) as char, '0', '0']
    else [e[0], ((n + 1) / 10 + '0' as int) as char, ((n + 1) % 10 + '0' as int) as char]
  }

  /** The extension with this number. */
  ghost predicate IsNumbered(e: string, v: int) {
    IsExtension(e) && Value(e) == v
  }

  /** `files` are the names for the extensions from `a` to `b`, in this order. */
  ghost predicate IsRange(files: seq<string>, name: string, a: int, b: int) {
    && |files| == (if a <= b then b - a + 1 else 0)
    && forall i :: 0 <= i < |files| ==> HasNumber(files[i], name, a + i)
  }

  ghost predicate HasNumber(file: string, name: string, v: int) {
    |file| >= 3 && IsNumbered(file[|file| - 3..], v) && file == name + "." + file[|file| - 3..]
  }

  /** Names of a range are different, and all extensions between the bounds are there. */
  lemma RangeExact(files: seq<string>, name: string, a: int, b: int, e: string)
    requires IsRange(files, name, a, b) && IsExtension(e)
    ensures (name + "." + e in files) <==> a <= Value(e) <= b
    ensures forall i, j :: 0 <= i < j < |files| ==> files[i] != files[j]
  {
    if a <= Value(e) <= b {
      var f := files[Value(e) - a];
      assert HasNumber(f, name, a + (Value(e) - a));
      ValueOnce(e, f[|f| - 3..]);
    }
    if name + "." + e in files {
      var i :| 0 <= i < |files| && files[i] == name + "." + e;
      assert HasNumber(files[i], name, a + i);
      assert files[i][|files[i]| - 3..] == e;
    }
    forall i, j | 0 <= i < j < |files| ensures files[i] != files[j] {
      assert HasNumber(files[i], name, a + i) && HasNumber(files[j], name, a + j);
    }
  }

  const MAXFNLIST := 2600

  /** The names of a range are added to the list, as long as there is room. */
  method AddRange(fn: seq<string>, name: string, from: string, to: string)
    returns (ok: bool, fn': seq<string>, ghost more: seq<string>)
    requires IsExtension(from) && IsExtension(to) && to[0] <= 'z' && |fn| <= MAXFNLIST
    ensures IsRange(more, name, Value(from), Value(to))
    ensures if ok then fn' == fn + more && |fn'| <= MAXFNLIST
            else |fn + more| > MAXFNLIST && fn' == (fn + more)[..MAXFNLIST]
  {
    var e1 := from;
    fn' := fn;
    more := [];
    OrderOfValues(e1, to);
    while AtMost(e1, to)
      invariant IsExtension(e1) && Value(e1) == Value(from) + |more| && (|more| > 0 ==> Value(e1) <= Value(to) + 1)
      invariant (AtMost(e1, to) <==> Value(e1) <= Value(to))
      invariant forall i :: 0 <= i < |more| ==> HasNumber(more[i], name, Value(from) + i)
      invariant fn' == fn + more && |fn'| <= MAXFNLIST
      decreases Value(to) + 1 - Value(e1)
    {
      assert e1[0] <= to[0];
      if |fn'| == MAXFNLIST {
        more := RestOf(more, name, e1, Value(from), to);
        return false, fn', more;
      }
      var f := name + "." + e1;
      assert f[|f| - 3..] == e1;
      fn' := fn' + [f];
      more := more + [f];
      e1 := Next(e1);
      OrderOfValues(e1, to);
    }
    ok := true;
  }

  /** The names that are still to come. */
  lemma RestOf(more: seq<string>, name: string, e: string, a: int, to: string) returns (all: seq<string>)
    requires IsExtension(e) && IsExtension(to) && to[0] <= 'z' && Value(e) == a + |more| && Value(e) <= Value(to) + 1
    requires e[0] as int < 255
    requires forall i :: 0 <= i < |more| ==> HasNumber(more[i], name, a + i)
    ensures IsRange(all, name, a, Value(to)) && more <= all
    decreases Value(to) + 1 - Value(e)
  {
    if Value(e) == Value(to) + 1 {
      all := more;
    } else {
      var f := name + "." + e;
      assert f[|f| - 3..] == e;
      all := RestOf(more + [f], name, Next(e), a, to);
    }
  }

  // ---- List elements -----------------------------------------------------------------------------------------

  /** First comma at or behind `i`, or the end. */
  function Comma(s: string, i: nat): (k: nat)
    requires i <= |s|
    ensures i <= k <= |s| && (k < |s| ==> s[k] == ',') && forall j :: i <= j < k ==> s[j] != ','
    decreases |s| - i
  {
    if i == |s| || s[i] == ',' then i else Comma(s, i + 1)
  }

  /** Behind the last dot, or zero. */
  function BehindDot(el: string): (k: nat)
    ensures k <= |el| && (k > 0 ==> el[k - 1] == '.') && forall j :: k <= j < |el| ==> el[j] != '.'
  {
    if el == [] then 0 else if el[|el| - 1] == '.' then |el| else BehindDot(el[..|el| - 1])
  }

  /** Whether the extension of a name is a range of extensions. */
  predicate HasRange(el: string) {
    var x := BehindDot(el);
    && x > 0 && |el| - x == 7
    && IsAlpha(el[x]) && IsDigit(el[x + 1]) && IsDigit(el[x + 2]) && el[x + 3] == '-'
    && IsAlpha(el[x + 4]) && IsDigit(el[x + 5]) && IsDigit(el[x + 6])
  }

  /** What an element of the list stands for. */
  ghost predicate Meant(el: string, files: seq<string>) {
    if HasRange(el) then
      var x := BehindDot(el);
      IsRange(files, el[..x - 1], Value(el[x..x + 3]), Value(el[x + 4..]))
    else files == [el]
  }

  /** The elements from position `i` on: the part up to the next comma, and the rest unless it is empty. */
  ghost function Elements(s: string, i: nat): seq<string>
    requires i <= |s|
    decreases |s| - i
  {
    var k := Comma(s, i);
    [s[i..k]] + if k + 1 < |s| then Elements(s, k + 1) else []
  }

  /** `files` are the names of all elements in order. */
  ghost predicate AllMeant(els: seq<string>, files: seq<string>)
    decreases |els|
  {
    if els == [] then files == []
    else exists k :: 0 <= k <= |files| && Meant(els[0], files[..k]) && AllMeant(els[1..], files[k..])
  }

  lemma MeantFirst(els: seq<string>, a: seq<string>, b: seq<string>)
    requires els != [] && Meant(els[0], a) && AllMeant(els[1..], b)
    ensures AllMeant(els, a + b)
  {
    assert (a + b)[..|a|] == a && (a + b)[|a|..] == b;
  }

  /** Every element can be expanded. */
  lemma {:induction false} SomeMeant(els: seq<string>) returns (files: seq<string>)
    ensures AllMeant(els, files)
    decreases |els|
  {
    if els == [] {
      files := [];
    } else {
      var rest := SomeMeant(els[1..]);
      var first := OneMeant(els[0]);
      MeantFirst(els, first, rest);
      files := first + rest;
    }
  }

  lemma OneMeant(el: string) returns (files: seq<string>)
    ensures Meant(el, files)
  {
    if HasRange(el) {
      var x := BehindDot(el);
      var e1, e2 := el[x..x + 3], el[x + 4..];
      assert e1[0] == el[x] && e2[0] == el[x + 4] && e2[1] == el[x + 5] && e2[2] == el[x + 6];
      if Value(e1) <= Value(e2) {
        files := RestOf([], el[..x - 1], e1, Value(e1), e2);
      } else {
        files := [];
      }
    } else {
      files := [el];
    }
  }

  // ---- What elements stand for -------------------------------------------------------------------------------

  /** A letter and two digits. */
  predicate Lettered(e: string) {
    |e| == 3 && ('a' <= e[0] <= 'z' || 'A' <= e[0] <= 'Z') && '0' <= e[1] <= '9' && '0' <= e[2] <= '9'
  }

  /** The element is a name, a dot, and two bounds with a hyphen between them. */
  ghost predicate Bounded(el: string, p: string, e: string, f: string) {
    Lettered(e) && Lettered(f) && el == p + "." + e + "-" + f
  }

  /** Such an element is taken apart where it has been put together. */
  lemma BoundedParts(el: string, p: string, e: string, f: string)
    requires Bounded(el, p, e, f)
    ensures HasRange(el) && BehindDot(el) == |p| + 1 && el[..|p|] == p && el[|p| + 1..|p| + 4] == e
    ensures el[|p| + 5..] == f
  {
    var x := |p| + 1;
    assert el[x - 1] == '.' && el[x] == e[0] && el[x + 1] == e[1] && el[x + 2] == e[2] && el[x + 3] == '-';
    assert el[x + 4] == f[0] && el[x + 5] == f[1] && el[x + 6] == f[2];
    DotAt(el, x);
  }

  lemma DotAt(el: string, x: nat)
    requires 0 < x <= |el| && el[x - 1] == '.' && forall j :: x <= j < |el| ==> el[j] != '.'
    ensures BehindDot(el) == x
  {
  }

  lemma RangeParts(el: string) returns (p: string, e: string, f: string)
    requires HasRange(el)
    ensures Bounded(el, p, e, f)
  {
    var x := BehindDot(el);
    p, e, f := el[..x - 1], el[x..x + 3], el[x + 4..];
    assert el == el[..x - 1] + [el[x - 1]] + el[x..x + 3] + [el[x + 3]] + el[x + 4..];
  }

  /** A name with two bounds stands for the names with all extensions between them, in order, each once. */
  lemma ForRange(p: string, e: string, f: string, files: seq<string>)
    requires Lettered(e) && Lettered(f) && Meant(p + "." + e + "-" + f, files)
    ensures forall g: string :: |g| == 3 && '0' <= g[1] <= '9' && '0' <= g[2] <= '9' ==>
              (p + "." + g in files <==> AtMost(e, g) && AtMost(g, f))
    ensures forall i :: 0 <= i < |files| ==> |files[i]| == |p| + 4 && files[i][..|p| + 1] == p + "."
    ensures forall i, j :: 0 <= i < j < |files| ==> files[i] != files[j] && AtMost(files[i], files[j])
  {
    var el, a, b := p + "." + e + "-" + f, Value(e), Value(f);
    BoundedParts(el, p, e, f);
    forall g: string | |g| == 3 && '0' <= g[1] <= '9' && '0' <= g[2] <= '9'
      ensures p + "." + g in files <==> AtMost(e, g) && AtMost(g, f)
    {
      RangeExact(files, p, a, b, g);
      OrderOfValues(e, g);
      OrderOfValues(g, f);
    }
    forall i | 0 <= i < |files| ensures |files[i]| == |p| + 4 && files[i][..|p| + 1] == p + "." {
      assert HasNumber(files[i], p, a + i);
    }
    RangeExact(files, p, a, b, e);
    forall i, j | 0 <= i < j < |files| ensures AtMost(files[i], files[j]) {
      assert HasNumber(files[i], p, a + i) && HasNumber(files[j], p, a + j);
      OrderOfValues(files[i][|files[i]| - 3..], files[j][|files[j]| - 3..]);
      SamePrefix(p + ".", files[i][|files[i]| - 3..], files[j][|files[j]| - 3..]);
    }
  }

  lemma {:induction false} SamePrefix(p: string, e: string, f: string)
    ensures AtMost(p + e, p + f) <==> AtMost(e, f)
  {
    if p == [] {
      assert p + e == e && p + f == f;
    } else {
      assert (p + e)[1..] == p[1..] + e && (p + f)[1..] == p[1..] + f;
      SamePrefix(p[1..], e, f);
    }
  }

  /** Every other element stands for itself. */
  lemma ForItself(el: string, files: seq<string>)
    requires forall p, e, f :: !Bounded(el, p, e, f)
    ensures Meant(el, files) <==> files == [el]
  {
    if HasRange(el) {
      var p, e, f := RangeParts(el);
    }
  }

  /** A range over a change of letter. */
  lemma TwentyThree(files: seq<string>)
    requires Meant("X.A90-B12", files)
    ensures |files| == 23 && files[0] == "X.A90" && files[9] == "X.A99" && files[10] == "X.B00" && files[22] == "X.B12"
  {
    hide HasNumber;
    BoundedParts("X.A90-B12", "X", "A90", "B12");
    assert "X" + "." + "A90" + "-" + "B12" == "X.A90-B12";
    NumberIs(files[0], "X", "A90");
    NumberIs(files[9], "X", "A99");
    NumberIs(files[10], "X", "B00");
    NumberIs(files[22], "X", "B12");
  }

  lemma NumberIs(file: string, name: string, e: string)
    requires IsExtension(e) && HasNumber(file, name, Value(e))
    ensures file == name + "." + e
  {
    ValueOnce(file[|file| - 3..], e);
  }

  lemma {:induction false} CommaBehind(a: string, s: string, i: nat)
    requires i <= |s|
    ensures Comma(a + s, |a| + i) == |a| + Comma(s, i)
    decreases |s| - i
  {
    if i < |s| && s[i] != ',' { CommaBehind(a, s, i + 1); }
  }

  lemma {:induction false} ElementsBehind(a: string, s: string, i: nat)
    requires i <= |s|
    ensures Elements(a + s, |a| + i) == Elements(s, i)
    decreases |s| - i
  {
    hide Elements;
    CommaBehind(a, s, i);
    var k := Comma(s, i);
    SliceBehind(a, s, i, k);
    if k + 1 < |s| { ElementsBehind(a, s, k + 1); }
    ElementsAt(s, i);
    ElementsAt(a + s, |a| + i);
    var x, y := Elements(a + s, |a| + i), Elements(s, i);
    assert x == [x[0]] + x[1..] && y == [y[0]] + y[1..];
  }

  lemma SliceBehind(a: string, s: string, i: nat, k: nat)
    requires i <= k <= |s|
    ensures (a + s)[|a| + i..|a| + k] == s[i..k]
  {
  }

  lemma CommaIs(s: string, i: nat, k: nat)
    requires i <= k <= |s| && (k < |s| ==> s[k] == ',') && forall j :: i <= j < k ==> s[j] != ','
    ensures Comma(s, i) == k
  {
  }

  /** The elements of a list: names with a comma between them, and perhaps one at the end. */
  lemma ElementsOf(x: string, rest: string)
    requires ',' !in x
    ensures Elements(x, 0) == [x] && Elements(x + ",", 0) == [x]
    ensures rest != "" ==> Elements(x + "," + rest, 0) == [x] + Elements(rest, 0)
  {
    OneElement(x);
    if rest != "" { FirstElement(x, rest); }
  }

  lemma OneElement(x: string)
    requires ',' !in x
    ensures Elements(x, 0) == [x] && Elements(x + ",", 0) == [x]
  {
    CommaIs(x, 0, |x|);
    CommaIs(x + ",", 0, |x|);
    assert x[0..|x|] == x && (x + ",")[0..|x|] == x;
  }

  lemma FirstElement(x: string, rest: string)
    requires ',' !in x && rest != ""
    ensures Elements(x + "," + rest, 0) == [x] + Elements(rest, 0)
  {
    var s := x + "," + rest;
    CommaIs(s, 0, |x|);
    assert s[0..|x|] == x;
    ElementsBehind(x + ",", rest, 0);
  }

  /** One element of the list is expanded. */
  method AddElement(fn: seq<string>, el: string) returns (ok: bool, fn': seq<string>, ghost more: seq<string>)
    requires |fn| < MAXFNLIST
    ensures Meant(el, more)
    ensures if ok then fn' == fn + more && |fn'| <= MAXFNLIST
            else |fn + more| > MAXFNLIST && fn' == (fn + more)[..MAXFNLIST]
  {
    var ext := BehindDot(el);
    if HasRange(el) {
      assert el[ext + 4..][0] == el[ext + 4] && el[ext + 4..][1] == el[ext + 5] && el[ext + 4..][2] == el[ext + 6];
      ok, fn', more := AddRange(fn, el[..ext - 1], el[ext..ext + 3], el[ext + 4..]);
    } else {
      ok, fn', more := true, fn + [el], [el];
    }
  }

  /** With the names of the elements `left` behind `fn` all elements are expanded. */
  ghost predicate Continues(els: seq<string>, left: seq<string>, fn: seq<string>) {
    forall rest: seq<string> :: AllMeant(left, rest) ==> AllMeant(els, fn + rest)
  }

  lemma ContinuesStart(els: seq<string>)
    ensures Continues(els, els, [])
  {
    forall rest: seq<string> | AllMeant(els, rest) ensures AllMeant(els, [] + rest) {
      assert [] + rest == rest;
    }
  }

  lemma ContinuesMore(els: seq<string>, left: seq<string>, fn: seq<string>, more: seq<string>)
    requires Continues(els, left, fn) && left != [] && Meant(left[0], more)
    ensures Continues(els, left[1..], fn + more)
  {
    forall rest: seq<string> | AllMeant(left[1..], rest) ensures AllMeant(els, fn + more + rest) {
      MeantFirst(left, more, rest);
      assert fn + more + rest == fn + (more + rest);
    }
  }

  lemma ContinuesTo(els: seq<string>, left: seq<string>, fn: seq<string>) returns (all: seq<string>)
    requires Continues(els, left, fn)
    ensures AllMeant(els, all) && fn <= all && (left == [] ==> all == fn)
  {
    var rest := SomeMeant(left);
    all := fn + rest;
  }

  lemma ElementsAt(s: string, i: nat)
    requires i <= |s|
    ensures var k, els := Comma(s, i), Elements(s, i);
            els != [] && els[0] == s[i..k] && els[1..] == if k + 1 < |s| then Elements(s, k + 1) else []
  {
  }

  /**
   A list of file names is expanded (parseListFN), leading blanks aside.  The result is their
   number, and all of them are there in order; or the list is full.
   */
  method ParseListFN(s: string) returns (status: int, fn: seq<string>, ghost all: seq<string>)
    ensures AllMeant(Elements(s, 0), all)
    ensures if status == -1 then |fn| == MAXFNLIST && fn <= all
            else status == |fn| <= MAXFNLIST && fn == all
  {
    hide AllMeant, Continues, Meant, Elements;
    var beg := 0;
    fn := [];
    ghost var els, left := Elements(s, 0), Elements(s, 0);
    ContinuesStart(els);
    while true
      invariant 0 <= beg <= |s| && left == Elements(s, beg) && |fn| <= MAXFNLIST && Continues(els, left, fn)
      decreases |s| - beg
    {
      if |fn| == MAXFNLIST {
        all := ContinuesTo(els, left, fn);
        return -1, fn, all;
      }
      ElementsAt(s, beg);
      var end := Comma(s, beg);
      var ok;
      ghost var more, was := [], fn;
      ok, fn, more := AddElement(fn, s[beg..end]);
      ContinuesMore(els, left, was, more);
      left := left[1..];
      if !ok {
        all := ContinuesTo(els, left, was + more);
        return -1, fn, all;
      }
      beg := end + 1;
      if beg >= |s| {
        break;
      }
    }
    all := ContinuesTo(els, left, fn);
    status := |fn|;
  }
}
