/**
 * The string primitives the generator relies on: PHP's `strtolower`
 * (ASCII only), `str_replace(' ', '_', …)`, `implode`, the concatenation
 * of a list of fragments in order, and a line counter used to state
 * "one line per entry".
 */
module Text {

  /** An ASCII upper-case letter, the only characters `strtolower` changes here. */
  predicate IsUpper(c: char) {
    'A' <= c <= 'Z'
  }

  function LowerChar(c: char): (r: char)
    ensures IsUpper(c) ==> r as int == c as int + 32
    ensures IsUpper(c) ==> r != c && !IsUpper(r) && r != ' ' && r != '_'
    ensures !IsUpper(c) ==> r == c
  {
    if IsUpper(c) then (c as int + 32) as char else c
  }

  /** PHP `strtolower` restricted to ASCII. */
  function Lower(s: string): string {
    if s == [] then [] else [LowerChar(s[0])] + Lower(s[1..])
  }

  /** Every letter A-Z is lowered, nothing else moves. */
  lemma {:induction false} LowerAt(s: string)
    ensures |Lower(s)| == |s|
    ensures forall i :: 0 <= i < |s| ==> Lower(s)[i] == LowerChar(s[i])
  {
    if s != [] {
      LowerAt(s[1..]);
    }
  }

  function SpaceToUnderscore(c: char): char {
    if c == ' ' then '_' else c
  }

  /** PHP `str_replace(' ', '_', s)`. */
  function ReplaceSpaces(s: string): string {
    if s == [] then [] else [SpaceToUnderscore(s[0])] + ReplaceSpaces(s[1..])
  }

  /** Every space becomes an underscore, nothing else moves. */
  lemma {:induction false} ReplaceSpacesAt(s: string)
    ensures |ReplaceSpaces(s)| == |s|
    ensures forall i :: 0 <= i < |s| ==> ReplaceSpaces(s)[i] == SpaceToUnderscore(s[i])
  {
    if s != [] {
      ReplaceSpacesAt(s[1..]);
    }
  }

  /** PHP `implode(sep, parts)`: the parts in order with `sep` between neighbours. */
  function Join(sep: string, parts: seq<string>): (r: string)
    ensures parts == [] ==> r == ""
    ensures parts != [] ==> parts[0] <= r
    ensures |parts| > 1 ==> parts[0] + sep <= r
  {
    if |parts| == 0 then ""
    else if |parts| == 1 then parts[0]
    else parts[0] + sep + Join(sep, parts[1..])
  }

  /** `f` applied to every element of `xs`, in order. */
  function MapSeq<T>(f: T -> string, xs: seq<T>): seq<string> {
    seq(|xs|, i requires 0 <= i < |xs| => f(xs[i]))
  }

  /** Mapping one more element appends its image. */
  lemma MapSeqSnoc<T>(f: T -> string, xs: seq<T>, i: nat)
    requires i < |xs|
    ensures MapSeq(f, xs[..i + 1]) == MapSeq(f, xs[..i]) + [f(xs[i])]
  {
    var a, b := MapSeq(f, xs[..i + 1]), MapSeq(f, xs[..i]) + [f(xs[i])];
    forall j | 0 <= j < |a| ensures a[j] == b[j] {
      assert xs[..i + 1][j] == xs[j];
    }
  }

  /** Mapping a concatenation maps each part, keeping the order. */
  lemma MapSeqAppend<T>(f: T -> string, xs: seq<T>, ys: seq<T>)
    ensures MapSeq(f, xs + ys) == MapSeq(f, xs) + MapSeq(f, ys)
  {
    var a, b := MapSeq(f, xs + ys), MapSeq(f, xs) + MapSeq(f, ys);
    forall j | 0 <= j < |a| ensures a[j] == b[j] {
      if j < |xs| {
        assert (xs + ys)[j] == xs[j];
      } else {
        assert (xs + ys)[j] == ys[j - |xs|];
      }
    }
  }

  /** The first `i` images are the image of the first `i` elements. */
  lemma MapSeqPrefix<T>(f: T -> string, xs: seq<T>, i: nat)
    requires i <= |xs|
    ensures MapSeq(f, xs)[..i] == MapSeq(f, xs[..i])
  {
    var a, b := MapSeq(f, xs)[..i], MapSeq(f, xs[..i]);
    forall j | 0 <= j < i ensures a[j] == b[j] {
      assert xs[..i][j] == xs[j];
    }
  }

  /** The images after position `i` are the image of the elements after it. */
  lemma MapSeqSuffix<T>(f: T -> string, xs: seq<T>, i: nat)
    requires i <= |xs|
    ensures MapSeq(f, xs)[i..] == MapSeq(f, xs[i..])
  {
    var a, b := MapSeq(f, xs)[i..], MapSeq(f, xs[i..]);
    forall j | 0 <= j < |xs| - i ensures a[j] == b[j] {
      assert xs[i..][j] == xs[i + j];
    }
  }

  /** The fragments of `ss` appended one after another, first to last. */
  function Concat(ss: seq<string>): string {
    if ss == [] then "" else Concat(ss[..|ss| - 1]) + ss[|ss| - 1]
  }

  /** Number of line breaks in `s`. */
  function Newlines(s: string): nat {
    if s == [] then 0 else (if s[0] == '\n' then 1 else 0) + Newlines(s[1..])
  }

  /** `s` fits on one line: it holds no line break. */
  predicate OneLine(s: string) {
    '\n' !in s
  }

  lemma {:induction false} NewlinesAppend(a: string, b: string)
    ensures Newlines(a + b) == Newlines(a) + Newlines(b)
  {
    if a != [] {
      assert (a + b)[0] == a[0];
      assert (a + b)[1..] == a[1..] + b;
      NewlinesAppend(a[1..], b);
    } else {
      assert a + b == b;
    }
  }

  lemma {:induction false} NewlinesOneLine(s: string)
    ensures Newlines(s) == 0 <==> OneLine(s)
  {
    if s != [] {
      NewlinesOneLine(s[1..]);
      assert s == [s[0]] + s[1..];
    }
  }

  /** Joining two non-empty lists is joining each and putting one separator between them. */
  lemma {:induction false} JoinAppend(sep: string, a: seq<string>, b: seq<string>)
    requires a != [] && b != []
    ensures Join(sep, a + b) == Join(sep, a) + sep + Join(sep, b)
  {
    var ab := a + b;
    assert ab[0] == a[0];
    if |a| == 1 {
      assert ab[1..] == b;
      assert Join(sep, ab) == a[0] + sep + Join(sep, b);
    } else {
      assert ab[1..] == a[1..] + b;
      JoinAppend(sep, a[1..], b);
      assert Join(sep, ab) == a[0] + sep + (Join(sep, a[1..]) + sep + Join(sep, b));
    }
  }

  lemma {:induction false} JoinOneLine(sep: string, parts: seq<string>)
    requires OneLine(sep)
    requires forall i :: 0 <= i < |parts| ==> OneLine(parts[i])
    ensures OneLine(Join(sep, parts))
  {
    if |parts| > 1 {
      JoinOneLine(sep, parts[1..]);
    }
  }

  lemma ConcatSnoc(ss: seq<string>, s: string)
    ensures Concat(ss + [s]) == Concat(ss) + s
  {
    assert (ss + [s])[..|ss|] == ss;
  }

  /** Concatenating the fragments of two lists is concatenating the two results: no fragment moves. */
  lemma {:induction false} ConcatAppend(a: seq<string>, b: seq<string>)
    ensures Concat(a + b) == Concat(a) + Concat(b)
  {
    if b == [] {
      assert a + b == a;
    } else {
      var front := b[..|b| - 1];
      var last := b[|b| - 1];
      assert b == front + [last];
      assert a + b == (a + front) + [last];
      ConcatAppend(a, front);
      ConcatSnoc(a + front, last);
      ConcatSnoc(front, last);
    }
  }

  /** If every fragment is exactly one line, the concatenation has one line per fragment. */
  lemma {:induction false} ConcatLines(ss: seq<string>)
    requires forall i :: 0 <= i < |ss| ==> Newlines(ss[i]) == 1
    ensures Newlines(Concat(ss)) == |ss|
  {
    if ss != [] {
      ConcatLines(ss[..|ss| - 1]);
      NewlinesAppend(Concat(ss[..|ss| - 1]), ss[|ss| - 1]);
    }
  }

  /** Position `i` of the list sits between the fragments before it and those after it. */
  lemma ConcatAt(ss: seq<string>, i: nat)
    requires i < |ss|
    ensures Concat(ss) == Concat(ss[..i]) + ss[i] + Concat(ss[i + 1..])
  {
    var front, rest := ss[..i + 1], ss[i + 1..];
    assert ss == front + rest;
    ConcatAppend(front, rest);
    assert front[..i] == ss[..i];
    assert Concat(front) == Concat(ss[..i]) + ss[i];
  }
}
