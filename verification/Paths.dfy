/** Slash-separated names: strings.Split and strings.Join, path.Join and path.Clean. */
module Paths {

  predicate NoSlash(s: string) {
    '/' !in s
  }

  /** strings.Split(s, "/"): at least one part, possibly empty ones. */
  function Split(s: string): (parts: seq<string>)
    ensures parts != [] && forall i | 0 <= i < |parts| :: NoSlash(parts[i])
  {
    if s == "" then [""]
    else if s[0] == '/' then [""] + Split(s[1..])
    else
      var rest := Split(s[1..]);
      [[s[0]] + rest[0]] + rest[1..]
  }

  /** strings.Join(parts, "/"). */
  function JoinParts(parts: seq<string>): string {
    if parts == [] then "" else if |parts| == 1 then parts[0] else parts[0] + "/" + JoinParts(parts[1..])
  }

  lemma {:induction false} SplitPart(a: string, rest: string)
    requires NoSlash(a)
    ensures Split(a + "/" + rest) == [a] + Split(rest)
    decreases |a|
  {
    if a == "" {
      assert a + "/" + rest == "/" + rest;
      assert ("/" + rest)[1..] == rest;
    } else {
      assert a[0] in a && [a[0]] + a[1..] == a;
      SplitPart(a[1..], rest);
      assert (a + "/" + rest)[1..] == a[1..] + "/" + rest;
    }
  }

  lemma {:induction false} SplitOne(a: string)
    requires NoSlash(a)
    ensures Split(a) == [a]
    decreases |a|
  {
    if a != "" {
      assert a[0] in a && [a[0]] + a[1..] == a;
      SplitOne(a[1..]);
    }
  }

  lemma {:induction false} SplitJoin(parts: seq<string>)
    requires parts != [] && forall i | 0 <= i < |parts| :: NoSlash(parts[i])
    ensures Split(JoinParts(parts)) == parts
    decreases |parts|
  {
    if |parts| == 1 {
      SplitOne(parts[0]);
    } else {
      SplitJoin(parts[1..]);
      SplitPart(parts[0], JoinParts(parts[1..]));
    }
  }

  lemma {:induction false} JoinSplit(s: string)
    ensures JoinParts(Split(s)) == s
    decreases |s|
  {
    if s != "" {
      JoinSplit(s[1..]);
      var rest := Split(s[1..]);
      if s[0] == '/' {
        assert Split(s)[1..] == rest;
      } else {
        assert Split(s)[1..] == rest[1..];
        assert JoinParts(Split(s)) == [s[0]] + JoinParts(rest);
      }
    }
  }

  lemma Slashes(a: string, b: string, c: string)
    ensures a + "/" + (b + "/" + c) == a + "/" + b + "/" + c
  {
  }

  lemma JoinCons(a: string, rest: seq<string>)
    requires rest != []
    ensures JoinParts([a] + rest) == a + "/" + JoinParts(rest)
  {
    assert ([a] + rest)[1..] == rest;
  }

  lemma JoinTwo(a: string, b: string)
    ensures JoinParts([a, b]) == a + "/" + b
  {
    JoinCons(a, [b]);
    assert [a] + [b] == [a, b];
  }

  lemma JoinThree(a: string, b: string, c: string)
    ensures JoinParts([a, b, c]) == a + "/" + b + "/" + c
  {
    JoinTwo(b, c);
    JoinCons(a, [b, c]);
    assert [a] + [b, c] == [a, b, c];
    Slashes(a, b, c);
  }

  lemma JoinFour(a: string, b: string, c: string, d: string)
    ensures JoinParts([a, b, c, d]) == a + "/" + b + "/" + c + "/" + d
  {
    JoinTwo(c, d);
    JoinThree(a, b, c + "/" + d);
    JoinConcat([a, b], [c, d]);
    assert [a, b] + [c, d] == [a, b, c, d];
    JoinTwo(a, b);
    Slashes(a + "/" + b, c, d);
  }

  /** Joining lists of parts is joining their joins. */
  lemma {:induction false} JoinConcat(a: seq<string>, b: seq<string>)
    requires a != [] && b != []
    ensures JoinParts(a + b) == JoinParts(a) + "/" + JoinParts(b)
    decreases |a|
  {
    if |a| == 1 {
      assert (a + b)[1..] == b;
    } else {
      JoinConcat(a[1..], b);
      assert (a + b)[1..] == a[1..] + b;
    }
  }

  lemma {:induction false} SplitConcat(a: string, b: string)
    ensures Split(a + "/" + b) == Split(a) + Split(b)
  {
    JoinSplit(a);
    JoinSplit(b);
    JoinConcat(Split(a), Split(b));
    SplitJoin(Split(a) + Split(b));
  }

  // ---------------------------------------------------------------------------------------------
  // path.Clean and path.Join of relative paths

  /** One step of Clean: `stack` is what is kept so far. */
  function Push(stack: seq<string>, part: string): seq<string> {
    if part == "" || part == "." then stack
    else if part != ".." then stack + [part]
    else if stack == [] || stack[|stack| - 1] == ".." then stack + [part]
    else stack[..|stack| - 1]
  }

  function CleanFrom(stack: seq<string>, parts: seq<string>): seq<string>
    decreases |parts|
  {
    if parts == [] then stack else CleanFrom(Push(stack, parts[0]), parts[1..])
  }

  /** path.Clean of a relative path. */
  function Clean(s: string): string {
    var kept := CleanFrom([], Split(s));
    if kept == [] then "." else JoinParts(kept)
  }

  function NonEmpty(elems: seq<string>): seq<string> {
    if elems == [] then [] else (if elems[0] == "" then [] else [elems[0]]) + NonEmpty(elems[1..])
  }

  lemma {:induction false} NoneEmpty(elems: seq<string>)
    requires forall i | 0 <= i < |elems| :: elems[i] != ""
    ensures NonEmpty(elems) == elems
    decreases |elems|
  {
    if elems != [] {
      NoneEmpty(elems[1..]);
    }
  }

  /** path.Join: empty elements are ignored, the result is cleaned. */
  function Join(elems: seq<string>): string {
    var some := NonEmpty(elems);
    if some == [] then "" else Clean(JoinParts(some))
  }

  /** Parts that Clean leaves alone. */
  predicate Plain(part: string) {
    part != "" && part != "." && part != ".." && NoSlash(part)
  }

  predicate AllPlain(parts: seq<string>) {
    forall i | 0 <= i < |parts| :: Plain(parts[i])
  }

  lemma {:induction false} CleanKeepsPlain(stack: seq<string>, parts: seq<string>)
    requires AllPlain(parts)
    ensures CleanFrom(stack, parts) == stack + parts
    decreases |parts|
  {
    if parts != [] {
      CleanKeepsPlain(stack + [parts[0]], parts[1..]);
      assert stack + [parts[0]] + parts[1..] == stack + parts;
    }
  }

  lemma {:induction false} CleanFromConcat(stack: seq<string>, a: seq<string>, b: seq<string>)
    ensures CleanFrom(stack, a + b) == CleanFrom(CleanFrom(stack, a), b)
    decreases |a|
  {
    if a == [] {
      assert a + b == b;
    } else {
      assert (a + b)[1..] == a[1..] + b;
      CleanFromConcat(Push(stack, a[0]), a[1..], b);
    }
  }

  /** With more plain parts below than parts to come, cleaning leaves only plain parts. */
  lemma {:induction false} CleanStaysPlain(stack: seq<string>, parts: seq<string>)
    requires AllPlain(stack) && |parts| < |stack| && forall i | 0 <= i < |parts| :: NoSlash(parts[i])
    ensures AllPlain(CleanFrom(stack, parts)) && |CleanFrom(stack, parts)| >= |stack| - |parts|
    decreases |parts|
  {
    if parts != [] {
      CleanStaysPlain(Push(stack, parts[0]), parts[1..]);
    }
  }
}
