/** Cutting sequences at one element: C strings at their NUL, Dart strings at a
    separator. */
module Splitting {

  // What comes before the first sep: everything, if there is none.
  function Before<T(==)>(s: seq<T>, sep: T): (h: seq<T>)
    ensures h <= s && sep !in h && (|h| < |s| ==> s[|h|] == sep)
  {
    if s == [] || s[0] == sep then [] else [s[0]] + Before(s[1..], sep)
  }

  // Dart's String.split on one character.
  function Split(s: string, sep: char): (parts: seq<string>)
    ensures |parts| > 0
    decreases |s|
  {
    var h := Before(s, sep);
    if |h| == |s| then [s] else [h] + Split(s[|h| + 1..], sep)
  }

  function Join(parts: seq<string>, sep: char): string
    requires |parts| > 0
  {
    if |parts| == 1 then parts[0] else parts[0] + [sep] + Join(parts[1..], sep)
  }

  lemma {:induction false} BeforeSep<T>(a: seq<T>, rest: seq<T>, sep: T)
    requires sep !in a && (rest == [] || rest[0] == sep)
    ensures Before(a + rest, sep) == a
  {
    if a == [] {
      assert a + rest == rest;
    } else {
      assert (a + rest)[1..] == a[1..] + rest;
      BeforeSep(a[1..], rest, sep);
    }
  }

  lemma {:induction false} SplitJoin(parts: seq<string>, sep: char)
    requires |parts| > 0 && forall i :: 0 <= i < |parts| ==> sep !in parts[i]
    ensures Split(Join(parts, sep), sep) == parts
  {
    var s := Join(parts, sep);
    if |parts| == 1 {
      assert s + "" == s;
      BeforeSep(s, "", sep);
    } else {
      var later := Join(parts[1..], sep);
      assert s == parts[0] + ([sep] + later);
      BeforeSep(parts[0], [sep] + later, sep);
      assert s[|parts[0]| + 1..] == later;
      SplitJoin(parts[1..], sep);
    }
  }
}
