/** The string predicates of .NET that the source relies on. */
module Text {
  import opened Wrappers

  /** `char.IsWhiteSpace`: the Unicode space separators, line and paragraph separators and the
      control characters U+0009 to U+000D and U+0085. */
  predicate IsWhiteSpace(c: char) {
    c == ' ' || ('\t' <= c <= '\r') || c == '\U{0085}' || c == '\U{00A0}' || c == '\U{1680}'
    || ('\U{2000}' <= c <= '\U{200A}') || c == '\U{2028}' || c == '\U{2029}' || c == '\U{202F}'
    || c == '\U{205F}' || c == '\U{3000}'
  }

  /** Empty or only white space. */
  predicate IsBlank(s: string) {
    forall i :: 0 <= i < |s| ==> IsWhiteSpace(s[i])
  }

  /** `string.IsNullOrWhiteSpace`. */
  predicate IsNullOrWhiteSpace(s: Option<string>) {
    s.None? || IsBlank(s.value)
  }

  /** `string.IsNullOrEmpty`. */
  predicate IsNullOrEmpty(s: Option<string>) {
    s.None? || s.value == ""
  }

  /** `s ?? ""`, and also what string concatenation and `string.Format` make of a null. */
  function OrEmpty(s: Option<string>): string {
    if s.Some? then s.value else ""
  }

  /** `string.Join(separator, parts)`. */
  function Join(separator: string, parts: seq<string>): string
    decreases |parts|
  {
    if parts == [] then ""
    else if |parts| == 1 then parts[0]
    else Join(separator, parts[..|parts| - 1]) + separator + parts[|parts| - 1]
  }

  /** `s.Split(separator)`: the pieces between separators, empty pieces included. */
  function Split(s: string, separator: char): (r: seq<string>)
    ensures |r| > 0
    decreases |s|
  {
    if s == [] then [""]
    else
      var rest := Split(s[1..], separator);
      if s[0] == separator then [""] + rest else [[s[0]] + rest[0]] + rest[1..]
  }

  /** A string without the separator is one piece. */
  lemma {:induction false} SplitWithout(s: string, separator: char)
    requires separator !in s
    ensures Split(s, separator) == [s]
    decreases |s|
  {
    if s != [] {
      SplitWithout(s[1..], separator);
      assert [s[0]] + s[1..] == s;
    }
  }

  /** How `Split` treats a first character. */
  lemma SplitCons(c: char, rest: string, separator: char)
    ensures c == separator ==> Split([c] + rest, separator) == [""] + Split(rest, separator)
    ensures c != separator ==>
      Split([c] + rest, separator) == [[c] + Split(rest, separator)[0]] + Split(rest, separator)[1..]
  {
    assert ([c] + rest)[1..] == rest;
  }

  /** Pieces that start with `c`: the sequence algebra behind `SplitAroundStep`. */
  lemma PiecesAfter(c: char, separator: char, head: seq<string>, tail: seq<string>, whole: seq<string>, left: seq<string>)
    requires |head| > 0
    requires c == separator ==> whole == [""] + (head + tail) && left == [""] + head
    requires c != separator ==>
      whole == [[c] + (head + tail)[0]] + (head + tail)[1..] && left == [[c] + head[0]] + head[1..]
    ensures whole == left + tail
  {
    if c != separator {
      assert (head + tail)[0] == head[0];
      assert (head + tail)[1..] == head[1..] + tail;
    }
  }

  /** One step of `SplitAround`: a first character of `a` that is not the separator joins the first piece. */
  lemma SplitAroundStep(c: char, a: string, separator: char, b: string)
    requires Split(a + [separator] + b, separator) == Split(a, separator) + Split(b, separator)
    ensures Split([c] + (a + [separator] + b), separator) == Split([c] + a, separator) + Split(b, separator)
  {
    SplitCons(c, a + [separator] + b, separator);
    SplitCons(c, a, separator);
    PiecesAfter(c, separator, Split(a, separator), Split(b, separator),
                Split([c] + (a + [separator] + b), separator), Split([c] + a, separator));
  }

  /** A separator between two strings splits them apart. */
  lemma {:induction false} SplitAround(a: string, separator: char, b: string)
    ensures Split(a + [separator] + b, separator) == Split(a, separator) + Split(b, separator)
    decreases |a|
  {
    if a == [] {
      assert a + [separator] + b == [separator] + b;
      SplitCons(separator, b, separator);
    } else {
      SplitAround(a[1..], separator, b);
      SplitAroundStep(a[0], a[1..], separator, b);
      assert [a[0]] + a[1..] == a;
      assert [a[0]] + (a[1..] + [separator] + b) == a + [separator] + b;
    }
  }

  /** Splitting a joined list at a separator that none of its parts contains gives the parts back. */
  lemma {:induction false} SplitJoin(parts: seq<string>, separator: char)
    requires |parts| > 0
    requires forall i :: 0 <= i < |parts| ==> separator !in parts[i]
    ensures Split(Join([separator], parts), separator) == parts
    decreases |parts|
  {
    if |parts| == 1 {
      SplitWithout(parts[0], separator);
    } else {
      var init := parts[..|parts| - 1];
      SplitJoin(init, separator);
      SplitAround(Join([separator], init), separator, parts[|parts| - 1]);
      SplitWithout(parts[|parts| - 1], separator);
      assert init + [parts[|parts| - 1]] == parts;
    }
  }
}
