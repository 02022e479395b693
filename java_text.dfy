/**
 * java.lang.String.split for a single-character separator that is not a regular-expression
 * metacharacter, as used on the comma-separated options of @TabComplete.
 */
module JavaText {

  /** Every field between separators, empty fields included: s with n separators has n + 1 fields. */
  function Fields(s: string, sep: char): (r: seq<string>)
    ensures |r| >= 1
    ensures forall i :: 0 <= i < |r| ==> sep !in r[i]
  {
    if s == [] then [[]]
    else
      var rest := Fields(s[1..], sep);
      if s[0] == sep then [[]] + rest
      else [[s[0]] + rest[0]] + rest[1..]
  }

  /** The fields written back with the separator between each neighbouring pair. */
  function Join(xs: seq<string>, sep: char): string
  {
    if xs == [] then []
    else if |xs| == 1 then xs[0]
    else xs[0] + [sep] + Join(xs[1..], sep)
  }

  /** Removes the empty strings at the end, as split does with its default limit. */
  function DropTrailingEmpty(xs: seq<string>): (r: seq<string>)
    ensures r <= xs
    ensures r == [] || r[|r| - 1] != []
    ensures forall k :: |r| <= k < |xs| ==> xs[k] == []
  {
    if xs == [] then []
    else if xs[|xs| - 1] == [] then DropTrailingEmpty(xs[..|xs| - 1])
    else xs
  }

  /**
   * s.split(sep): when sep does not occur the result is s itself (so "" gives [""]); otherwise the
   * fields with the trailing empty ones removed (so "," gives [] and ",a" gives ["", "a"]).
   */
  function Split(s: string, sep: char): (r: seq<string>)
    ensures forall i :: 0 <= i < |r| ==> sep !in r[i]
    ensures sep !in s ==> r == [s]
    ensures sep in s ==> r <= Fields(s, sep) && (r == [] || r[|r| - 1] != [])
    ensures sep in s ==> forall k :: |r| <= k < |Fields(s, sep)| ==> Fields(s, sep)[k] == []
  {
    if sep !in s then [s] else DropTrailingEmpty(Fields(s, sep))
  }

  /** Joining the fields gives back the string they were cut from. */
  lemma {:induction false} JoinFields(s: string, sep: char)
    ensures Join(Fields(s, sep), sep) == s
  {
    if s != [] {
      var rest := Fields(s[1..], sep);
      JoinFields(s[1..], sep);
      if s[0] == sep {
        assert Fields(s, sep) == [[]] + rest;
        assert ([[]] + rest)[1..] == rest;
        assert s == [sep] + s[1..];
      } else {
        var r := Fields(s, sep);
        assert r == [[s[0]] + rest[0]] + rest[1..];
        if |rest| == 1 {
          assert s == [s[0]] + rest[0];
        } else {
          assert r[1..] == rest[1..];
          assert Join(rest, sep) == rest[0] + [sep] + Join(rest[1..], sep);
          assert s == [s[0]] + s[1..];
        }
      }
    }
  }

  /** A string cut just after a separator-free first field: that field comes first, the rest follow. */
  lemma {:induction false} FieldsAfterFirst(a: string, sep: char, t: string)
    requires sep !in a
    ensures Fields(a + [sep] + t, sep) == [a] + Fields(t, sep)
  {
    var s := a + [sep] + t;
    if a == [] {
      assert s == [sep] + t;
      assert s[1..] == t;
    } else {
      assert s[1..] == a[1..] + [sep] + t;
      FieldsAfterFirst(a[1..], sep, t);
      assert [a[0]] + a[1..] == a;
    }
  }

  /** A separator-free string is a single field. */
  lemma {:induction false} FieldsOfPlain(a: string, sep: char)
    requires sep !in a
    ensures Fields(a, sep) == [a]
  {
    if a != [] {
      FieldsOfPlain(a[1..], sep);
      assert [a[0]] + a[1..] == a;
    }
  }

  /** Cutting joined separator-free fields gives back exactly those fields. */
  lemma {:induction false} FieldsJoin(xs: seq<string>, sep: char)
    requires |xs| >= 1
    requires forall i :: 0 <= i < |xs| ==> sep !in xs[i]
    ensures Fields(Join(xs, sep), sep) == xs
  {
    if |xs| == 1 {
      FieldsOfPlain(xs[0], sep);
    } else {
      FieldsJoin(xs[1..], sep);
      FieldsAfterFirst(xs[0], sep, Join(xs[1..], sep));
      assert [xs[0]] + xs[1..] == xs;
    }
  }

  /** Two separator-free names, the second non-empty, joined by the separator split back into those two. */
  lemma SplitPair(a: string, sep: char, b: string)
    requires sep !in a && sep !in b && b != []
    ensures Split(a + [sep] + b, sep) == [a, b]
  {
    FieldsAfterFirst(a, sep, b);
    FieldsOfPlain(b, sep);
    assert (a + [sep] + b)[|a|] == sep;
  }
}
