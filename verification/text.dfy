/** Character-level helpers for building card rows: Python's
    `s.replace("\n", "")`, and splitting and joining on a separator, which
    give the tab-separated row layout an inverse to be checked against. */
module Text {

  /** `s.replace("\n", "")`: no newline is left (every other character is
      kept, in order: see StripCount, StripConcat and StripKeeps). */
  function StripNewlines(s: string): (r: string)
    ensures '\n' !in r
  {
    if s == [] then []
    else
      assert s == [s[0]] + s[1..];
      if s[0] == '\n' then StripNewlines(s[1..])
      else [s[0]] + StripNewlines(s[1..])
  }

  /** Stripping removes every newline and keeps every other character as
      often as it occurs. */
  lemma {:induction false} StripCount(s: string)
    ensures multiset(StripNewlines(s)) == multiset(s)['\n' := 0]
  {
    if s != [] {
      StripCount(s[1..]);
      assert s == [s[0]] + s[1..];
    }
  }

  /** Stripping works piece by piece, so it never reorders characters. */
  lemma {:induction false} StripConcat(a: string, b: string)
    ensures StripNewlines(a + b) == StripNewlines(a) + StripNewlines(b)
  {
    if a == [] {
      assert a + b == b;
    } else {
      assert (a + b)[0] == a[0];
      assert (a + b)[1..] == a[1..] + b;
      StripConcat(a[1..], b);
    }
  }

  /** A text without newlines is left as it is. */
  lemma {:induction false} StripKeeps(s: string)
    requires '\n' !in s
    ensures StripNewlines(s) == s
  {
    if s != [] {
      StripKeeps(s[1..]);
    }
  }

  /** Stripping twice is stripping once. */
  lemma {:induction false} StripIdempotent(s: string)
    ensures StripNewlines(StripNewlines(s)) == StripNewlines(s)
  {
    StripKeeps(StripNewlines(s));
  }

  /** Stripping newlines neither adds nor loses any other character. */
  lemma StripKeepsOthers(s: string, c: char)
    requires c != '\n'
    ensures c in StripNewlines(s) <==> c in s
  {
    StripCount(s);
    assert multiset(StripNewlines(s))[c] == multiset(s)[c];
  }

  /** `s.split(d)`: the pieces of `s` between occurrences of `d`, none of
      which holds `d` (see SplitCount for how many there are). */
  function Split(s: string, d: char): (r: seq<string>)
    ensures |r| > 0
    ensures forall i :: 0 <= i < |r| ==> d !in r[i]
  {
    if s == [] then [[]]
    else
      assert s == [s[0]] + s[1..];
      var rest := Split(s[1..], d);
      if s[0] == d then [[]] + rest
      else [[s[0]] + rest[0]] + rest[1..]
  }

  /** There is one more piece than there are separators. */
  lemma {:induction false} SplitCount(s: string, d: char)
    ensures |Split(s, d)| == multiset(s)[d] + 1
  {
    if s != [] {
      SplitCount(s[1..], d);
      assert s == [s[0]] + s[1..];
    }
  }

  /** `d.join(fields)`. */
  function Join(fields: seq<string>, d: char): string
  {
    if |fields| == 0 then []
    else if |fields| == 1 then fields[0]
    else fields[0] + [d] + Join(fields[1..], d)
  }

  /** Joining a field in front of at least one more puts a separator between them. */
  lemma JoinCons(x: string, rest: seq<string>, d: char)
    requires |rest| > 0
    ensures Join([x] + rest, d) == x + [d] + Join(rest, d)
  {
    assert ([x] + rest)[1..] == rest;
  }

  lemma {:induction false} SplitWhole(a: string, d: char)
    requires d !in a
    ensures Split(a, d) == [a]
  {
    if a != [] {
      assert a[0] != d;
      SplitWhole(a[1..], d);
      assert [a[0]] + a[1..] == a;
    }
  }

  lemma {:induction false} SplitFirst(a: string, d: char, b: string)
    requires d !in a
    ensures Split(a + [d] + b, d) == [a] + Split(b, d)
  {
    var s := a + [d] + b;
    if a == [] {
      assert s[1..] == b;
    } else {
      assert s[0] == a[0];
      assert s[1..] == a[1..] + [d] + b;
      SplitFirst(a[1..], d, b);
      assert [a[0]] + a[1..] == a;
    }
  }

  /** Splitting undoes joining when no field holds the separator. */
  lemma {:induction false} SplitJoin(fields: seq<string>, d: char)
    requires |fields| > 0
    requires forall i :: 0 <= i < |fields| ==> d !in fields[i]
    ensures Split(Join(fields, d), d) == fields
  {
    if |fields| == 1 {
      SplitWhole(fields[0], d);
    } else {
      SplitJoin(fields[1..], d);
      SplitFirst(fields[0], d, Join(fields[1..], d));
      assert [fields[0]] + fields[1..] == fields;
    }
  }

  /** Dropping the last character of a concatenation drops it from its right part. */
  lemma DropLast(a: string, b: string)
    requires |b| > 0
    ensures (a + b)[..|a + b| - 1] == a + b[..|b| - 1]
  {
  }
}
