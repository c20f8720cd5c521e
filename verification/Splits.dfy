/** Splitting at a separator, and joining. */
module Splits {
  /** The parts between separators; at least one. */
  function Split<T(==)>(s: seq<T>, sep: T): (parts: seq<seq<T>>)
    ensures parts != []
  {
    if s == [] then [[]]
    else
      var parts := Split(s[1..], sep);
      if s[0] == sep then [[]] + parts else [[s[0]] + parts[0]] + parts[1..]
  }

  function Join<T>(parts: seq<seq<T>>, sep: T): seq<T> {
    if parts == [] then []
    else if |parts| == 1 then parts[0]
    else parts[0] + [sep] + Join(parts[1..], sep)
  }

  predicate Without<T(==)>(parts: seq<seq<T>>, sep: T) {
    forall p :: p in parts ==> sep !in p
  }

  lemma {:induction false} SplitInverse<T>(s: seq<T>, sep: T)
    ensures Join(Split(s, sep), sep) == s && Without(Split(s, sep), sep)
  {
    if s != [] {
      var parts := Split(s[1..], sep);
      SplitInverse(s[1..], sep);
      if s[0] == sep {
        assert ([[]] + parts)[1..] == parts;
      } else {
        assert Join([[s[0]] + parts[0]] + parts[1..], sep) == [s[0]] + Join(parts, sep);
      }
    }
  }

  lemma {:induction false} SplitAfter<T>(p: seq<T>, rest: seq<T>, sep: T)
    requires sep !in p
    ensures Split(p + [sep] + rest, sep) == [p] + Split(rest, sep)
    decreases |p|
  {
    var s := p + [sep] + rest;
    if p == [] {
      assert s[1..] == rest;
    } else {
      assert s[1..] == p[1..] + [sep] + rest;
      SplitAfter(p[1..], rest, sep);
      assert s[0] == p[0] && p[0] in p && p == [p[0]] + p[1..];
      assert ([p[1..]] + Split(rest, sep))[1..] == Split(rest, sep);
    }
  }

  lemma {:induction false} SplitNone<T>(p: seq<T>, sep: T)
    requires sep !in p
    ensures Split(p, sep) == [p]
  {
    if p != [] {
      SplitNone(p[1..], sep);
      assert p[0] in p && p == [p[0]] + p[1..];
    }
  }

  lemma {:induction false} JoinInverse<T>(parts: seq<seq<T>>, sep: T)
    requires parts != [] && Without(parts, sep)
    ensures Split(Join(parts, sep), sep) == parts
  {
    if |parts| == 1 {
      SplitNone(parts[0], sep);
    } else {
      SplitAfter(parts[0], Join(parts[1..], sep), sep);
      JoinInverse(parts[1..], sep);
    }
  }

  lemma {:induction false} SplitAppend<T>(a: seq<T>, b: seq<T>, sep: T)
    ensures Split(a + [sep] + b, sep) == Split(a, sep) + Split(b, sep)
    decreases |a|
  {
    var s := a + [sep] + b;
    if a == [] {
      assert s[1..] == b;
    } else {
      assert s[1..] == a[1..] + [sep] + b;
      SplitAppend(a[1..], b, sep);
    }
  }
}
