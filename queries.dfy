/**
 * The query-string encoder `buildQueries`: the entries of a record, in the
 * order `Object.entries` lists them, printed as `key=val` and joined by `&`,
 * with no escaping. The record is given as that ordered list of entries.
 */
module Queries {

  /** One `key=val` entry. */
  function Entry(p: (string, string)): (e: string)
    ensures |e| == |p.0| + 1 + |p.1| && e[|p.0|] == '='
  {
    p.0 + "=" + p.1
  }

  function Entries(params: seq<(string, string)>): (es: seq<string>)
    ensures |es| == |params|
    ensures forall i :: 0 <= i < |params| ==> es[i] == Entry(params[i])
  {
    if params == [] then [] else [Entry(params[0])] + Entries(params[1..])
  }

  /** `parts.join(sep)`. */
  function Join(parts: seq<string>, sep: char): string
  {
    if |parts| == 0 then ""
    else if |parts| == 1 then parts[0]
    else parts[0] + [sep] + Join(parts[1..], sep)
  }

  /** `buildQueries`: an empty record gives the empty string. */
  function BuildQueries(params: seq<(string, string)>): (q: string)
    ensures q == "" <==> params == []
  {
    var es := Entries(params);
    if es == [] then ""
    else
      JoinStartsWith(es, '&');
      Join(es, '&')
  }

  lemma {:induction false} JoinStartsWith(parts: seq<string>, sep: char)
    requires parts != []
    ensures |Join(parts, sep)| >= |parts[0]| && Join(parts, sep)[..|parts[0]|] == parts[0]
  {
    if |parts| > 1 {
      assert Join(parts, sep) == parts[0] + ([sep] + Join(parts[1..], sep));
    }
  }

  /** Number of occurrences of `c` in `s`. */
  function Count(s: string, c: char): nat
  {
    if s == [] then 0 else (if s[0] == c then 1 else 0) + Count(s[1..], c)
  }

  lemma {:induction false} CountAppend(a: string, b: string, c: char)
    ensures Count(a + b, c) == Count(a, c) + Count(b, c)
  {
    if a != [] {
      assert (a + b)[1..] == a[1..] + b;
      CountAppend(a[1..], b, c);
    } else {
      assert a + b == b;
    }
  }

  lemma {:induction false} CountAbsent(s: string, c: char)
    requires c !in s
    ensures Count(s, c) == 0
  {
    if s != [] {
      CountAbsent(s[1..], c);
    }
  }

  /** No key and no value contains `c`. */
  predicate FreeOf(params: seq<(string, string)>, c: char)
  {
    forall i :: 0 <= i < |params| ==> c !in params[i].0 && c !in params[i].1
  }

  lemma {:induction false} JoinCount(parts: seq<string>, sep: char)
    requires parts != []
    requires forall i :: 0 <= i < |parts| ==> sep !in parts[i]
    ensures Count(Join(parts, sep), sep) == |parts| - 1
  {
    if |parts| == 1 {
      CountAbsent(parts[0], sep);
    } else {
      JoinCount(parts[1..], sep);
      CountAbsent(parts[0], sep);
      CountAppend(parts[0], [sep], sep);
      CountAppend(parts[0] + [sep], Join(parts[1..], sep), sep);
      assert Count([sep], sep) == 1 by {
        assert [sep][1..] == [];
      }
    }
  }

  /**
   * With no `&` inside keys or values, `n` entries are separated by exactly
   * `n - 1` ampersands (none for the empty record).
   */
  lemma {:induction false} SeparatorCount(params: seq<(string, string)>)
    requires FreeOf(params, '&')
    ensures Count(BuildQueries(params), '&') == if params == [] then 0 else |params| - 1
  {
    var es := Entries(params);
    if params != [] {
      forall i | 0 <= i < |es| ensures '&' !in es[i] {
        assert es[i] == params[i].0 + "=" + params[i].1;
      }
      JoinCount(es, '&');
    }
  }

  /** `s.split(sep)`. */
  function Split(s: string, sep: char): (parts: seq<string>)
    ensures |parts| >= 1
  {
    if s == [] then [""]
    else
      var rest := Split(s[1..], sep);
      if s[0] == sep then [""] + rest else [[s[0]] + rest[0]] + rest[1..]
  }

  lemma {:induction false} SplitWithout(s: string, sep: char)
    requires sep !in s
    ensures Split(s, sep) == [s]
  {
    if s != [] {
      SplitWithout(s[1..], sep);
      assert [s[0]] + s[1..] == s;
    }
  }

  lemma {:induction false} SplitAt(a: string, b: string, sep: char)
    requires sep !in a
    ensures Split(a + [sep] + b, sep) == [a] + Split(b, sep)
  {
    var s := a + [sep] + b;
    if a == [] {
      assert s == [sep] + b;
      assert s[1..] == b;
    } else {
      assert s[1..] == a[1..] + [sep] + b;
      SplitAt(a[1..], b, sep);
      assert [a[0]] + a[1..] == a;
    }
  }

  lemma {:induction false} SplitJoin(parts: seq<string>, sep: char)
    requires parts != []
    requires forall i :: 0 <= i < |parts| ==> sep !in parts[i]
    ensures Split(Join(parts, sep), sep) == parts
  {
    if |parts| == 1 {
      SplitWithout(parts[0], sep);
    } else {
      SplitAt(parts[0], Join(parts[1..], sep), sep);
      SplitJoin(parts[1..], sep);
      assert [parts[0]] + parts[1..] == parts;
    }
  }

  /**
   * Splitting a non-empty query string on `&` gives back its `key=val`
   * entries, in the record's order, provided no key or value contains `&`.
   */
  lemma {:induction false} QueryRoundTrip(params: seq<(string, string)>)
    requires params != [] && FreeOf(params, '&')
    ensures Split(BuildQueries(params), '&') == Entries(params)
  {
    var es := Entries(params);
    forall i | 0 <= i < |es| ensures '&' !in es[i] {
      assert es[i] == params[i].0 + "=" + params[i].1;
    }
    SplitJoin(es, '&');
  }
}
