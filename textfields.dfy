/** Python's `str.split(sep)` with a one-character separator, and its inverse. */
module TextFields {

  /** The fields of `s` between occurrences of `sep`. As in Python there is
      always at least one field: `""` splits into `[""]`, `"a,"` into `["a", ""]`. */
  function Split(s: string, sep: char): (fields: seq<string>)
    ensures |fields| >= 1
    ensures forall k :: 0 <= k < |fields| ==> sep !in fields[k]
    decreases |s|
  {
    if s == [] then [[]]
    else
      var rest := Split(s[1..], sep);
      if s[0] == sep then [[]] + rest
      else [[s[0]] + rest[0]] + rest[1..]
  }

  /** The fields written one after another with `sep` between neighbours. */
  function Join(fields: seq<string>, sep: char): string
    requires |fields| >= 1
  {
    if |fields| == 1 then fields[0] else fields[0] + [sep] + Join(fields[1..], sep)
  }

  /** How many times `c` occurs in `s`. */
  function Occurrences(s: string, c: char): nat
  {
    if s == [] then 0 else (if s[0] == c then 1 else 0) + Occurrences(s[1..], c)
  }

  /** Splitting loses nothing: joining the fields again gives back the string. */
  lemma {:induction false} JoinSplit(s: string, sep: char)
    ensures Join(Split(s, sep), sep) == s
  {
    if s != [] {
      var rest := Split(s[1..], sep);
      JoinSplit(s[1..], sep);
      if s[0] != sep {
        JoinExtendsFirst(s[0], rest, sep);
      }
    }
  }

  /** Prefixing the first field with `c` prefixes the joined string with `c`. */
  lemma JoinExtendsFirst(c: char, fields: seq<string>, sep: char)
    requires |fields| >= 1
    ensures Join([[c] + fields[0]] + fields[1..], sep) == [c] + Join(fields, sep)
  {
    var extended := [[c] + fields[0]] + fields[1..];
    assert extended[1..] == fields[1..];
  }

  /** Joining separator-free fields and splitting again gives back the fields. */
  lemma {:induction false} SplitJoin(fields: seq<string>, sep: char)
    requires |fields| >= 1
    requires forall k :: 0 <= k < |fields| ==> sep !in fields[k]
    ensures Split(Join(fields, sep), sep) == fields
  {
    if |fields| == 1 {
      SplitPrefix(fields[0], [], sep);
      assert fields[0] + [] == fields[0];
    } else {
      var tail := [sep] + Join(fields[1..], sep);
      SplitJoin(fields[1..], sep);
      assert tail[1..] == Join(fields[1..], sep);
      assert Split(tail, sep) == [[]] + fields[1..];
      SplitPrefix(fields[0], tail, sep);
      assert fields[0] + tail == Join(fields, sep);
      assert fields[0] + [] == fields[0];
    }
  }

  /** A separator-free prefix `f` joins the first field of what follows it. */
  lemma {:induction false} SplitPrefix(f: string, t: string, sep: char)
    requires sep !in f
    ensures Split(f + t, sep) == [f + Split(t, sep)[0]] + Split(t, sep)[1..]
    decreases |f|
  {
    if f != [] {
      SplitPrefix(f[1..], t, sep);
      assert (f + t)[1..] == f[1..] + t;
      assert [f[0]] + (f[1..] + Split(t, sep)[0]) == f + Split(t, sep)[0];
    } else {
      var fields := Split(t, sep);
      assert f + t == t && f + fields[0] == fields[0];
      assert [fields[0]] + fields[1..] == fields;
    }
  }

  /** Three fields joined: the first, a separator, the second, a separator, the third. */
  lemma JoinThree(f0: string, f1: string, f2: string, sep: char)
    ensures Join([f0, f1, f2], sep) == f0 + [sep] + f1 + [sep] + f2
  {
    assert [f0, f1, f2][1..] == [f1, f2];
    assert [f1, f2][1..] == [f2];
    assert Join([f1, f2], sep) == f1 + [sep] + f2;
  }

  /** Three separator-free fields in front of separator-free fields stay separator-free. */
  lemma SeparatorFreeFields(f0: string, f1: string, f2: string, rest: seq<string>, sep: char)
    requires sep !in f0 && sep !in f1 && sep !in f2
    requires forall k :: 0 <= k < |rest| ==> sep !in rest[k]
    ensures var fields := [f0, f1, f2] + rest;
            forall k :: 0 <= k < |fields| ==> sep !in fields[k]
  {
    var fields := [f0, f1, f2] + rest;
    forall k | 0 <= k < |fields| ensures sep !in fields[k] {
      if k >= 3 {
        assert fields[k] == rest[k - 3];
      }
    }
  }

  /** There is one more field than there are separators. */
  lemma {:induction false} FieldCount(s: string, sep: char)
    ensures |Split(s, sep)| == Occurrences(s, sep) + 1
  {
    if s != [] {
      FieldCount(s[1..], sep);
    }
  }
}
