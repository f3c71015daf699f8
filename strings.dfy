/** The JavaScript string operations the backend relies on: `split` with a
    one-character separator, `join`, and the lemmas that tie them together. */
module Strings {

  /** `s.split(c)` for a one-character separator `c`: the fields between
      occurrences of `c`, in order. There is always at least one field, and
      no field contains the separator. */
  function Split(s: string, c: char): (r: seq<string>)
    ensures |r| >= 1
    ensures forall i :: 0 <= i < |r| ==> c !in r[i]
    decreases |s|
  {
    if s == [] then [""]
    else
      var rest := Split(s[1..], c);
      if s[0] == c then [""] + rest
      else [[s[0]] + rest[0]] + rest[1..]
  }

  /** `parts.join(sep)`: no parts give "", one part is returned as it is,
      and otherwise the text starts with the first part. */
  function Join(parts: seq<string>, sep: string): (r: string)
    ensures parts == [] ==> r == ""
    ensures |parts| == 1 ==> r == parts[0]
    ensures |parts| >= 1 ==> |r| >= |parts[0]| && r[..|parts[0]|] == parts[0]
    decreases |parts|
  {
    if |parts| == 0 then ""
    else if |parts| == 1 then parts[0]
    else parts[0] + sep + Join(parts[1..], sep)
  }

  function Last<T>(s: seq<T>): T
    requires |s| > 0
  {
    s[|s| - 1]
  }

  /** A string without the separator is a single field. */
  lemma {:induction false} SplitNoSeparator(s: string, c: char)
    requires c !in s
    ensures Split(s, c) == [s]
    decreases |s|
  {
    if s != [] {
      SplitNoSeparator(s[1..], c);
      assert [s[0]] + s[1..] == s;
    }
  }

  /** One step of `Split`: the character `x` extends the first field, or
      starts a new field when it is the separator. */
  function PushChar(x: char, fields: seq<string>, c: char): (r: seq<string>)
    requires |fields| >= 1
    ensures |r| >= 1
  {
    if x == c then [""] + fields
    else [[x] + fields[0]] + fields[1..]
  }

  lemma SplitCons(x: char, t: string, c: char)
    ensures Split([x] + t, c) == PushChar(x, Split(t, c), c)
  {
    assert ([x] + t)[1..] == t;
  }

  /** Joining after a step puts the character back in front. */
  lemma JoinCons(p: string, rest: seq<string>, sep: string)
    requires |rest| >= 1
    ensures Join([p] + rest, sep) == p + sep + Join(rest, sep)
  {
    assert ([p] + rest)[1..] == rest;
  }

  lemma JoinExtendHead(x: char, fields: seq<string>, sep: string)
    requires |fields| >= 1
    ensures Join([[x] + fields[0]] + fields[1..], sep) == [x] + Join(fields, sep)
  {
    if |fields| > 1 {
      JoinCons([x] + fields[0], fields[1..], sep);
      assert [fields[0]] + fields[1..] == fields;
      JoinCons(fields[0], fields[1..], sep);
    } else {
      assert [[x] + fields[0]] + fields[1..] == [[x] + fields[0]];
    }
  }

  lemma JoinPushChar(x: char, fields: seq<string>, c: char)
    requires |fields| >= 1
    ensures Join(PushChar(x, fields, c), [c]) == [x] + Join(fields, [c])
  {
    if x == c {
      JoinCons("", fields, [c]);
    } else {
      JoinExtendHead(x, fields, [c]);
    }
  }

  /** Joining the fields with the separator gives back the string. */
  lemma {:induction false} JoinSplit(s: string, c: char)
    ensures Join(Split(s, c), [c]) == s
    decreases |s|
  {
    if s != [] {
      SplitCons(s[0], s[1..], c);
      assert [s[0]] + s[1..] == s;
      JoinSplit(s[1..], c);
      JoinPushChar(s[0], Split(s[1..], c), c);
    }
  }

  /** A step only touches the first field, so it commutes with appending. */
  lemma PushCharAppend(x: char, left: seq<string>, right: seq<string>, c: char)
    requires |left| >= 1
    ensures PushChar(x, left + right, c) == PushChar(x, left, c) + right
  {
    if x != c {
      assert (left + right)[1..] == left[1..] + right;
    }
  }

  /** Splitting distributes over a separator placed between two strings. */
  lemma {:induction false} SplitConcat(a: string, b: string, c: char)
    ensures Split(a + [c] + b, c) == Split(a, c) + Split(b, c)
    decreases |a|
  {
    if a == [] {
      SplitCons(c, b, c);
      assert a + [c] + b == [c] + b;
    } else {
      var x, rest := a[0], a[1..];
      var tail := rest + [c] + b;
      assert a + [c] + b == [x] + tail;
      assert a == [x] + rest;
      SplitConcat(rest, b, c);
      SplitCons(x, tail, c);
      SplitCons(x, rest, c);
      PushCharAppend(x, Split(rest, c), Split(b, c), c);
    }
  }

  /** Joining one more part appends the separator and that part. */
  lemma {:induction false} JoinSnoc(parts: seq<string>, p: string, sep: string)
    requires |parts| >= 1
    ensures Join(parts + [p], sep) == Join(parts, sep) + sep + p
    decreases |parts|
  {
    if |parts| > 1 {
      JoinSnoc(parts[1..], p, sep);
      assert (parts + [p])[1..] == parts[1..] + [p];
    } else {
      assert (parts + [p])[1..] == [p];
    }
  }

  /** Splitting a join of separator-free parts gives back the parts. */
  lemma {:induction false} SplitJoin(parts: seq<string>, c: char)
    requires |parts| >= 1
    requires forall i :: 0 <= i < |parts| ==> c !in parts[i]
    ensures Split(Join(parts, [c]), c) == parts
    decreases |parts|
  {
    if |parts| == 1 {
      SplitNoSeparator(parts[0], c);
    } else {
      SplitJoin(parts[1..], c);
      SplitNoSeparator(parts[0], c);
      SplitConcat(parts[0], Join(parts[1..], [c]), c);
      assert [parts[0]] + parts[1..] == parts;
    }
  }

  /** The first field: the longest separator-free prefix. */
  lemma {:induction false} SplitFirstField(s: string, c: char)
    ensures var f := Split(s, c)[0];
      && f <= s
      && c !in f
      && (|f| < |s| ==> s[|f|] == c)
    decreases |s|
  {
    if s != [] {
      SplitFirstField(s[1..], c);
    }
  }

  /** The last field: the separator-free suffix that follows the last
      separator, or the whole string when there is no separator. */
  lemma SplitLastField(s: string, c: char)
    ensures var f := Last(Split(s, c));
      && |f| <= |s|
      && s[|s| - |f|..] == f
      && c !in f
      && (|f| < |s| ==> s[|s| - |f| - 1] == c)
  {
    var parts := Split(s, c);
    JoinSplit(s, c);
    if |parts| > 1 {
      var init := parts[..|parts| - 1];
      assert parts == init + [Last(parts)];
      JoinSnoc(init, Last(parts), [c]);
    }
  }
}
