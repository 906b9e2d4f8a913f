/** String helpers with Go's semantics, used by the line tokenizer and the
    binding generators: `strings.Split` on a one-character separator,
    `strings.Join`, and the decimal rendering `fmt.Sprint(n)` of a natural number. */
module Strings {

  /** strings.Split(s, [sep], -1): all pieces between separators, in order.
      The empty string splits into one empty piece. */
  function Split(s: string, sep: char): (parts: seq<string>)
    ensures |parts| >= 1
    ensures forall i :: 0 <= i < |parts| ==> sep !in parts[i]
    decreases |s|
  {
    if |s| == 0 then [""]
    else
      var rest := Split(s[1..], sep);
      if s[0] == sep then [""] + rest
      else [[s[0]] + rest[0]] + rest[1..]
  }

  /** strings.Join(parts, [sep]). */
  function Join(parts: seq<string>, sep: char): string
  {
    if |parts| == 0 then ""
    else if |parts| == 1 then parts[0]
    else parts[0] + [sep] + Join(parts[1..], sep)
  }

  /** strings.Join(parts, sep) for a separator of any length. */
  function JoinWith(parts: seq<string>, sep: string): string
  {
    if |parts| == 0 then ""
    else if |parts| == 1 then parts[0]
    else parts[0] + sep + JoinWith(parts[1..], sep)
  }

  /** Joining the pieces of a split gives back the original string. */
  lemma {:induction false} JoinSplit(s: string, sep: char)
    ensures Join(Split(s, sep), sep) == s
    decreases |s|
  {
    if |s| > 0 {
      var rest := Split(s[1..], sep);
      JoinSplit(s[1..], sep);
      if s[0] == sep {
        assert Split(s, sep) == [""] + rest;
        assert ([""] + rest)[1..] == rest;
      } else {
        var parts := Split(s, sep);
        assert parts == [[s[0]] + rest[0]] + rest[1..];
        if |rest| == 1 {
          assert Join(rest, sep) == rest[0];
        } else {
          assert parts[1..] == rest[1..];
          assert Join(rest, sep) == rest[0] + [sep] + Join(rest[1..], sep);
        }
        assert s == [s[0]] + s[1..];
      }
    }
  }

  /** Splitting a join of separator-free pieces gives back the pieces. */
  lemma {:induction false} SplitJoin(parts: seq<string>, sep: char)
    requires |parts| >= 1
    requires forall i :: 0 <= i < |parts| ==> sep !in parts[i]
    ensures Split(Join(parts, sep), sep) == parts
    decreases |parts|
  {
    if |parts| == 1 {
      SplitNoSep(parts[0], sep);
    } else {
      SplitJoin(parts[1..], sep);
      SplitAround(parts[0], Join(parts[1..], sep), sep);
      assert [parts[0]] + parts[1..] == parts;
    }
  }

  /** A string without the separator is a single piece. */
  lemma {:induction false} SplitNoSep(s: string, sep: char)
    requires sep !in s
    ensures Split(s, sep) == [s]
    decreases |s|
  {
    if |s| > 0 {
      assert sep !in s[1..];
      SplitNoSep(s[1..], sep);
      assert [s[0]] + s[1..] == s;
    }
  }

  /** Splitting `a + [sep] + b`, where `a` is separator-free, puts `a` in front
      of the pieces of `b`. */
  lemma {:induction false} SplitAround(a: string, b: string, sep: char)
    requires sep !in a
    ensures Split(a + [sep] + b, sep) == [a] + Split(b, sep)
    decreases |a|
  {
    if |a| == 0 {
      assert a + [sep] + b == [sep] + b;
      assert ([sep] + b)[1..] == b;
    } else {
      var t := a + [sep] + b;
      assert t[0] == a[0] && t[1..] == a[1..] + [sep] + b;
      assert sep !in a[1..];
      SplitAround(a[1..], b, sep);
      assert [a[0]] + a[1..] == a;
    }
  }

  /** Splitting a `sep`-joined list at the first character of `sep`, when that
      character occurs neither in the pieces nor in the rest of `sep`, yields one
      piece per element: the first element, then the rest of `sep` followed by
      each later element. */
  lemma {:induction false} SplitJoinWith(parts: seq<string>, sep: string)
    requires |parts| >= 1 && |sep| >= 1
    requires sep[0] !in sep[1..]
    requires forall i :: 0 <= i < |parts| ==> sep[0] !in parts[i]
    ensures Split(JoinWith(parts, sep), sep[0])
         == [parts[0]] + seq(|parts| - 1, i requires 0 <= i < |parts| - 1 => sep[1..] + parts[i + 1])
    decreases |parts|
  {
    var c := sep[0];
    if |parts| == 1 {
      SplitNoSep(parts[0], c);
    } else {
      var tail := parts[1..];
      SplitJoinWith(tail, sep);
      var restJoin := JoinWith(tail, sep);
      assert JoinWith(parts, sep) == parts[0] + [c] + (sep[1..] + restJoin) by {
        assert sep == [c] + sep[1..];
      }
      SplitAround(parts[0], sep[1..] + restJoin, c);
      // The first piece of `restJoin` absorbs the rest of `sep`.
      SplitPrefix(sep[1..], restJoin, c);
      var sr := Split(restJoin, c);
      assert sr == [tail[0]] + seq(|tail| - 1, i requires 0 <= i < |tail| - 1 => sep[1..] + tail[i + 1]);
      assert |Split(restJoin, c)| == |parts| - 1;
      var want := seq(|parts| - 1, i requires 0 <= i < |parts| - 1 => sep[1..] + parts[i + 1]);
      var got := [sep[1..] + sr[0]] + sr[1..];
      assert |got| == |want|;
      forall i | 0 <= i < |want| ensures got[i] == want[i] {
        if i > 0 {
          assert got[i] == sr[i] == sep[1..] + tail[i];
        }
      }
    }
  }

  /** Prefixing a separator-free string glues it onto the first piece. */
  lemma {:induction false} SplitPrefix(p: string, s: string, sep: char)
    requires sep !in p
    ensures var sp := Split(s, sep);
            Split(p + s, sep) == [p + sp[0]] + sp[1..]
    decreases |p|
  {
    if |p| > 0 {
      assert (p + s)[1..] == p[1..] + s;
      assert sep !in p[1..];
      SplitPrefix(p[1..], s, sep);
      assert [p[0]] + (p[1..] + Split(s, sep)[0]) == p + Split(s, sep)[0];
    } else {
      var sp := Split(s, sep);
      assert p + s == s && p + sp[0] == sp[0];
      assert [sp[0]] + sp[1..] == sp;
    }
  }

  /** Appending a piece to a joined list appends the separator and the piece,
      as a loop that builds the join step by step does. */
  lemma {:induction false} JoinWithSnoc(parts: seq<string>, p: string, sep: string)
    ensures JoinWith(parts + [p], sep) == if |parts| == 0 then p else JoinWith(parts, sep) + sep + p
    decreases |parts|
  {
    if |parts| > 1 {
      assert (parts + [p])[1..] == parts[1..] + [p];
      JoinWithSnoc(parts[1..], p, sep);
    } else if |parts| == 1 {
      assert (parts + [p])[1..] == [p];
    }
  }

  /** fmt.Sprint(n) for a natural number: its decimal digits. */
  function NatToString(n: nat): (r: string)
    ensures |r| >= 1
    ensures forall i :: 0 <= i < |r| ==> '0' <= r[i] <= '9'
  {
    if n < 10 then [Digit(n)] else NatToString(n / 10) + [Digit(n % 10)]
  }

  function Digit(d: nat): (c: char)
    requires d < 10
    ensures '0' <= c <= '9'
  {
    "0123456789"[d]
  }

  /** Concatenation regrouped to the right. */
  lemma Assoc(x: string, y: string, z: string)
    ensures x + y + z == x + (y + z)
  {
  }
}

/** The output side of io.Writer: everything written so far. */
module Writers {

  class Writer {
    var text: string

    constructor ()
      ensures text == ""
    {
      text := "";
    }

    /** fmt.Fprint(out, s) / fmt.Fprintf with all operands already rendered. */
    method Write(s: string)
      modifies this
      ensures text == old(text) + s
    {
      text := text + s;
    }
  }
}
