/** The client's line tokenizer (io.go): `readChar` pulls one byte from a
    reader, retrying reads that deliver nothing; `parseLine` collects bytes up to
    a newline and splits the line at single spaces.

    A reader is modelled by the results its successive Read calls will return;
    once those run out, Read reports end of file. Each byte becomes the character
    with the same code point, as Go's `string(c)` does. */
module ClientIo {
  import opened Wrappers
  import opened Strings

  newtype byte = x: int | 0 <= x < 256

  const Newline: byte := 10

  /** One call of Read on a one-byte buffer: a byte (n = 1), nothing (n = 0,
      no error), or an error such as end of file. A byte delivered together
      with an error counts as an error: the error is checked first. */
  datatype ReadResult = Got(b: byte) | NoData | ReadErr

  /** string(c) for a byte c. */
  function ByteChar(b: byte): char
  {
    (b as int) as char
  }

  function Chars(bs: seq<byte>): (s: string)
    ensures |s| == |bs|
    ensures forall i :: 0 <= i < |bs| ==> s[i] == ByteChar(bs[i])
  {
    seq(|bs|, i requires 0 <= i < |bs| => ByteChar(bs[i]))
  }

  /** A reader that delivers the given bytes one per call. */
  function Gots(bs: seq<byte>): seq<ReadResult>
  {
    seq(|bs|, i requires 0 <= i < |bs| => Got(bs[i]))
  }

  // ------------------------------------------------------------ readChar

  /** readChar on the results `p`: the byte read, whether an error ended the
      read, and the results left over. On an error the byte is the zero value. */
  function NextChar(p: seq<ReadResult>): (res: (byte, bool, seq<ReadResult>))
    ensures !res.1 ==> |res.2| < |p|
    ensures |res.2| <= |p|
    decreases |p|
  {
    if |p| == 0 then (0 as byte, true, p)
    else match p[0]
      case Got(b) => (b, false, p[1..])
      case NoData => NextChar(p[1..])
      case ReadErr => (0 as byte, true, p[1..])
  }

  /** k reads in a row that deliver nothing. */
  function NoDatas(k: nat): (p: seq<ReadResult>)
    ensures |p| == k && forall i :: 0 <= i < k ==> p[i] == NoData
  {
    seq(k, _ => NoData)
  }

  /** Empty reads are retried, so they are invisible to readChar; an error
      ends the read with eof set whatever follows it, and so does an exhausted
      reader. */
  lemma {:induction false} NextCharRetries(k: nat, p: seq<ReadResult>)
    ensures NextChar(NoDatas(k) + p) == NextChar(p)
    ensures NextChar([ReadErr] + p) == (0 as byte, true, p)
    ensures NextChar(NoDatas(k)) == (0 as byte, true, [])
    decreases k
  {
    if k > 0 {
      var nd := NoDatas(k);
      NextCharRetries(k - 1, p);
      assert (nd + p)[0] == NoData && nd[0] == NoData;
      assert (nd + p)[1..] == NoDatas(k - 1) + p;
      assert nd[1..] == NoDatas(k - 1);
    } else {
      assert NoDatas(k) + p == p;
    }
    assert ([ReadErr] + p)[1..] == p;
  }

  // ----------------------------------------------------------- parseLine

  /** Reading the rest of a line: None when an error comes before the newline,
      otherwise the line's characters without the newline. */
  function ReadLine(p: seq<ReadResult>): (res: (Option<string>, seq<ReadResult>))
    ensures |res.1| <= |p|
    ensures res.0.Some? ==> ByteChar(Newline) !in res.0.value
    decreases |p|, 0
  {
    var (c, eof, rest) := NextChar(p);
    if eof then (None, rest) else Continue(c, rest)
  }

  /** The rest of a line whose latest byte was `c`. */
  function Continue(c: byte, p: seq<ReadResult>): (res: (Option<string>, seq<ReadResult>))
    ensures |res.1| <= |p|
    ensures res.0.Some? ==> ByteChar(Newline) !in res.0.value
    decreases |p|, 1
  {
    if c == Newline then (Some(""), p)
    else PrependAll([ByteChar(c)], ReadLine(p))
  }

  /** Puts characters read earlier in front of a line read later. */
  function PrependAll(str: string, line: (Option<string>, seq<ReadResult>)): (Option<string>, seq<ReadResult>)
  {
    (if line.0.None? then None else Some(str + line.0.value), line.1)
  }

  /** parseLine on the results `p`: the words, whether an error ended the
      read, and the results left over. A line cut short by an error is dropped. */
  function ParseLineSpec(p: seq<ReadResult>): (res: (seq<string>, bool, seq<ReadResult>))
    ensures res.1 <==> res.0 == []
    ensures res.1 <==> ReadLine(p).0.None?
    ensures !res.1 ==> forall i :: 0 <= i < |res.0| ==> ' ' !in res.0[i] && ByteChar(Newline) !in res.0[i]
    ensures !res.1 ==> Join(res.0, ' ') == ReadLine(p).0.value
    ensures res.2 == ReadLine(p).1
  {
    var (line, rest) := ReadLine(p);
    if line.None? then ([], true, rest)
    else
      var words := Split(line.value, ' ');
      JoinSplit(line.value, ' ');
      SplitKeepsOut(line.value, ' ', ByteChar(Newline));
      (words, false, rest)
  }

  /** A character absent from the string is absent from every piece. */
  lemma {:induction false} SplitKeepsOut(s: string, sep: char, c: char)
    requires c !in s
    ensures forall i :: 0 <= i < |Split(s, sep)| ==> c !in Split(s, sep)[i]
    decreases |s|
  {
    if |s| > 0 {
      assert c !in s[1..];
      SplitKeepsOut(s[1..], sep, c);
    }
  }

  /** The bytes of a newline-free line, followed by a newline, are read as that
      line; the newline is consumed and what follows it is left unread. */
  lemma {:induction false} ReadsCompleteLine(bs: seq<byte>, rest: seq<ReadResult>)
    requires Newline !in bs
    ensures ReadLine(Gots(bs) + [Got(Newline)] + rest) == (Some(Chars(bs)), rest)
    decreases |bs|
  {
    var p := Gots(bs) + [Got(Newline)] + rest;
    if |bs| == 0 {
      assert p == [Got(Newline)] + rest;
      assert p[1..] == rest;
    } else {
      assert p[0] == Got(bs[0]);
      assert p[1..] == Gots(bs[1..]) + [Got(Newline)] + rest;
      assert Newline !in bs[1..];
      ReadsCompleteLine(bs[1..], rest);
      assert [ByteChar(bs[0])] + Chars(bs[1..]) == Chars(bs);
    }
  }

  /** The bytes of a newline-free line cut off by an error (or by the end of
      the reader, `atEnd`) are lost, and only what follows the error is left. */
  lemma {:induction false} DropsPartialLine(bs: seq<byte>, rest: seq<ReadResult>, atEnd: bool)
    requires Newline !in bs
    ensures atEnd ==> ReadLine(Gots(bs)) == (None, [])
    ensures !atEnd ==> ReadLine(Gots(bs) + [ReadErr] + rest) == (None, rest)
    decreases |bs|
  {
    var p := if atEnd then Gots(bs) else Gots(bs) + [ReadErr] + rest;
    if |bs| == 0 {
      if !atEnd {
        assert p == [ReadErr] + rest && p[1..] == rest;
      }
    } else {
      assert p[0] == Got(bs[0]);
      assert p[1..] == if atEnd then Gots(bs[1..]) else Gots(bs[1..]) + [ReadErr] + rest;
      assert Newline !in bs[1..];
      DropsPartialLine(bs[1..], rest, atEnd);
    }
  }

  /** A complete line is split at single spaces; joining the words with one
      space gives the line back, no word holds a space or a newline, and there
      is at least one word. */
  lemma ParsesCompleteLine(bs: seq<byte>, rest: seq<ReadResult>)
    requires Newline !in bs
    ensures var (words, eof, left) := ParseLineSpec(Gots(bs) + [Got(Newline)] + rest);
            && !eof && left == rest
            && words == Split(Chars(bs), ' ')
            && Join(words, ' ') == Chars(bs)
            && |words| >= 1
  {
    ReadsCompleteLine(bs, rest);
  }

  /** A line cut short, by an error or by the end of the reader, yields no
      words and reports eof. */
  lemma ParseDropsPartialLine(bs: seq<byte>, rest: seq<ReadResult>)
    requires Newline !in bs
    ensures ParseLineSpec(Gots(bs)) == ([], true, [])
    ensures ParseLineSpec(Gots(bs) + [ReadErr] + rest) == ([], true, rest)
  {
    DropsPartialLine(bs, rest, true);
    DropsPartialLine(bs, rest, false);
  }

  // ------------------------------------------------------------- methods

  /** An io.Reader whose Read calls return `pending` in order. */
  class Reader {
    var pending: seq<ReadResult>

    constructor (p: seq<ReadResult>)
      ensures pending == p
    {
      pending := p;
    }

    /** Read into a one-byte buffer: n, the byte if n = 1, and whether an
        error was returned. An exhausted reader reports end of file. */
    method Read() returns (n: nat, b: byte, err: bool)
      modifies this
      ensures |old(pending)| == 0 ==> err && pending == old(pending)
      ensures |old(pending)| > 0 ==> pending == old(pending)[1..]
      ensures |old(pending)| > 0 ==> match old(pending)[0]
                                      case Got(x) => n == 1 && b == x && !err
                                      case NoData => n == 0 && !err
                                      case ReadErr => err
    {
      n, b, err := 0, 0, true;
      if |pending| > 0 {
        match pending[0] {
          case Got(x) => n, b, err := 1, x, false;
          case NoData => n, err := 0, false;
          case ReadErr => err := true;
        }
        pending := pending[1..];
      }
    }
  }

  /** readChar: reads until a byte arrives or an error occurs. */
  method ReadChar(r: Reader) returns (c: byte, eof: bool)
    modifies r
    ensures (c, eof, r.pending) == NextChar(old(r.pending))
  {
    var buffer: byte := 0;
    var n := 0;
    while n == 0
      invariant n == 0 ==> NextChar(r.pending) == NextChar(old(r.pending))
      invariant n != 0 ==> (buffer, false, r.pending) == NextChar(old(r.pending))
      decreases |r.pending|
    {
      var err;
      n, buffer, err := r.Read();
      if err {
        return 0, true;
      }
    }
    c := buffer;
    eof := false;
  }

  /** parseLine: accumulates characters up to the newline, then splits. */
  method ParseLine(r: Reader) returns (words: seq<string>, eof: bool)
    modifies r
    ensures (words, eof, r.pending) == ParseLineSpec(old(r.pending))
  {
    ghost var want := ReadLine(r.pending);
    var str := "";
    var c;
    c, eof := ReadChar(r);
    if eof {
      return [], true;
    }
    assert want == Continue(c, r.pending);
    assert want.0.Some? ==> "" + want.0.value == want.0.value;
    while c != Newline
      invariant !eof
      invariant want == PrependAll(str, Continue(c, r.pending))
      decreases |r.pending|
    {
      ghost var tail := ReadLine(r.pending);
      ghost var before := str;
      var ch := ByteChar(c);
      assert want == PrependAll(before, PrependAll([ch], tail));
      str := str + [ch];
      c, eof := ReadChar(r);
      if eof {
        return [], true;
      }
      assert tail == Continue(c, r.pending);
      assert tail.0.Some? ==> before + ([ch] + tail.0.value) == str + tail.0.value;
    }
    assert str + "" == str;
    assert want == (Some(str), r.pending);
    words := Split(str, ' ');
  }
}
