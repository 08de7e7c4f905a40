/**
 * Byte strings and the `<[u8]>::split` used on the value of
 * READLINE_CUSTOM_FUNCTION_LIBS (src/lib.rs:111-113).
 */
module Bytes {

  newtype byte = x: int | 0 <= x < 256

  /** The separator of the plugin list. */
  const Colon: byte := 58

  /**
   * Cut `s` at every `sep` byte. Empty pieces are kept: the empty input gives
   * one empty piece, and two adjacent separators give an empty piece between them.
   */
  function Split(s: seq<byte>, sep: byte): (parts: seq<seq<byte>>)
    ensures |parts| >= 1
    decreases |s|
  {
    if |s| == 0 then [[]]
    else
      var rest := Split(s[1..], sep);
      if s[0] == sep then [[]] + rest
      else [[s[0]] + rest[0]] + rest[1..]
  }

  /** No piece holds a separator. */
  lemma {:induction false} SplitPiecesHaveNoSeparator(s: seq<byte>, sep: byte)
    ensures forall i :: 0 <= i < |Split(s, sep)| ==> sep !in Split(s, sep)[i]
    decreases |s|
  {
    if |s| > 0 {
      SplitPiecesHaveNoSeparator(s[1..], sep);
      var rest := Split(s[1..], sep);
      if s[0] != sep {
        assert sep !in [s[0]] + rest[0];
        assert forall i :: 1 <= i < |Split(s, sep)| ==> Split(s, sep)[i] == rest[i];
      }
    }
  }

  /** Glue the pieces back together with one `sep` between neighbours. */
  function Join(parts: seq<seq<byte>>, sep: byte): seq<byte>
    decreases |parts|
  {
    if |parts| == 0 then []
    else if |parts| == 1 then parts[0]
    else parts[0] + [sep] + Join(parts[1..], sep)
  }

  /** Number of occurrences of `b` in `s`. */
  function Count(s: seq<byte>, b: byte): nat
    decreases |s|
  {
    if |s| == 0 then 0
    else (if s[0] == b then 1 else 0) + Count(s[1..], b)
  }

  /** Splitting loses nothing: joining the pieces gives the input back. */
  lemma {:induction false} SplitJoin(s: seq<byte>, sep: byte)
    ensures Join(Split(s, sep), sep) == s
    decreases |s|
  {
    if |s| > 0 {
      var rest := Split(s[1..], sep);
      SplitJoin(s[1..], sep);
      if s[0] == sep {
        assert Join([[]] + rest, sep) == [] + [sep] + Join(rest, sep);
      } else if |rest| == 1 {
        assert Split(s, sep) == [[s[0]] + rest[0]];
      } else {
        var parts := Split(s, sep);
        assert parts[1..] == rest[1..];
        assert Join(parts, sep) == [s[0]] + rest[0] + [sep] + Join(rest[1..], sep);
        assert Join(rest, sep) == rest[0] + [sep] + Join(rest[1..], sep);
      }
    }
  }

  /** Splitting a separator-free prefix `w` followed by `t` extends the first piece of `t`. */
  lemma {:induction false} SplitPrefix(w: seq<byte>, t: seq<byte>, sep: byte)
    requires sep !in w
    ensures Split(w + t, sep) == [w + Split(t, sep)[0]] + Split(t, sep)[1..]
    decreases |w|
  {
    if |w| > 0 {
      assert (w + t)[1..] == w[1..] + t;
      SplitPrefix(w[1..], t, sep);
      assert [w[0]] + (w[1..] + Split(t, sep)[0]) == w + Split(t, sep)[0];
    } else {
      var pt := Split(t, sep);
      assert w + t == t && w + pt[0] == pt[0];
      assert [pt[0]] + pt[1..] == pt;
    }
  }

  /**
   * Splitting is the inverse of joining pieces that hold no separator: the
   * split is the only way to cut the input into separator-free pieces.
   */
  lemma {:induction false} JoinSplit(parts: seq<seq<byte>>, sep: byte)
    requires |parts| >= 1
    requires forall i :: 0 <= i < |parts| ==> sep !in parts[i]
    ensures Split(Join(parts, sep), sep) == parts
    decreases |parts|
  {
    if |parts| == 1 {
      SplitPrefix(parts[0], [], sep);
      assert parts[0] + [] == parts[0];
    } else {
      var tail := Join(parts[1..], sep);
      JoinSplit(parts[1..], sep);
      assert Split([sep] + tail, sep) == [[]] + parts[1..];
      assert Join(parts, sep) == parts[0] + ([sep] + tail);
      SplitPrefix(parts[0], [sep] + tail, sep);
      assert parts[0] + [] == parts[0];
    }
  }

  /** One piece more than there are separators: the input is cut at every separator. */
  lemma {:induction false} SplitCount(s: seq<byte>, sep: byte)
    ensures |Split(s, sep)| == Count(s, sep) + 1
    decreases |s|
  {
    if |s| > 0 {
      SplitCount(s[1..], sep);
    }
  }

  /** Joining two non-empty lists of pieces puts one separator between their joins. */
  lemma {:induction false} JoinAppend(x: seq<seq<byte>>, y: seq<seq<byte>>, sep: byte)
    requires |x| >= 1 && |y| >= 1
    ensures Join(x + y, sep) == Join(x, sep) + [sep] + Join(y, sep)
    decreases |x|
  {
    assert (x + y)[0] == x[0];
    if |x| > 1 {
      assert (x + y)[1..] == x[1..] + y;
      JoinAppend(x[1..], y, sep);
    } else {
      assert (x + y)[1..] == y;
    }
  }

  /** A separator between `a` and `b` divides the pieces of `a` from those of `b`. */
  lemma SplitAppend(a: seq<byte>, b: seq<byte>, sep: byte)
    ensures Split(a + [sep] + b, sep) == Split(a, sep) + Split(b, sep)
  {
    var pa, pb := Split(a, sep), Split(b, sep);
    SplitJoin(a, sep);
    SplitJoin(b, sep);
    JoinAppend(pa, pb, sep);
    SplitPiecesHaveNoSeparator(a, sep);
    SplitPiecesHaveNoSeparator(b, sep);
    assert forall i :: 0 <= i < |pa + pb| ==> sep !in (pa + pb)[i] by {
      forall i | 0 <= i < |pa + pb| ensures sep !in (pa + pb)[i] {
        if i < |pa| {
          assert (pa + pb)[i] == pa[i];
        } else {
          assert (pa + pb)[i] == pb[i - |pa|];
        }
      }
    }
    JoinSplit(pa + pb, sep);
  }

  /** A list of three separator-free segments splits into exactly those three. */
  lemma SplitThree(a: seq<byte>, m: seq<byte>, b: seq<byte>, sep: byte)
    requires sep !in a && sep !in m && sep !in b
    ensures Split(a + [sep] + m + [sep] + b, sep) == [a, m, b]
  {
    assert [a, m, b][1..] == [m, b] && [m, b][1..] == [b];
    assert Join([m, b], sep) == m + [sep] + b;
    assert Join([a, m, b], sep) == a + [sep] + m + [sep] + b;
    JoinSplit([a, m, b], sep);
  }

  /** Two adjacent separators produce an empty piece, which is kept. */
  lemma KeepsEmptyPiece(a: seq<byte>, b: seq<byte>, sep: byte)
    ensures Split(a + [sep, sep] + b, sep) == Split(a, sep) + [[]] + Split(b, sep)
  {
    assert a + [sep, sep] + b == a + [sep] + ([sep] + b);
    SplitAppend(a, [sep] + b, sep);
    assert [sep] + b == [] + [sep] + b;
    SplitAppend([], b, sep);
  }
}
