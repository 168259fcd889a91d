/** Python's `str.split` on a one-character separator and `str.join`, the two
    string operations the resume renderer builds its lines with. */
module Strings {

  /** `s.split(sep)`: the pieces between separators, in order, keeping the
      empty pieces before a leading, after a trailing and between adjacent
      separators; the empty string splits into one empty piece. */
  function Split(s: string, sep: char): (pieces: seq<string>)
    ensures |pieces| >= 1
  {
    if s == [] then [[]]
    else
      var rest := Split(s[1..], sep);
      if s[0] == sep then [[]] + rest
      else [[s[0]] + rest[0]] + rest[1..]
  }

  /** `sep.join(parts)`: the parts in order with `sep` between neighbours. */
  function Join(parts: seq<string>, sep: string): string
  {
    if parts == [] then []
    else if |parts| == 1 then parts[0]
    else parts[0] + sep + Join(parts[1..], sep)
  }

  /** Number of occurrences of `c` in `s`. */
  function Count(s: string, c: char): nat
  {
    if s == [] then 0 else (if s[0] == c then 1 else 0) + Count(s[1..], c)
  }

  /** Index in `Join(parts, sep)` at which part `i` begins. */
  function Offset(parts: seq<string>, sep: string, i: nat): nat
    requires i <= |parts|
  {
    if i == 0 then 0 else |parts[0]| + |sep| + Offset(parts[1..], sep, i - 1)
  }

  /** Splitting yields one piece more than there are separators. */
  lemma {:induction false} SplitCount(s: string, sep: char)
    ensures |Split(s, sep)| == Count(s, sep) + 1
  {
    if s != [] {
      SplitCount(s[1..], sep);
    }
  }

  /** No piece of a split contains the separator. */
  lemma {:induction false} SplitPiecesExcludeSeparator(s: string, sep: char)
    ensures forall i :: 0 <= i < |Split(s, sep)| ==> sep !in Split(s, sep)[i]
  {
    if s != [] {
      SplitPiecesExcludeSeparator(s[1..], sep);
      var rest := Split(s[1..], sep);
      if s[0] != sep {
        assert sep !in [s[0]] + rest[0];
      }
    }
  }

  /** Joining the pieces of a split with the separator gives the string back. */
  lemma {:induction false} JoinSplit(s: string, sep: char)
    ensures Join(Split(s, sep), [sep]) == s
  {
    if s != [] {
      JoinSplit(s[1..], sep);
      var rest := Split(s[1..], sep);
      if s[0] == sep {
        assert ([[]] + rest)[1..] == rest;
      } else if |rest| > 1 {
        var pieces := [[s[0]] + rest[0]] + rest[1..];
        assert pieces[1..] == rest[1..];
        calc {
          Join(pieces, [sep]);
          ([s[0]] + rest[0]) + [sep] + Join(rest[1..], [sep]);
          [s[0]] + (rest[0] + [sep] + Join(rest[1..], [sep]));
          [s[0]] + Join(rest, [sep]);
          [s[0]] + s[1..];
          s;
        }
      }
    }
  }

  /** Splitting a word free of the separator, followed by more text, glues
      the word onto the first piece of the text. */
  lemma {:induction false} SplitWord(w: string, t: string, sep: char)
    requires sep !in w
    ensures Split(w + t, sep) == [w + Split(t, sep)[0]] + Split(t, sep)[1..]
  {
    if w != [] {
      SplitWord(w[1..], t, sep);
      assert (w + t)[1..] == w[1..] + t;
      assert [w[0]] + (w[1..] + Split(t, sep)[0]) == w + Split(t, sep)[0];
    } else {
      assert w + t == t;
      assert w + Split(t, sep)[0] == Split(t, sep)[0];
      assert Split(t, sep) == [Split(t, sep)[0]] + Split(t, sep)[1..];
    }
  }

  /** Splitting the join of separator-free parts gives the parts back: the
      converse of JoinSplit. */
  lemma {:induction false} SplitJoin(parts: seq<string>, sep: char)
    requires |parts| >= 1
    requires forall i :: 0 <= i < |parts| ==> sep !in parts[i]
    ensures Split(Join(parts, [sep]), sep) == parts
  {
    if |parts| == 1 {
      SplitWord(parts[0], [], sep);
      assert parts[0] + [] == parts[0];
    } else {
      var rest := parts[1..];
      SplitJoin(rest, sep);
      var t := [sep] + Join(rest, [sep]);
      assert Join(parts, [sep]) == parts[0] + t;
      SplitWord(parts[0], t, sep);
      assert Split(t, sep) == [[]] + rest;
      assert parts[0] + [] == parts[0];
      assert parts == [parts[0]] + rest;
    }
  }

  /** `(A + B)[|A| + a .. |A| + b]` is `B[a..b]`. */
  lemma SliceAfterPrefix(front: string, back: string, a: nat, b: nat)
    requires a <= b <= |back|
    ensures (front + back)[|front| + a .. |front| + b] == back[a..b]
  {
  }

  /** Where every part sits in a join: part `i` occupies
      `[Offset(i), Offset(i) + |parts[i]|)`. */
  lemma {:induction false} JoinPartAt(parts: seq<string>, sep: string, i: nat)
    requires i < |parts|
    ensures Offset(parts, sep, i) + |parts[i]| <= |Join(parts, sep)|
    ensures Join(parts, sep)[Offset(parts, sep, i) .. Offset(parts, sep, i) + |parts[i]|] == parts[i]
  {
    var whole := Join(parts, sep);
    if |parts| == 1 {
      assert whole[0..|parts[0]|] == parts[0];
    } else {
      var front := parts[0] + sep;
      var tail := Join(parts[1..], sep);
      assert whole == front + tail;
      if i == 0 {
        assert whole[0..|parts[0]|] == parts[0];
      } else {
        JoinPartAt(parts[1..], sep, i - 1);
        var o := Offset(parts[1..], sep, i - 1);
        assert parts[1..][i - 1] == parts[i];
        SliceAfterPrefix(front, tail, o, o + |parts[i]|);
      }
    }
  }

  /** Where every separator sits in a join: each part but the last is
      followed by `sep` and then by the next part, and the string ends right
      after the last part. */
  lemma {:induction false} JoinSeparatorAt(parts: seq<string>, sep: string, i: nat)
    requires i < |parts|
    ensures i + 1 < |parts| ==>
      && Offset(parts, sep, i + 1) == Offset(parts, sep, i) + |parts[i]| + |sep|
      && Offset(parts, sep, i + 1) <= |Join(parts, sep)|
      && Join(parts, sep)[Offset(parts, sep, i) + |parts[i]| .. Offset(parts, sep, i + 1)] == sep
    ensures i + 1 == |parts| ==> Offset(parts, sep, i) + |parts[i]| == |Join(parts, sep)|
  {
    if |parts| > 1 {
      var whole := Join(parts, sep);
      var front := parts[0] + sep;
      var tail := Join(parts[1..], sep);
      assert whole == front + tail;
      if i == 0 {
        assert whole[|parts[0]|..|front|] == sep;
        JoinPartAt(parts[1..], sep, 0);
      } else {
        JoinSeparatorAt(parts[1..], sep, i - 1);
        assert parts[1..][i - 1] == parts[i];
        if i + 1 < |parts| {
          var o := Offset(parts[1..], sep, i - 1);
          SliceAfterPrefix(front, tail, o + |parts[i]|, Offset(parts[1..], sep, i));
        }
      }
    }
  }
}
