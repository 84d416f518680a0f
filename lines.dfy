/** JavaScript's `str.split('\n')` and `lines.join('\n')`, and how they undo each other. */
module Lines {

  /** `s.split('\n')`: the newline-free pieces between the newlines of `s`, always at least one. */
  function Split(s: string): (lines: seq<string>)
    ensures |lines| >= 1
    ensures forall i :: 0 <= i < |lines| ==> '\n' !in lines[i]
    ensures |lines| == 1 + NewlineCount(s)
  {
    if s == [] then [[]]
    else
      var rest := Split(s[1..]);
      if s[0] == '\n' then [[]] + rest
      else [[s[0]] + rest[0]] + rest[1..]
  }

  /** The number of newline characters in `s`. */
  function NewlineCount(s: string): nat
  {
    if s == [] then 0 else (if s[0] == '\n' then 1 else 0) + NewlineCount(s[1..])
  }

  /** `lines.join('\n')`. */
  function Join(lines: seq<string>): (s: string)
    ensures |lines| >= 1 ==> |s| == TotalLength(lines) + |lines| - 1
  {
    if |lines| == 0 then ""
    else if |lines| == 1 then lines[0]
    else lines[0] + "\n" + Join(lines[1..])
  }

  /** The sum of the lengths of `lines`. */
  function TotalLength(lines: seq<string>): nat
  {
    if lines == [] then 0 else |lines[0]| + TotalLength(lines[1..])
  }

  /** Joining the pieces of a split gives the string back. */
  lemma {:induction false} JoinSplit(s: string)
    ensures Join(Split(s)) == s
  {
    if s != [] {
      var rest := Split(s[1..]);
      JoinSplit(s[1..]);
      assert s == [s[0]] + s[1..];
      if s[0] == '\n' {
        assert ([[]] + rest)[1..] == rest;
      } else if |rest| > 1 {
        var lines := [[s[0]] + rest[0]] + rest[1..];
        assert lines[1..] == rest[1..];
        assert Join(rest) == rest[0] + "\n" + Join(rest[1..]);
      }
    }
  }

  /** Splitting a string that starts with a newline-free prefix `a` extends the first piece by `a`. */
  lemma {:induction false} SplitPrefix(a: string, t: string)
    requires '\n' !in a
    ensures Split(a + t) == [a + Split(t)[0]] + Split(t)[1..]
  {
    if a != [] {
      assert (a + t)[1..] == a[1..] + t;
      assert (a + t)[0] == a[0];
      SplitPrefix(a[1..], t);
      assert [a[0]] + (a[1..] + Split(t)[0]) == a + Split(t)[0];
    } else {
      var pieces := Split(t);
      assert a + t == t;
      assert pieces == [pieces[0]] + pieces[1..];
      assert a + pieces[0] == pieces[0];
    }
  }

  /** Splitting the join of newline-free lines gives the lines back. */
  lemma {:induction false} SplitJoin(lines: seq<string>)
    requires |lines| >= 1
    requires forall i :: 0 <= i < |lines| ==> '\n' !in lines[i]
    ensures Split(Join(lines)) == lines
  {
    var a := lines[0];
    if |lines| == 1 {
      SplitPrefix(a, []);
      assert a + [] == a;
    } else {
      var rest := lines[1..];
      var tail := Join(rest);
      SplitJoin(rest);
      var t := "\n" + tail;
      assert Split(t) == [[]] + Split(tail) by {
        assert t[0] == '\n' && t[1..] == tail;
      }
      SplitPrefix(a, t);
      assert Join(lines) == a + t;
      calc {
        Split(Join(lines));
        Split(a + t);
        [a + Split(t)[0]] + Split(t)[1..];
        { assert a + [] == a; }
        [a] + rest;
        lines;
      }
    }
  }

  /** The last piece of a split is empty exactly when the string is empty or ends in a newline. */
  lemma {:induction false} LastPieceEmpty(s: string)
    ensures var lines := Split(s);
            lines[|lines| - 1] == [] <==> s == [] || s[|s| - 1] == '\n'
  {
    if s != [] {
      LastPieceEmpty(s[1..]);
    }
  }
}
