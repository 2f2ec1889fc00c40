/** JavaScript's `String.prototype.split("\n")` and `Array.prototype.join("\n")`,
    the two string operations the progress display is built from. */
module Text {


  const NL: char := '\n'

  /** `s.split("\n")`: the maximal newline-free pieces of `s`, in order.
      There is always at least one piece (`"".split("\n")` is `[""]`). */
  function Split(s: string): (pieces: seq<string>)
    ensures |pieces| >= 1
    ensures forall k :: 0 <= k < |pieces| ==> NL !in pieces[k]
    decreases |s|
  {
    if s == [] then [""]
    else
      var rest := Split(s[1..]);
      if s[0] == NL then [""] + rest
      else [[s[0]] + rest[0]] + rest[1..]
  }

  /** `lines.join("\n")`: the pieces separated by single newlines
      (`[].join("\n")` is `""`). */
  function Join(lines: seq<string>): string
  {
    if |lines| == 0 then ""
    else if |lines| == 1 then lines[0]
    else lines[0] + [NL] + Join(lines[1..])
  }

  /** Splitting and joining again gives back the original text. */
  lemma {:induction false} JoinSplit(s: string)
    ensures Join(Split(s)) == s
    decreases |s|
  {
    if s != [] {
      var rest := Split(s[1..]);
      JoinSplit(s[1..]);
      if s[0] == NL {
        assert Split(s) == [""] + rest;
        assert s == [NL] + s[1..];
      } else {
        assert Split(s) == [[s[0]] + rest[0]] + rest[1..];
        if |rest| == 1 {
          assert s == [s[0]] + s[1..];
        } else {
          assert Join(rest) == rest[0] + [NL] + Join(rest[1..]);
          assert ([[s[0]] + rest[0]] + rest[1..])[1..] == rest[1..];
          assert s == [s[0]] + s[1..];
        }
      }
    }
  }

  /** A text with no newline is a single piece. */
  lemma {:induction false} SplitNoNewline(s: string)
    requires NL !in s
    ensures Split(s) == [s]
    decreases |s|
  {
    if s != [] {
      assert s[0] == s[0] && NL !in s[1..] by {
        forall c | c in s[1..] ensures c in s { }
      }
      SplitNoNewline(s[1..]);
      assert s == [s[0]] + s[1..];
    }
  }

  /** A text containing a newline splits into at least two pieces. */
  lemma {:induction false} SplitNewline(s: string)
    requires NL in s
    ensures |Split(s)| >= 2
    decreases |s|
  {
    if s[0] != NL {
      assert NL in s[1..] by {
        var k :| 0 <= k < |s| && s[k] == NL;
        assert s[1..][k - 1] == NL;
      }
      SplitNewline(s[1..]);
    }
  }

  /** One piece exactly when the text has no newline. */
  lemma SplitSingleIff(s: string)
    ensures |Split(s)| == 1 <==> NL !in s
  {
  }

  /** A newline-free prefix glues onto the first piece of what follows it. */
  lemma {:induction false} SplitPrefix(a: string, t: string)
    requires NL !in a
    ensures Split(a + t) == [a + Split(t)[0]] + Split(t)[1..]
    decreases |a|
  {
    if a != [] {
      assert NL !in a[1..] by {
        forall c | c in a[1..] ensures c in a { }
      }
      SplitPrefix(a[1..], t);
      var rest := Split(a[1..] + t);
      assert (a + t)[1..] == a[1..] + t;
      assert (a + t)[0] == a[0] && a[0] != NL;
      assert Split(a + t) == [[a[0]] + rest[0]] + rest[1..];
      assert rest[0] == a[1..] + Split(t)[0] && rest[1..] == Split(t)[1..];
      assert [a[0]] + (a[1..] + Split(t)[0]) == a + Split(t)[0] by {
        assert a == [a[0]] + a[1..];
      }
    } else {
      assert a + t == t;
      assert a + Split(t)[0] == Split(t)[0];
      assert Split(t) == [Split(t)[0]] + Split(t)[1..];
    }
  }

  /** Joining newline-free pieces and splitting again gives back the pieces. */
  lemma {:induction false} SplitJoin(lines: seq<string>)
    requires |lines| >= 1
    requires forall k :: 0 <= k < |lines| ==> NL !in lines[k]
    ensures Split(Join(lines)) == lines
    decreases |lines|
  {
    if |lines| == 1 {
      SplitNoNewline(lines[0]);
    } else {
      var tail := Join(lines[1..]);
      SplitJoin(lines[1..]);
      assert Split([NL] + tail) == [""] + lines[1..] by {
        assert ([NL] + tail)[1..] == tail;
      }
      SplitPrefix(lines[0], [NL] + tail);
      assert Join(lines) == lines[0] + ([NL] + tail);
      assert lines[0] + "" == lines[0];
      assert ([""] + lines[1..])[1..] == lines[1..];
      assert lines == [lines[0]] + lines[1..];
    }
  }

  /** Text joined by a newline splits into the pieces of each side. */
  lemma {:induction false} SplitAroundNewline(a: string, b: string)
    ensures Split(a + [NL] + b) == Split(a) + Split(b)
    decreases |a|
  {
    var s := a + [NL] + b;
    if a == [] {
      assert s == [NL] + b;
      assert s[1..] == b;
    } else {
      assert s[1..] == a[1..] + [NL] + b;
      SplitAroundNewline(a[1..], b);
    }
  }
}
