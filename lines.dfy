/** How the teleprompter turns its text into displayed paragraphs: the text is
    split on "\n" (JavaScript `String.prototype.split` with a one-character
    separator), and every empty line is shown as a non-breaking space. */
module Lines {

  const Newline: char := '\n'
  const NoBreakSpace: string := "\U{00A0}"

  /** The number of newline characters in `s`. */
  function NewlineCount(s: string): nat {
    if s == [] then 0 else (if s[0] == Newline then 1 else 0) + NewlineCount(s[1..])
  }

  /** `s.split("\n")`: the maximal newline-free pieces of `s`, in order. There is
      always one more piece than there are newlines, so "" splits into [""]. */
  function Split(s: string): (r: seq<string>)
    ensures |r| == NewlineCount(s) + 1
    ensures forall i :: 0 <= i < |r| ==> Newline !in r[i]
  {
    if s == [] then [[]]
    else
      var rest := Split(s[1..]);
      if s[0] == Newline then [[]] + rest
      else [[s[0]] + rest[0]] + rest[1..]
  }

  predicate NoNewlines(lines: seq<string>) {
    forall i :: 0 <= i < |lines| ==> Newline !in lines[i]
  }

  /** Newlines of a concatenation are those of its parts. */
  lemma {:induction false} NewlineCountAppend(a: string, b: string)
    ensures NewlineCount(a + b) == NewlineCount(a) + NewlineCount(b)
  {
    if a == [] {
      assert a + b == b;
    } else {
      assert (a + b)[0] == a[0] && (a + b)[1..] == a[1..] + b;
      NewlineCountAppend(a[1..], b);
    }
  }

  /** A string without a newline character has no newlines to count. */
  lemma {:induction false} NewlineFreeCount(a: string)
    ensures Newline !in a ==> NewlineCount(a) == 0
  {
    if a != [] && Newline !in a {
      assert Newline !in a[1..] by {
        forall c | c in a[1..] ensures c != Newline {
          assert c in a;
        }
      }
      NewlineFreeCount(a[1..]);
    }
  }

  /** `lines.join("\n")`; the empty sequence joins to "". The first line comes first,
      and newline-free lines give exactly one newline between each pair. */
  function Join(lines: seq<string>): (r: string)
    ensures |lines| >= 1 ==> lines[0] <= r
    ensures |lines| >= 1 && NoNewlines(lines) ==> NewlineCount(r) == |lines| - 1
  {
    if |lines| == 0 then []
    else
      NewlineFreeCount(lines[0]);
      if |lines| == 1 then lines[0]
      else
        var tail := Join(lines[1..]);
        NewlineCountAppend(lines[0] + [Newline], tail);
        NewlineCountAppend(lines[0], [Newline]);
        assert NoNewlines(lines) ==> NoNewlines(lines[1..]);
        lines[0] + [Newline] + tail
  }

  /** What one paragraph shows: the line, or a non-breaking space when it is empty. */
  function DisplayLine(line: string): (r: string)
    ensures r != []
    ensures line != [] ==> r == line
  {
    if line == [] then NoBreakSpace else line
  }

  /** The paragraphs of the stage: one per line of the text, none of them empty,
      each the line itself unless the line is empty. */
  function Render(text: string): (r: seq<string>)
    ensures |r| == NewlineCount(text) + 1
    ensures forall i :: 0 <= i < |r| ==> r[i] != []
    ensures forall i :: 0 <= i < |r| ==> r[i] == Split(text)[i] || (Split(text)[i] == [] && r[i] == NoBreakSpace)
  {
    var lines := Split(text);
    seq(|lines|, i requires 0 <= i < |lines| => DisplayLine(lines[i]))
  }

  /** Splitting a newline-free prefix glued to `b` extends the first piece of `b`. */
  lemma {:induction false} SplitNewlineFreePrefix(a: string, b: string)
    requires Newline !in a
    ensures Split(a + b) == [a + Split(b)[0]] + Split(b)[1..]
  {
    if a == [] {
      assert a + b == b && a + Split(b)[0] == Split(b)[0];
    } else {
      assert (a + b)[0] == a[0] && (a + b)[1..] == a[1..] + b;
      SplitNewlineFreePrefix(a[1..], b);
      var rest := Split(a[1..] + b);
      assert Split(a + b) == [[a[0]] + rest[0]] + rest[1..];
      assert rest[0] == a[1..] + Split(b)[0] && rest[1..] == Split(b)[1..];
      assert [a[0]] + (a[1..] + Split(b)[0]) == a + Split(b)[0];
    }
  }

  /** Joining the pieces of a split gives back the text. */
  lemma {:induction false} JoinSplit(s: string)
    ensures Join(Split(s)) == s
  {
    if s != [] {
      var rest := Split(s[1..]);
      JoinSplit(s[1..]);
      if s[0] == Newline {
        assert Split(s) == [[]] + rest;
        assert Split(s)[1..] == rest;
      } else {
        assert Split(s) == [[s[0]] + rest[0]] + rest[1..];
        if |rest| > 1 {
          assert Split(s)[1..] == rest[1..];
          assert Join(rest) == rest[0] + [Newline] + Join(rest[1..]);
        }
      }
    }
  }

  /** Splitting the join of one or more newline-free lines gives back those lines;
      in particular their number is preserved. */
  lemma {:induction false} SplitJoin(lines: seq<string>)
    requires |lines| >= 1 && NoNewlines(lines)
    ensures Split(Join(lines)) == lines
  {
    if |lines| == 1 {
      SplitNewlineFreePrefix(lines[0], []);
      assert lines[0] + [] == lines[0];
    } else {
      var tail := lines[1..];
      assert NoNewlines(tail) by {
        forall i | 0 <= i < |tail| ensures Newline !in tail[i] {
          assert tail[i] == lines[i + 1];
        }
      }
      SplitJoin(tail);
      assert Newline !in lines[0];
      var b := [Newline] + Join(tail);
      assert Join(lines) == lines[0] + b;
      SplitNewlineFreePrefix(lines[0], b);
      assert b[1..] == Join(tail);
      assert Split(b) == [[]] + tail;
      assert lines[0] + [] == lines[0];
      assert [lines[0]] + tail == lines;
    }
  }

  /** No line count survives the empty join: `[].join("\n").split("\n")` is [""]. */
  lemma EmptyJoinSplitsToOneLine()
    ensures Split(Join([])) == [[]]
  {
  }

  /** The number a string of decimal digits denotes. */
  function DecimalValue(s: string): nat
    requires forall i :: 0 <= i < |s| ==> '0' <= s[i] <= '9'
    decreases |s|
  {
    if s == [] then 0
    else
      10 * DecimalValue(s[..|s| - 1]) + (s[|s| - 1] - '0') as nat
  }

  /** The decimal digits of `n`, as `String(n)` writes them: they denote `n`, and
      there is no leading zero. */
  function NatToString(n: nat): (r: string)
    ensures |r| >= 1
    ensures forall i :: 0 <= i < |r| ==> '0' <= r[i] <= '9'
    ensures DecimalValue(r) == n
    ensures |r| > 1 ==> r[0] != '0'
  {
    var d := ['0' + (n % 10) as char];
    if n < 10 then d
    else
      var r := NatToString(n / 10) + d;
      assert r[..|r| - 1] == NatToString(n / 10);
      r
  }

  /** `s.repeat(n)`. */
  function Repeat(s: string, n: nat): (r: string)
    ensures |r| == |s| * n
    ensures forall c :: c in r ==> c in s
  {
    if n == 0 then [] else s + Repeat(s, n - 1)
  }

  /** `s.repeat(n)` is `n` copies of `s`, one after another: character `j` of copy
      `k` is character `j` of `s`. */
  lemma {:induction false} RepeatAt(s: string, n: nat, k: nat, j: nat)
    requires k < n && j < |s|
    ensures k * |s| + j < |Repeat(s, n)| && Repeat(s, n)[k * |s| + j] == s[j]
  {
    if k > 0 {
      RepeatAt(s, n - 1, k - 1, j);
      assert k * |s| + j == |s| + ((k - 1) * |s| + j);
    }
  }

  /** The sample of the runtime self-test: the lines "L1" ... "Ln". */
  function Sample(n: nat): (r: seq<string>)
    ensures |r| == n && NoNewlines(r)
    ensures forall i :: 0 <= i < n ==> |r[i]| >= 2 && r[i][0] == 'L'
    // after the "L" come the decimal digits of i + 1
    ensures forall i :: 0 <= i < n ==> r[i][1..] == NatToString(i + 1)
  {
    seq(n, (i: nat) => "L" + NatToString(i + 1))
  }

  /** The runtime self-test's assertion, for any number of sample lines (the
      page checks n = 3): the split of the join has n lines. */
  lemma SampleLineCount(n: nat)
    requires n >= 1
    ensures |Split(Join(Sample(n)))| == n
  {
    var lines := Sample(n);
    forall i | 0 <= i < n ensures Newline !in lines[i] {
      assert lines[i] == "L" + NatToString(i + 1);
    }
    SplitJoin(lines);
  }

  lemma SelfTestSample()
    ensures |Split(Join(Sample(3)))| == 3
  {
  }

  /** The line `i` (from 0) of the page's initial script. */
  function InitialLine(i: nat): (r: string)
    ensures Newline !in r
    ensures |r| == 8 * (|NatToString(i + 1)| + 18)
  {
    var unit := "Baris contoh ke-" + NatToString(i + 1) + ". ";
    assert Newline !in unit;
    Repeat(unit, 8)
  }

  /** The page's initial script: 80 sample lines joined with "\n", so 79 newlines. */
  function InitialText(): (r: string)
    ensures NewlineCount(r) == 79
  {
    var lines := seq(80, i requires 0 <= i => InitialLine(i));
    assert NoNewlines(lines);
    Join(lines)
  }

  /** The initial script shows exactly its 80 lines, in order. */
  lemma InitialTextLines()
    ensures Split(InitialText()) == seq(80, i requires 0 <= i => InitialLine(i))
    ensures |Render(InitialText())| == 80
  {
    var lines := seq(80, i requires 0 <= i => InitialLine(i));
    forall i | 0 <= i < 80 ensures Newline !in lines[i] {
      var unit := "Baris contoh ke-" + NatToString(i + 1) + ". ";
      assert Newline !in unit;
      assert lines[i] == Repeat(unit, 8);
    }
    SplitJoin(lines);
  }
}
