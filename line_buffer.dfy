/** The client's incremental line splitting: `buffer += piece; lines = buffer.split("\n");
    buffer = lines.pop() || ""` (src/hooks/use-execution.ts, src/components/arena.tsx). */
module LineBuffer {
  import opened Util

  /** `s.split("\n")`: always at least one part; the last part is what follows the
      final newline. */
  function Split(s: string): (r: seq<string>)
    ensures |r| >= 1
    ensures forall i :: 0 <= i < |r| ==> '\n' !in r[i]
  {
    if s == "" then [""]
    else if s[0] == '\n' then [""] + Split(s[1..])
    else
      var rest := Split(s[1..]);
      [[s[0]] + rest[0]] + rest[1..]
  }

  /** The complete lines handed out by one split: every part but the last. */
  function Lines(s: string): seq<string> {
    var parts := Split(s);
    parts[..|parts| - 1]
  }

  /** The part kept in the buffer: the last one (`lines.pop() || ""`). */
  function Rest(s: string): string {
    var parts := Split(s);
    parts[|parts| - 1]
  }

  /** Each line followed by the newline that ended it. */
  function Terminated(lines: seq<string>): string {
    if |lines| == 0 then "" else lines[0] + "\n" + Terminated(lines[1..])
  }

  predicate NoNewline(s: string) {
    '\n' !in s
  }

  predicate AllNoNewline(lines: seq<string>) {
    forall i :: 0 <= i < |lines| ==> NoNewline(lines[i])
  }

  lemma {:induction false} TerminatedAppend(a: seq<string>, b: seq<string>)
    ensures Terminated(a + b) == Terminated(a) + Terminated(b)
  {
    if |a| == 0 {
      assert a + b == b;
    } else {
      assert (a + b)[1..] == a[1..] + b;
      TerminatedAppend(a[1..], b);
    }
  }

  lemma {:induction false} SplitNoNewline(s: string)
    requires NoNewline(s)
    ensures Split(s) == [s]
  {
    if s != "" {
      assert s == [s[0]] + s[1..];
      SplitNoNewline(s[1..]);
    }
  }

  /** A newline-free prefix followed by a newline is split off as the first part. */
  lemma {:induction false} SplitLine(l: string, t: string)
    requires NoNewline(l)
    ensures Split(l + "\n" + t) == [l] + Split(t)
  {
    if l == "" {
      assert l + "\n" + t == "\n" + t;
      assert ("\n" + t)[1..] == t;
    } else {
      var s := l + "\n" + t;
      assert s[0] == l[0];
      assert s[1..] == l[1..] + "\n" + t;
      assert l == [l[0]] + l[1..];
      SplitLine(l[1..], t);
    }
  }

  /** The only way to write `s` as newline-terminated newline-free lines followed by a
      newline-free rest is the one `Lines` and `Rest` give. */
  lemma {:induction false} LinesUnique(s: string, lines: seq<string>, rest: string)
    requires AllNoNewline(lines) && NoNewline(rest)
    requires Terminated(lines) + rest == s
    ensures Lines(s) == lines && Rest(s) == rest
    decreases |lines|
  {
    if |lines| == 0 {
      assert s == rest;
      SplitNoNewline(s);
    } else {
      var t := Terminated(lines[1..]) + rest;
      assert s == lines[0] + "\n" + t;
      SplitLine(lines[0], t);
      assert AllNoNewline(lines[1..]) by {
        forall i | 0 <= i < |lines[1..]| ensures NoNewline(lines[1..][i]) {
          assert lines[1..][i] == lines[i + 1];
        }
      }
      LinesUnique(t, lines[1..], rest);
      assert Split(s) == [lines[0]] + Split(t);
      assert lines == [lines[0]] + lines[1..];
    }
  }

  /** The parts of a split put back together with the separator. */
  function Glue(parts: seq<string>): string
    requires |parts| >= 1
  {
    if |parts| == 1 then parts[0] else parts[0] + "\n" + Glue(parts[1..])
  }

  lemma {:induction false} GlueSplit(s: string)
    ensures Glue(Split(s)) == s
  {
    if s == "" {
    } else if s[0] == '\n' {
      GlueSplit(s[1..]);
      assert ([""] + Split(s[1..]))[1..] == Split(s[1..]);
      assert s == "\n" + s[1..];
    } else {
      GlueSplit(s[1..]);
      var rest := Split(s[1..]);
      var parts := [[s[0]] + rest[0]] + rest[1..];
      assert parts[1..] == rest[1..];
      if |rest| > 1 {
        assert Glue(rest) == rest[0] + "\n" + Glue(rest[1..]);
        assert Glue(parts) == ([s[0]] + rest[0]) + "\n" + Glue(rest[1..]);
      }
      assert s == [s[0]] + s[1..];
    }
  }

  lemma {:induction false} GlueIsTerminated(parts: seq<string>)
    requires |parts| >= 1
    ensures Glue(parts) == Terminated(parts[..|parts| - 1]) + parts[|parts| - 1]
  {
    if |parts| > 1 {
      GlueIsTerminated(parts[1..]);
      assert parts[1..][..|parts[1..]| - 1] == parts[..|parts| - 1][1..];
    }
  }

  /** The buffer invariant of one split: the lines, each with its newline, followed by
      the kept rest give back the whole input, and neither lines nor rest contain a newline. */
  lemma LinesRestDecompose(s: string)
    ensures Terminated(Lines(s)) + Rest(s) == s
    ensures AllNoNewline(Lines(s)) && NoNewline(Rest(s))
  {
    GlueSplit(s);
    GlueIsTerminated(Split(s));
  }

  /** Splitting after appending a piece: the lines of the longer input are the lines
      already handed out followed by the lines of the kept rest plus the piece. */
  lemma LinesAppend(s: string, p: string)
    ensures Lines(s + p) == Lines(s) + Lines(Rest(s) + p)
    ensures Rest(s + p) == Rest(Rest(s) + p)
  {
    LinesRestDecompose(s);
    LinesRestDecompose(Rest(s) + p);
    var lines := Lines(s) + Lines(Rest(s) + p);
    TerminatedAppend(Lines(s), Lines(Rest(s) + p));
    assert AllNoNewline(lines) by {
      forall i | 0 <= i < |lines| ensures NoNewline(lines[i]) {
        if i >= |Lines(s)| { assert lines[i] == Lines(Rest(s) + p)[i - |Lines(s)|]; }
      }
    }
    calc {
      Terminated(lines) + Rest(Rest(s) + p);
      Terminated(Lines(s)) + (Terminated(Lines(Rest(s) + p)) + Rest(Rest(s) + p));
      Terminated(Lines(s)) + Rest(s) + p;
      s + p;
    }
    LinesUnique(s + p, lines, Rest(Rest(s) + p));
  }

  /** The client's read loop on the line level: starting from buffer `b`, each piece is
      appended, the complete lines are handed out, and the rest is kept. Returns the lines
      handed out and the final buffer. */
  function FeedAll(b: string, pieces: seq<string>): (seq<string>, string)
    decreases |pieces|
  {
    if |pieces| == 0 then ([], b)
    else
      var s := b + pieces[0];
      var next := FeedAll(Rest(s), pieces[1..]);
      (Lines(s) + next.0, next.1)
  }

  /** However the input is cut into pieces, the lines handed out and the final buffer are
      those of one split of the whole input (the buffer never holds a newline). */
  lemma {:induction false} FeedAllIsSplit(b: string, pieces: seq<string>)
    requires NoNewline(b)
    ensures FeedAll(b, pieces) == (Lines(b + Concat(pieces)), Rest(b + Concat(pieces)))
    decreases |pieces|
  {
    if |pieces| == 0 {
      assert b + Concat(pieces) == b;
      SplitNoNewline(b);
    } else {
      var s := b + pieces[0];
      LinesRestDecompose(s);
      FeedAllIsSplit(Rest(s), pieces[1..]);
      LinesAppend(s, Concat(pieces[1..]));
      assert b + Concat(pieces) == s + Concat(pieces[1..]);
    }
  }

  /** Re-chunking the same input hands out the same lines and keeps the same buffer. */
  lemma RechunkingInvariant(pieces1: seq<string>, pieces2: seq<string>)
    requires Concat(pieces1) == Concat(pieces2)
    ensures FeedAll("", pieces1) == FeedAll("", pieces2)
  {
    FeedAllIsSplit("", pieces1);
    FeedAllIsSplit("", pieces2);
  }
}
