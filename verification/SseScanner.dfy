/**
 The incremental scan of a server-sent event stream for its `[DONE]` sentinel line.
 */
module SseScanner {
  import opened Common

  type Byte = x: int | 0 <= x < 256

  const CR: Byte := 13
  const LF: Byte := 10
  const SPACE: Byte := 32
  /** The bytes of `data:`. */
  const DATA: seq<Byte> := [100, 97, 116, 97, 58]
  /** The bytes of `[DONE]`. */
  const DONE: seq<Byte> := [91, 68, 79, 78, 69, 93]

  const LINE_LIMIT := 32

  predicate IsBreak(b: Byte) { b == CR || b == LF }

  predicate StartsWith(s: seq<Byte>, prefix: seq<Byte>) { |prefix| <= |s| && s[..|prefix|] == prefix }

  /** Splitting at every CR and every LF; always at least one part. */
  function Split(s: seq<Byte>): (parts: seq<seq<Byte>>)
    ensures parts != []
  {
    if s == [] then [[]]
    else
      var rest := Split(s[1..]);
      if IsBreak(s[0]) then [[]] + rest else [[s[0]] + rest[0]] + rest[1..]
  }

  // ---- The scanner ----

  datatype Scanner = Scanner(done: bool, line: seq<Byte>, long: bool)

  const FRESH := Scanner(false, [], false)

  predicate LineHits(line: seq<Byte>) {
    StartsWith(line, DATA) &&
    var value := line[|DATA|..];
    StartsWith(if StartsWith(value, [SPACE]) then value[1..] else value, DONE)
  }

  function Append(st: Scanner, part: seq<Byte>): Scanner {
    if st.long then st
    else if |st.line| + |part| <= LINE_LIMIT then st.(line := st.line + part)
    else st.(line := [], long := true)
  }

  function EndLine(st: Scanner): Scanner {
    Scanner(st.done || (!st.long && LineHits(st.line)), [], false)
  }

  function ObserveParts(st: Scanner, parts: seq<seq<Byte>>): Scanner
    requires parts != []
    decreases |parts|
  {
    if |parts| == 1 then Append(st, parts[0]) else ObserveParts(EndLine(Append(st, parts[0])), parts[1..])
  }

  function Observe(st: Scanner, chunk: seq<Byte>): Scanner {
    if st.done then st else ObserveParts(st, Split(chunk))
  }

  function ObserveAll(st: Scanner, chunks: seq<seq<Byte>>): Scanner
    decreases |chunks|
  {
    if chunks == [] then st else ObserveAll(Observe(st, chunks[0]), chunks[1..])
  }

  class StreamActivity {
    var sawDone: bool
    var line: seq<Byte>
    var lineLong: bool

    ghost function State(): Scanner
      reads this
    {
      Scanner(sawDone, line, lineLong)
    }

    constructor ()
      ensures State() == FRESH
    {
      sawDone, line, lineLong := false, [], false;
    }

    method ObserveBytes(chunk: seq<Byte>)
      modifies this
      ensures State() == Observe(old(State()), chunk)
      ensures |old(line)| <= LINE_LIMIT ==> |line| <= LINE_LIMIT
    {
      if sawDone {
        return;
      }
      var parts := Split(chunk);
      var i := 0;
      while i < |parts| - 1
        invariant 0 <= i <= |parts| - 1
        invariant ObserveParts(State(), parts[i..]) == ObserveParts(old(State()), parts)
        invariant |old(line)| <= LINE_LIMIT ==> |line| <= LINE_LIMIT
      {
        assert parts[i..][0] == parts[i] && parts[i..][1..] == parts[i + 1..];
        AppendLine(parts[i]);
        CheckLine();
        line, lineLong := [], false;
        i := i + 1;
      }
      assert parts[i..] == [parts[|parts| - 1]];
      AppendLine(parts[|parts| - 1]);
    }

    method FinishBytes()
      modifies this
      ensures State() == Scanner(old(sawDone) || EndLine(old(State())).done, [], false)
    {
      if !sawDone {
        CheckLine();
      }
      line, lineLong := [], false;
    }

    method CheckLine()
      modifies this
      ensures State() == old(State()).(done := EndLine(old(State())).done)
    {
      if lineLong || !StartsWith(line, DATA) {
        return;
      }
      var value := line[|DATA|..];
      if StartsWith(value, [SPACE]) {
        value := value[1..];
      }
      if StartsWith(value, DONE) {
        sawDone := true;
      }
    }

    method AppendLine(part: seq<Byte>)
      modifies this
      ensures State() == Append(old(State()), part)
    {
      if !lineLong {
        if |line| + |part| <= LINE_LIMIT {
          line := line + part;
        } else {
          line, lineLong := [], true;
        }
      }
    }
  }

  // ---- What the stream says ----

  /** A sentinel line: `data:`, at most one space, `[DONE]`, and no longer than the limit. */
  ghost predicate Sentinel(line: seq<Byte>) {
    |line| <= LINE_LIMIT && exists rest :: line == DATA + DONE + rest || line == DATA + [SPACE] + DONE + rest
  }

  lemma StartsWithIff(s: seq<Byte>, prefix: seq<Byte>)
    ensures StartsWith(s, prefix) <==> exists rest :: s == prefix + rest
  {
    if StartsWith(s, prefix) {
      assert s == prefix + s[|prefix|..];
    }
  }

  ghost predicate AnySentinel(lines: seq<seq<Byte>>) {
    exists i :: 0 <= i < |lines| && Sentinel(lines[i])
  }

  lemma PrefixSplit(s: seq<Byte>, a: seq<Byte>, b: seq<Byte>)
    ensures StartsWith(s, a + b) <==> StartsWith(s, a) && StartsWith(s[|a|..], b)
  {
    if StartsWith(s, a + b) {
      assert s[..|a|] == (a + b)[..|a|] == a;
      assert s[|a|..][..|b|] == s[..|a + b|][|a|..] == b;
    }
    if StartsWith(s, a) && StartsWith(s[|a|..], b) {
      assert s[..|a + b|] == s[..|a|] + s[|a|..][..|b|];
    }
  }

  lemma FirstByte(s: seq<Byte>, prefix: seq<Byte>)
    requires prefix != []
    ensures StartsWith(s, prefix) ==> s != [] && s[0] == prefix[0]
  {
    assert StartsWith(s, prefix) ==> s[..|prefix|][0] == s[0];
  }

  lemma HitsAreSentinels(line: seq<Byte>)
    requires |line| <= LINE_LIMIT
    ensures LineHits(line) <==> Sentinel(line)
  {
    StartsWithIff(line, DATA + DONE);
    StartsWithIff(line, DATA + [SPACE] + DONE);
    PrefixSplit(line, DATA, DONE);
    Reassociate(DATA, [SPACE], DONE);
    PrefixSplit(line, DATA, [SPACE] + DONE);
    if StartsWith(line, DATA) {
      var value := line[|DATA|..];
      PrefixSplit(value, [SPACE], DONE);
      FirstByte(value, [SPACE]);
      FirstByte(value, DONE);
    }
  }

  lemma AnyAppend(a: seq<seq<Byte>>, b: seq<seq<Byte>>)
    ensures AnySentinel(a + b) <==> AnySentinel(a) || AnySentinel(b)
  {
    var all := a + b;
    if AnySentinel(a) {
      var i :| 0 <= i < |a| && Sentinel(a[i]);
      assert all[i] == a[i];
    }
    if AnySentinel(b) {
      var i :| 0 <= i < |b| && Sentinel(b[i]);
      assert all[|a| + i] == b[i];
    }
    if AnySentinel(all) {
      var i :| 0 <= i < |all| && Sentinel(all[i]);
      assert i < |a| || all[i] == b[i - |a|];
    }
  }

  function Complete(parts: seq<seq<Byte>>): seq<seq<Byte>>
    requires parts != []
  {
    parts[..|parts| - 1]
  }

  function Last(parts: seq<seq<Byte>>): seq<Byte>
    requires parts != []
  {
    parts[|parts| - 1]
  }

  /** The line under construction, as the scanner holds it. */
  predicate Holds(st: Scanner, line: seq<Byte>) {
    if |line| <= LINE_LIMIT then st.line == line && !st.long else st.line == [] && st.long
  }

  /** What the scanner knows after the lines `complete` and the open line `tail`. */
  ghost predicate Knows(st: Scanner, complete: seq<seq<Byte>>, tail: seq<Byte>) {
    (st.done <==> AnySentinel(complete)) && Holds(st, tail)
  }

  lemma AppendHolds(st: Scanner, tail: seq<Byte>, part: seq<Byte>)
    requires Holds(st, tail)
    ensures Holds(Append(st, part), tail + part) && Append(st, part).done == st.done
  {}

  lemma EndLineKnows(st: Scanner, complete: seq<seq<Byte>>, tail: seq<Byte>)
    requires Knows(st, complete, tail)
    ensures Knows(EndLine(st), complete + [tail], [])
  {
    AnyAppend(complete, [tail]);
    assert AnySentinel([tail]) <==> Sentinel(tail) by {
      assert [tail][0] == tail;
    }
    if |tail| <= LINE_LIMIT {
      HitsAreSentinels(tail);
    }
  }

  lemma {:induction false} PartsKnown(st: Scanner, complete: seq<seq<Byte>>, tail: seq<Byte>, parts: seq<seq<Byte>>)
    requires parts != [] && Knows(st, complete, tail)
    ensures var all := complete + [tail + parts[0]] + parts[1..];
            Knows(ObserveParts(st, parts), Complete(all), Last(all))
    decreases |parts|
  {
    var all := complete + [tail + parts[0]] + parts[1..];
    AppendHolds(st, tail, parts[0]);
    if |parts| == 1 {
      assert Complete(all) == complete && Last(all) == tail + parts[0];
    } else {
      var next := EndLine(Append(st, parts[0]));
      EndLineKnows(Append(st, parts[0]), complete, tail + parts[0]);
      PartsKnown(next, complete + [tail + parts[0]], [], parts[1..]);
      assert [] + parts[1] == parts[1];
      assert parts[1..][1..] == parts[2..];
      assert all == complete + [tail + parts[0]] + [parts[1]] + parts[2..];
    }
  }

  /** Splitting a stream in two splits its lines at one point. */
  lemma {:induction false} SplitConcat(a: seq<Byte>, b: seq<Byte>)
    ensures Split(a + b) == Complete(Split(a)) + [Last(Split(a)) + Split(b)[0]] + Split(b)[1..]
    decreases |a|
  {
    if a == [] {
      assert a + b == b && Complete(Split(a)) == [] && Last(Split(a)) == [];
      assert [] + Split(b)[0] == Split(b)[0];
    } else {
      assert (a + b)[1..] == a[1..] + b && (a + b)[0] == a[0];
      SplitConcat(a[1..], b);
      SplitConcatStep(a[0], Split(a[1..]), Split(b));
    }
  }

  lemma SplitConcatStep(x: Byte, pa: seq<seq<Byte>>, pb: seq<seq<Byte>>)
    requires pa != [] && pb != []
    ensures var whole := Complete(pa) + [Last(pa) + pb[0]] + pb[1..];
            var broken := [[]] + pa;
            [[]] + whole == Complete(broken) + [Last(broken) + pb[0]] + pb[1..]
    ensures var whole := Complete(pa) + [Last(pa) + pb[0]] + pb[1..];
            var grown := [[x] + pa[0]] + pa[1..];
            [[x] + whole[0]] + whole[1..] == Complete(grown) + [Last(grown) + pb[0]] + pb[1..]
  {
    var whole := Complete(pa) + [Last(pa) + pb[0]] + pb[1..];
    var broken := [[]] + pa;
    assert Complete(broken) == [[]] + Complete(pa) && Last(broken) == Last(pa);
    var grown := [[x] + pa[0]] + pa[1..];
    if |pa| == 1 {
      assert whole[0] == pa[0] + pb[0] && whole[1..] == pb[1..];
      assert Last(grown) == [x] + pa[0] && Complete(grown) == [];
      Reassociate([x], pa[0], pb[0]);
    } else {
      assert whole[0] == pa[0] && whole[1..] == Complete(pa)[1..] + [Last(pa) + pb[0]] + pb[1..];
      assert Last(grown) == Last(pa) && Complete(grown) == [[x] + pa[0]] + Complete(pa)[1..];
    }
  }

  /** The scanner against the stream read so far; once it has seen the sentinel it stops. */
  ghost predicate Tracks(st: Scanner, seen: seq<Byte>) {
    var parts := Split(seen);
    && |st.line| <= LINE_LIMIT
    && (st.done ==> AnySentinel(Complete(parts)))
    && (!st.done ==> Knows(st, Complete(parts), Last(parts)))
  }

  lemma ObserveTracks(st: Scanner, seen: seq<Byte>, chunk: seq<Byte>)
    requires Tracks(st, seen)
    ensures Tracks(Observe(st, chunk), seen + chunk)
  {
    var before, parts, after := Split(seen), Split(chunk), Split(seen + chunk);
    SplitConcat(seen, chunk);
    assert after == Complete(before) + [Last(before) + parts[0]] + parts[1..];
    if st.done {
      var added := [Last(before) + parts[0]] + parts[1..];
      assert after == Complete(before) + added;
      assert Complete(after) == Complete(before) + added[..|added| - 1];
      AnyAppend(Complete(before), added[..|added| - 1]);
    } else {
      PartsKnown(st, Complete(before), Last(before), parts);
    }
  }

  lemma {:induction false} ObserveAllTracks(st: Scanner, seen: seq<Byte>, chunks: seq<seq<Byte>>)
    requires Tracks(st, seen)
    ensures Tracks(ObserveAll(st, chunks), seen + Flatten(chunks))
    decreases |chunks|
  {
    if chunks == [] {
      assert seen + Flatten(chunks) == seen;
    } else {
      ObserveTracks(st, seen, chunks[0]);
      ObserveAllTracks(Observe(st, chunks[0]), seen + chunks[0], chunks[1..]);
      Reassociate(seen, chunks[0], Flatten(chunks[1..]));
    }
  }

  /**
   For every byte stream and every way it is cut into chunks: the scan ends with the
   sentinel seen exactly when some line is one, and never holds more than the limit.
   */
  lemma VerdictIgnoresChunking(chunks: seq<seq<Byte>>)
    ensures var st := ObserveAll(FRESH, chunks);
            && |st.line| <= LINE_LIMIT
            && (st.done || EndLine(st).done <==> AnySentinel(Split(Flatten(chunks))))
  {
    assert Tracks(FRESH, []) by {
      assert Complete(Split([])) == [] && Last(Split([])) == [];
    }
    ObserveAllTracks(FRESH, [], chunks);
    assert [] + Flatten(chunks) == Flatten(chunks);
    var st, parts := ObserveAll(FRESH, chunks), Split(Flatten(chunks));
    assert parts == Complete(parts) + [Last(parts)];
    AnyAppend(Complete(parts), [Last(parts)]);
    if !st.done {
      EndLineKnows(st, Complete(parts), Last(parts));
    }
  }

  // ---- Line breaks as the HTML standard defines them ----

  /** CRLF, LF or a lone CR ends a line (section 9.2.5 of the WHATWG HTML Standard). */
  function StandardLines(s: seq<Byte>): (lines: seq<seq<Byte>>)
    ensures lines != []
  {
    if s == [] then [[]]
    else if |s| >= 2 && s[0] == CR && s[1] == LF then [[]] + StandardLines(s[2..])
    else
      var rest := StandardLines(s[1..]);
      if IsBreak(s[0]) then [[]] + rest else [[s[0]] + rest[0]] + rest[1..]
  }

  lemma BlankLine(lines: seq<seq<Byte>>)
    ensures AnySentinel([[]] + lines) <==> AnySentinel(lines)
  {
    var blank: seq<seq<Byte>> := [[]];
    AnyAppend(blank, lines);
    assert !Sentinel([]);
    assert !AnySentinel(blank);
  }

  ghost predicate SameVerdict(a: seq<seq<Byte>>, b: seq<seq<Byte>>) {
    a != [] && b != [] && a[0] == b[0] && (AnySentinel(a[1..]) <==> AnySentinel(b[1..]))
  }

  lemma SameAny(a: seq<seq<Byte>>, b: seq<seq<Byte>>)
    requires SameVerdict(a, b)
    ensures AnySentinel(a) <==> AnySentinel(b)
  {
    assert a == [a[0]] + a[1..] && b == [b[0]] + b[1..];
    AnyAppend([a[0]], a[1..]);
    AnyAppend([b[0]], b[1..]);
  }

  /** Splitting CRLF at both bytes adds blank lines only. */
  lemma {:induction false} SplitAgreesWithStandard(s: seq<Byte>)
    ensures SameVerdict(Split(s), StandardLines(s))
    decreases |s|
  {
    if s != [] {
      if |s| >= 2 && s[0] == CR && s[1] == LF {
        SplitAgreesWithStandard(s[2..]);
        SameAny(Split(s[2..]), StandardLines(s[2..]));
        assert s[1..][1..] == s[2..];
        assert Split(s[1..]) == [[]] + Split(s[2..]);
        BlankLine(Split(s[2..]));
        assert ([[]] + Split(s[1..]))[1..] == Split(s[1..]);
        assert ([[]] + StandardLines(s[2..]))[1..] == StandardLines(s[2..]);
      } else {
        SplitAgreesWithStandard(s[1..]);
        SameAny(Split(s[1..]), StandardLines(s[1..]));
        var a, b := Split(s[1..]), StandardLines(s[1..]);
        assert ([[]] + a)[1..] == a && ([[]] + b)[1..] == b;
        assert ([[s[0]] + a[0]] + a[1..])[1..] == a[1..] && ([[s[0]] + b[0]] + b[1..])[1..] == b[1..];
      }
    }
  }

  lemma VerdictFollowsStandard(chunks: seq<seq<Byte>>)
    ensures var st := ObserveAll(FRESH, chunks);
            st.done || EndLine(st).done <==> AnySentinel(StandardLines(Flatten(chunks)))
  {
    VerdictIgnoresChunking(chunks);
    SplitAgreesWithStandard(Flatten(chunks));
    SameAny(Split(Flatten(chunks)), StandardLines(Flatten(chunks)));
  }
}
