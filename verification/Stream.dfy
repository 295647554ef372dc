/**
 * The provider's event stream: assembled line by line from arbitrary writes, against a plain split of the whole
 * stream.
 */
module Stream {
  import opened Wire
  import Ledger

  newtype byte = b: int | 0 <= b < 256

  const NEWLINE: byte := 10
  /** A megabyte of report and its envelope. */
  const MAX_STREAM_LINE := 0x10_0000 + 0x1_0000
  const MAX_TURNS := 100000

  datatype Event = Event(turn: bool, tool: string, final: bool)

  datatype Sample = Sample(turns: nat, tool: string)

  type Decoder = seq<byte> -> Event

  /** What a reader has learned: the counters, the report line, and every sample it published. */
  datatype Digest = Digest(turns: nat, tool: string, final: Option<seq<byte>>, samples: seq<Sample>)

  // ---------------------------------------------------------------- the stream as a whole

  /** The stream split on newlines; the last segment is the one not yet ended. */
  function Segments(s: seq<byte>): (segments: seq<seq<byte>>)
    ensures segments != []
  {
    if s == [] then [[]]
    else
      var before, b := Segments(s[..|s| - 1]), s[|s| - 1];
      if b == NEWLINE then before + [[]]
      else before[..|before| - 1] + [before[|before| - 1] + [b]]
  }

  function Last<T>(s: seq<T>): T
    requires s != []
  {
    s[|s| - 1]
  }

  function Front<T>(s: seq<T>): seq<T>
    requires s != []
  {
    s[..|s| - 1]
  }

  predicate Worthwhile(blank: seq<byte> -> bool, line: seq<byte>) {
    |line| <= MAX_STREAM_LINE && !blank(line)
  }

  /** The lines that are decoded: neither blank nor above the bound, in order. */
  function Kept(blank: seq<byte> -> bool, lines: seq<seq<byte>>): seq<seq<byte>> {
    if lines == [] then []
    else Kept(blank, Front(lines)) + (if Worthwhile(blank, Last(lines)) then [Last(lines)] else [])
  }

  function Learned(d: Digest, e: Event, line: seq<byte>): Digest {
    var tool := if Ledger.CleanTool(e.tool) != "" then Ledger.CleanTool(e.tool) else d.tool;
    var turns := if e.turn && d.turns < MAX_TURNS then d.turns + 1 else d.turns;
    Digest(turns, tool, if e.final then Some(line) else d.final,
      if e.turn || e.tool != "" then d.samples + [Sample(turns, tool)] else d.samples)
  }

  function Fed(decode: Decoder, lines: seq<seq<byte>>): Digest {
    if lines == [] then NOTHING else Learned(Fed(decode, Front(lines)), decode(Last(lines)), Last(lines))
  }

  /** The digest of a stream whose last segment has not ended, and of one that has ended there. */
  function OpenDigest(decode: Decoder, blank: seq<byte> -> bool, s: seq<byte>): Digest {
    Fed(decode, Kept(blank, Front(Segments(s))))
  }

  function ClosedDigest(decode: Decoder, blank: seq<byte> -> bool, s: seq<byte>): Digest {
    Fed(decode, Kept(blank, Segments(s)))
  }

  // ---------------------------------------------------------------- the split is a split

  function Joined(segments: seq<seq<byte>>): seq<byte>
    requires segments != []
  {
    if |segments| == 1 then segments[0] else Joined(Front(segments)) + [NEWLINE] + Last(segments)
  }

  /** Splitting loses nothing. */
  lemma {:induction false} SegmentsJoin(s: seq<byte>)
    ensures Joined(Segments(s)) == s
  {
    if s != [] {
      var before, b := Segments(Front(s)), Last(s);
      SegmentsJoin(Front(s));
      JoinedGrows(before, b);
      assert Front(s) + [b] == s;
    }
  }

  lemma JoinedGrows(before: seq<seq<byte>>, b: byte)
    requires before != []
    ensures Joined(before + [[]]) == Joined(before) + [NEWLINE]
    ensures Joined(Front(before) + [Last(before) + [b]]) == Joined(before) + [b]
  {
    assert Front(before + [[]]) == before && Last(before + [[]]) == [];
    assert Joined(before) + [NEWLINE] + [] == Joined(before) + [NEWLINE];
    var grown := Front(before) + [Last(before) + [b]];
    assert Front(grown) == Front(before) && Last(grown) == Last(before) + [b];
    if |before| > 1 {
      var head := Joined(Front(before)) + [NEWLINE];
      assert head + (Last(before) + [b]) == head + Last(before) + [b];
    }
  }

  /** And it cuts exactly at the newlines: no segment holds one. */
  lemma {:induction false} SegmentsAreLines(s: seq<byte>, k: nat)
    requires k < |Segments(s)|
    ensures NEWLINE !in Segments(s)[k]
  {
    if s != [] {
      var before := Segments(Front(s));
      if k < |before| { SegmentsAreLines(Front(s), k); }
    }
  }

  lemma SegmentsEnd(s: seq<byte>)
    ensures Segments(s + [NEWLINE]) == Segments(s) + [[]]
    ensures Front(Segments(s + [NEWLINE])) == Segments(s)
  {
    assert (s + [NEWLINE])[..|s|] == s;
  }

  lemma SegmentsStep(s: seq<byte>, front: seq<seq<byte>>, last: seq<byte>, b: byte)
    requires Segments(s) == front + [last] && b != NEWLINE
    ensures Segments(s + [b]) == front + [last + [b]]
  {
    assert (s + [b])[..|s|] == s;
    assert (front + [last])[..|front|] == front;
  }

  /** Bytes other than newlines only lengthen the last segment. */
  lemma {:induction false} SegmentsGrow(s: seq<byte>, front: seq<seq<byte>>, last: seq<byte>, chunk: seq<byte>)
    requires Segments(s) == front + [last] && NEWLINE !in chunk
    ensures Segments(s + chunk) == front + [last + chunk]
    decreases |chunk|
  {
    if chunk == [] {
      assert s + chunk == s && last + chunk == last;
    } else {
      var c, b := chunk[..|chunk| - 1], chunk[|chunk| - 1];
      SegmentsGrow(s, front, last, c);
      SegmentsStep(s + c, front, last + c, b);
      assert s + c + [b] == s + chunk;
      assert last + c + [b] == last + chunk;
    }
  }

  // ---------------------------------------------------------------- what a digest can say

  /** Turns climb one at a time to a bound; published samples never go back and hold only clean tool names. */
  lemma {:induction false} DigestBounded(decode: Decoder, lines: seq<seq<byte>>)
    ensures var d := Fed(decode, lines);
      && d.turns <= MAX_TURNS && d.turns <= |lines|
      && Ledger.CleanTool(d.tool) == d.tool
      && (forall k :: 0 <= k < |d.samples| ==>
            d.samples[k].turns <= d.turns && Ledger.CleanTool(d.samples[k].tool) == d.samples[k].tool)
      && (forall j, k :: 0 <= j < k < |d.samples| ==> d.samples[j].turns <= d.samples[k].turns)
      && (d.final.Some? ==> d.final.value in lines)
  {
    if lines != [] {
      DigestBounded(decode, Front(lines));
      assert lines == Front(lines) + [Last(lines)];
    }
  }

  predicate Climbing(rows: seq<nat>, n: nat) {
    && (forall k :: 0 <= k < |rows| ==> rows[k] < n)
    && forall j, k :: 0 <= j < k < |rows| ==> rows[j] < rows[k]
  }

  /** The kept report line is the last one that decodes to a final event. */
  lemma {:induction false} FinalIsLast(decode: Decoder, lines: seq<seq<byte>>) returns (at: Option<nat>)
    ensures at.None? ==> Fed(decode, lines).final == None && forall k :: 0 <= k < |lines| ==> !decode(lines[k]).final
    ensures at.Some? ==>
      && at.value < |lines| && decode(lines[at.value]).final && Fed(decode, lines).final == Some(lines[at.value])
      && forall k :: at.value < k < |lines| ==> !decode(lines[k]).final
  {
    at := None;
    if lines != [] {
      var n, front := |lines| - 1, Front(lines);
      at := FinalIsLast(decode, front);
      assert lines[n] == Last(lines) && forall k :: 0 <= k < n ==> lines[k] == front[k];
      if decode(lines[n]).final { at := Some(n); }
    }
  }

  /** The clean name of the tool a line uses, if any. */
  function ToolIn(decode: Decoder, line: seq<byte>): string { Ledger.CleanTool(decode(line).tool) }

  /** The tool is the last one a line named with a clean name. */
  lemma {:induction false} ToolIsLast(decode: Decoder, lines: seq<seq<byte>>) returns (at: Option<nat>)
    ensures at.None? ==>
      Fed(decode, lines).tool == "" && forall k :: 0 <= k < |lines| ==> ToolIn(decode, lines[k]) == ""
    ensures at.Some? ==>
      && at.value < |lines| && ToolIn(decode, lines[at.value]) != ""
      && Fed(decode, lines).tool == ToolIn(decode, lines[at.value])
      && forall k :: at.value < k < |lines| ==> ToolIn(decode, lines[k]) == ""
  {
    at := None;
    if lines != [] {
      var n, front := |lines| - 1, Front(lines);
      at := ToolIsLast(decode, front);
      assert lines[n] == Last(lines) && forall k :: 0 <= k < n ==> lines[k] == front[k];
      if ToolIn(decode, lines[n]) != "" { at := Some(n); }
    }
  }

  /** The turns are the lines that decode to one, up to the bound. */
  lemma {:induction false} TurnsAreCounted(decode: Decoder, lines: seq<seq<byte>>) returns (rows: seq<nat>)
    ensures Climbing(rows, |lines|) && forall k: nat :: k in rows <==> k < |lines| && decode(lines[k]).turn
    ensures Fed(decode, lines).turns == if |rows| < 100000 then |rows| else 100000
  {
    rows := [];
    if lines != [] {
      var n, front := |lines| - 1, Front(lines);
      rows := TurnsAreCounted(decode, front);
      assert lines[n] == Last(lines) && forall k :: 0 <= k < n ==> lines[k] == front[k];
      if decode(lines[n]).turn { rows := rows + [n]; }
    }
  }

  predicate Publishes(e: Event) { e.turn || e.tool != "" }

  /** What the counters say after line `row`. */
  predicate SaysAfter(decode: Decoder, lines: seq<seq<byte>>, row: nat, sample: Sample) {
    && row < |lines|
    && var d := Fed(decode, lines[..row + 1]); sample == Sample(d.turns, d.tool)
  }

  lemma SaysAfterFront(decode: Decoder, lines: seq<seq<byte>>, row: nat, sample: Sample)
    requires lines != [] && SaysAfter(decode, Front(lines), row, sample)
    ensures SaysAfter(decode, lines, row, sample)
  {
    assert lines[..row + 1] == Front(lines)[..row + 1];
  }

  lemma FedSamples(decode: Decoder, lines: seq<seq<byte>>)
    requires lines != []
    ensures var d, before := Fed(decode, lines), Fed(decode, Front(lines));
      d.samples == if Publishes(decode(Last(lines))) then before.samples + [Sample(d.turns, d.tool)] else before.samples
    ensures SaysAfter(decode, lines, |lines| - 1, Sample(Fed(decode, lines).turns, Fed(decode, lines).tool))
  {
    assert lines[..|lines|] == lines;
  }

  /** The rows among the first `n` lines that publish, and what was published for each. */
  ghost predicate Published(decode: Decoder, lines: seq<seq<byte>>, n: nat, rows: seq<nat>, samples: seq<Sample>)
    requires n <= |lines|
  {
    && Climbing(rows, n) && (forall k: nat :: k in rows <==> k < n && Publishes(decode(lines[k])))
    && |samples| == |rows| && forall j :: 0 <= j < |rows| ==> SaysAfter(decode, lines, rows[j], samples[j])
  }

  lemma PublishedFront(decode: Decoder, lines: seq<seq<byte>>, rows: seq<nat>, samples: seq<Sample>)
    requires lines != [] && Published(decode, Front(lines), |lines| - 1, rows, samples)
    ensures Published(decode, lines, |lines| - 1, rows, samples)
  {
    var n, front := |lines| - 1, Front(lines);
    assert forall k :: 0 <= k < n ==> lines[k] == front[k];
    forall j | 0 <= j < |rows| ensures SaysAfter(decode, lines, rows[j], samples[j]) {
      SaysAfterFront(decode, lines, rows[j], samples[j]);
    }
  }

  lemma PublishedNext(decode: Decoder, lines: seq<seq<byte>>, n: nat, rows: seq<nat>, samples: seq<Sample>,
                      sample: Sample)
    requires n < |lines| && Published(decode, lines, n, rows, samples) && SaysAfter(decode, lines, n, sample)
    ensures if Publishes(decode(lines[n])) then Published(decode, lines, n + 1, rows + [n], samples + [sample])
            else Published(decode, lines, n + 1, rows, samples)
  {
  }

  /** Each line with a turn or a tool publishes one sample, in order: the counters as they stood after that line. */
  lemma {:induction false} SamplesAreCounters(decode: Decoder, lines: seq<seq<byte>>) returns (rows: seq<nat>)
    ensures Published(decode, lines, |lines|, rows, Fed(decode, lines).samples)
  {
    rows := [];
    if lines != [] {
      var n, d := |lines| - 1, Fed(decode, lines);
      rows := SamplesAreCounters(decode, Front(lines));
      FedSamples(decode, lines);
      PublishedFront(decode, lines, rows, Fed(decode, Front(lines)).samples);
      PublishedNext(decode, lines, n, rows, Fed(decode, Front(lines)).samples, Sample(d.turns, d.tool));
      if Publishes(decode(lines[n])) { rows := rows + [n]; }
    }
  }

  /** The decoded lines are the worthwhile ones, each as often and in the order they came. */
  lemma {:induction false} KeptInOrder(blank: seq<byte> -> bool, lines: seq<seq<byte>>) returns (rows: seq<nat>)
    ensures Climbing(rows, |lines|) && forall k: nat :: k in rows <==> k < |lines| && Worthwhile(blank, lines[k])
    ensures |Kept(blank, lines)| == |rows| && forall j :: 0 <= j < |rows| ==> Kept(blank, lines)[j] == lines[rows[j]]
  {
    rows := [];
    if lines != [] {
      var n, front := |lines| - 1, Front(lines);
      rows := KeptInOrder(blank, front);
      assert lines[n] == Last(lines) && forall k :: 0 <= k < n ==> lines[k] == front[k];
      if Worthwhile(blank, lines[n]) { rows := rows + [n]; }
    }
  }

  /** Only kept lines are ever decoded. */
  lemma {:induction false} KeptExact(blank: seq<byte> -> bool, lines: seq<seq<byte>>)
    ensures forall line :: line in Kept(blank, lines) <==> line in lines && Worthwhile(blank, line)
  {
    if lines != [] {
      KeptExact(blank, Front(lines));
      assert lines == Front(lines) + [Last(lines)];
    }
  }

  // ---------------------------------------------------------------- the reader

  /** The pending buffer is the unended segment, unless that outgrew the bound; it never outgrows it itself. */
  predicate Assembled(pending: seq<byte>, skip: bool, segment: seq<byte>) {
    && |pending| <= MAX_STREAM_LINE
    && skip == (|segment| > MAX_STREAM_LINE)
    && pending == if skip then [] else segment
  }

  const NOTHING := Digest(0, "", None, [])

  /** What ending a line adds to a digest. */
  function AfterLine(decode: Decoder, blank: seq<byte> -> bool, line: seq<byte>, d: Digest): Digest {
    if Worthwhile(blank, line) then Learned(d, decode(line), line) else d
  }

  /** The unended segment of a stream, and what its ended lines teach. */
  ghost predicate Tracks(decode: Decoder, blank: seq<byte> -> bool, s: seq<byte>, segment: seq<byte>, d: Digest) {
    segment == Last(Segments(s)) && d == OpenDigest(decode, blank, s)
  }

  lemma TracksStart(decode: Decoder, blank: seq<byte> -> bool)
    ensures Tracks(decode, blank, [], [], NOTHING)
  {
  }

  /** More of the current line teaches nothing yet. */
  lemma TracksMore(decode: Decoder, blank: seq<byte> -> bool, s: seq<byte>, segment: seq<byte>, d: Digest,
                   chunk: seq<byte>)
    requires Tracks(decode, blank, s, segment, d) && NEWLINE !in chunk
    ensures Tracks(decode, blank, s + chunk, segment + chunk, d)
  {
    var front := Front(Segments(s));
    SegmentsGrow(s, front, segment, chunk);
    assert Front(front + [segment + chunk]) == front;
  }

  /** Ending the line teaches what the stream that ends there says. */
  lemma TracksLine(decode: Decoder, blank: seq<byte> -> bool, s: seq<byte>, segment: seq<byte>, d: Digest)
    requires Tracks(decode, blank, s, segment, d)
    ensures Tracks(decode, blank, s + [NEWLINE], [], AfterLine(decode, blank, segment, d))
    ensures AfterLine(decode, blank, segment, d) == ClosedDigest(decode, blank, s)
  {
    SegmentsEnd(s);
    var kept := Kept(blank, Front(Segments(s)));
    assert Front(kept + [segment]) == kept && Last(kept + [segment]) == segment;
    assert kept + [] == kept;
  }

  /** The counters are the digest's, and so is what was published, until the close. */
  predicate Follows(shown: Digest, closed: bool, d: Digest) {
    && shown.turns == d.turns && shown.tool == d.tool && shown.final == d.final
    && (if closed then shown.samples <= d.samples else shown.samples == d.samples)
  }

  class StreamReader {
    const decode: Decoder
    const blank: seq<byte> -> bool
    var pending: seq<byte>
    var skip: bool
    var final: Option<seq<byte>>
    var turns: nat
    var tool: string
    var published: seq<Sample>  // what the pump was offered
    var closed: bool
    ghost var seen: seq<byte>     // everything written, and a newline for the close
    ghost var segment: seq<byte>  // the part of it after the last newline
    ghost var learned: Digest     // what the ended lines teach

    ghost predicate Valid()
      reads this
    {
      && Assembled(pending, skip, segment)
      && Follows(Counters(), closed, learned)
      && Tracks(decode, blank, seen, segment, learned)
    }

    function Counters(): Digest
      reads this
    {
      Digest(turns, tool, final, published)
    }

    constructor (decode: Decoder, blank: seq<byte> -> bool)
      ensures Valid() && seen == [] && !closed && this.decode == decode && this.blank == blank
    {
      this.decode, this.blank := decode, blank;
      pending, skip, final, turns, tool, published, closed := [], false, None, 0, "", [], false;
      seen, segment, learned := [], [], NOTHING;
      TracksStart(decode, blank);
    }

    /** Append to the pending line, or drop the line for good once it is too long. */
    method Append(chunk: seq<byte>)
      requires Assembled(pending, skip, segment)
      modifies this`pending, this`skip, this`segment
      ensures Assembled(pending, skip, segment) && segment == old(segment) + chunk
    {
      segment := segment + chunk;
      if skip || |pending| + |chunk| > MAX_STREAM_LINE {
        skip, pending := true, [];
        return;
      }
      pending := pending + chunk;
    }

    method Buffer(chunk: seq<byte>)
      requires Valid() && NEWLINE !in chunk
      modifies this`pending, this`skip, this`segment, this`seen
      ensures Valid() && seen == old(seen) + chunk
    {
      TracksMore(decode, blank, seen, segment, learned, chunk);
      seen := seen + chunk;
      Append(chunk);
    }

    /** Learn from one line, and publish the sample if it changed anything. */
    method Learn(line: seq<byte>, ghost d: Digest)
      requires Follows(Counters(), closed, d)
      modifies this`final, this`tool, this`turns, this`published
      ensures Follows(Counters(), closed, Learned(d, decode(line), line))
      ensures closed ==> published == old(published)
    {
      var event := decode(line);
      if event.final { final := Some(line); }
      var name := Ledger.CleanTool(event.tool);
      if name != "" { tool := name; }
      if event.turn && turns < MAX_TURNS { turns := turns + 1; }
      if event.turn || event.tool != "" {
        if !closed { published := published + [Sample(turns, tool)]; }
      }
    }

    /** End the line: decode it unless it is blank or was dropped. */
    method EndLine()
      requires Assembled(pending, skip, segment) && Follows(Counters(), closed, learned)
      modifies this`pending, this`skip, this`segment, this`learned, this`final, this`tool, this`turns, this`published
      ensures Assembled(pending, skip, segment) && segment == []
      ensures Follows(Counters(), closed, learned) && learned == AfterLine(decode, blank, old(segment), old(learned))
      ensures closed ==> published == old(published)
    {
      ghost var ended, d := segment, learned;
      var line, skipped := pending, skip;
      pending, skip, segment := [], false, [];
      learned := AfterLine(decode, blank, ended, d);
      if skipped || blank(line) { return; }
      Learn(line, d);
    }

    method Flush()
      requires Valid()
      modifies this
      ensures Valid() && seen == old(seen) + [NEWLINE] && closed == old(closed)
      ensures closed ==> published == old(published)
      ensures learned == ClosedDigest(decode, blank, old(seen))
    {
      TracksLine(decode, blank, seen, segment, learned);
      EndLine();
      seen := seen + [NEWLINE];
    }

    method WriteLine(line: seq<byte>)
      requires Valid() && NEWLINE !in line
      modifies this
      ensures Valid() && seen == old(seen) + line + [NEWLINE] && closed == old(closed)
      ensures closed ==> published == old(published)
    {
      Buffer(line);
      Flush();
    }

    /** Whatever the bytes and however they are cut, the state is a function of all that was written. */
    method Write(data: seq<byte>)
      requires Valid()
      modifies this
      ensures Valid() && seen == old(seen) + data && closed == old(closed)
      ensures closed ==> published == old(published)
    {
      var rest := data;
      while |rest| > 0
        invariant Valid() && seen + rest == old(seen) + data && closed == old(closed)
        invariant closed ==> published == old(published)
        decreases |rest|
      {
        var newline := IndexOfNewline(rest);
        if newline.None? {
          Buffer(rest);
          return;
        }
        var n := newline.value;
        CutAndRejoin(seen, rest, n);
        WriteLine(rest[..n]);
        rest := rest[n + 1..];
      }
    }

    /** The first close ends the last line and stops publishing; any other changes nothing. */
    method Close()
      requires Valid()
      modifies this
      ensures Valid() && closed
      ensures old(closed) ==> unchanged(this)
      ensures !old(closed) ==> seen == old(seen) + [NEWLINE] && Counters() == ClosedDigest(decode, blank, old(seen))
    {
      if closed { return; }
      Flush();
      closed := true;
    }
  }

  function Flat(chunks: seq<seq<byte>>): seq<byte> {
    if chunks == [] then [] else Flat(Front(chunks)) + Last(chunks)
  }

  /** Chunking invariance: any cut of a stream into writes, then a close, teaches exactly what the whole stream says. */
  method ReadAll(decode: Decoder, blank: seq<byte> -> bool, chunks: seq<seq<byte>>) returns (r: StreamReader)
    ensures fresh(r) && r.Valid() && r.closed && r.decode == decode && r.blank == blank
    ensures r.Counters() == ClosedDigest(decode, blank, Flat(chunks))
  {
    r := new StreamReader(decode, blank);
    for i := 0 to |chunks|
      invariant fresh(r) && r.Valid() && !r.closed && r.decode == decode && r.blank == blank
      invariant r.seen == Flat(chunks[..i])
    {
      r.Write(chunks[i]);
      assert Front(chunks[..i + 1]) == chunks[..i];
    }
    assert chunks[..|chunks|] == chunks;
    r.Close();
  }

  lemma CutAndRejoin(before: seq<byte>, rest: seq<byte>, n: nat)
    requires n < |rest| && rest[n] == NEWLINE
    ensures before + rest[..n] + [NEWLINE] + rest[n + 1..] == before + rest
  {
    assert rest[..n] + [NEWLINE] + rest[n + 1..] == rest;
  }

  method IndexOfNewline(s: seq<byte>) returns (at: Option<nat>)
    ensures at.None? ==> NEWLINE !in s
    ensures at.Some? ==> at.value < |s| && s[at.value] == NEWLINE && NEWLINE !in s[..at.value]
  {
    for i := 0 to |s|
      invariant NEWLINE !in s[..i]
    {
      if s[i] == NEWLINE { return Some(i); }
    }
    return None;
  }
}
