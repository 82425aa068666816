/** The segmented write-ahead log: its writer, its recovery loop, and what survives a torn write. */
module WriteAheadLogs {
  import opened Types
  import opened Bytes
  import opened Crc32
  import opened WalRecords
  import opened WalFrames

  // ----- the codec of record bodies -----

  /** Writing a record's body as JSON text and reading it back. */
  datatype Codec = Codec(write: WalRecord -> seq<byte>, read: (byte, seq<byte>) -> WalRecord)

  function Kind(rec: WalRecord): byte
  {
    match rec
    case LogRec(_) => 1
    case HardRec(_, _) => 2
    case SnapRec(_, _, _) => 3
  }

  /** The ninth byte of a frame is 1 for a log entry, 2 for a hard state and 3 for a snapshot; other kinds are skipped. */
  lemma KindsOnDisk(codec: Codec, rec: WalRecord, f: Frame)
    requires f.kind != 1 && f.kind != 2 && f.kind != 3
    ensures FrameBytes(ToFrame(codec, rec))[8] == (if rec.LogRec? then 1 else if rec.HardRec? then 2 else 3)
    ensures Meaning(codec, f) == [] && Meaning(codec, ToFrame(codec, rec)) == [codec.read(Kind(rec), codec.write(rec))]
  {
  }

  ghost predicate Lossless(codec: Codec)
  {
    forall rec :: codec.read(Kind(rec), codec.write(rec)) == rec && |codec.write(rec)| < TWO_32
  }

  function ToFrame(codec: Codec, rec: WalRecord): Frame
  {
    Frame(Kind(rec), codec.write(rec))
  }

  /** The records a frame stands for: none if its kind is not one of the three. */
  function Meaning(codec: Codec, f: Frame): seq<WalRecord>
  {
    if f.kind == 1 || f.kind == 2 || f.kind == 3 then [codec.read(f.kind, f.payload)] else []
  }

  function Meanings(codec: Codec, fs: seq<Frame>): seq<WalRecord>
  {
    if fs == [] then [] else Meaning(codec, fs[0]) + Meanings(codec, fs[1..])
  }

  function ToFrames(codec: Codec, recs: seq<WalRecord>): (fs: seq<Frame>)
    ensures |fs| == |recs|
    ensures forall k :: 0 <= k < |recs| ==> fs[k] == ToFrame(codec, recs[k])
  {
    seq(|recs|, k requires 0 <= k < |recs| => ToFrame(codec, recs[k]))
  }

  lemma {:induction false} MeaningsOfFrames(codec: Codec, recs: seq<WalRecord>, n: nat)
    requires Lossless(codec) && n <= |recs|
    ensures Meanings(codec, ToFrames(codec, recs)[..n]) == recs[..n]
    decreases n
  {
    if n > 0 {
      var fs := ToFrames(codec, recs)[..n];
      assert fs[0] == ToFrame(codec, recs[0]);
      assert fs[1..] == ToFrames(codec, recs[1..])[..n - 1];
      MeaningsOfFrames(codec, recs[1..], n - 1);
      assert recs[..n] == [recs[0]] + recs[1..][..n - 1];
    }
  }

  // ----- segments -----

  function Parts(codec: Codec, recs: seq<WalRecord>): (parts: seq<seq<byte>>)
    ensures |parts| == |recs|
    ensures forall k :: 0 <= k < |recs| ==> parts[k] == FrameBytes(ToFrame(codec, recs[k]))
  {
    seq(|recs|, k requires 0 <= k < |recs| => FrameBytes(ToFrame(codec, recs[k])))
  }

  function Segment(codec: Codec, recs: seq<WalRecord>): seq<byte>
  {
    Flat(Parts(codec, recs))
  }

  function ReadSegment(codec: Codec, s: seq<byte>): seq<WalRecord>
  {
    Meanings(codec, ParseAll(s))
  }

  function ReadSegments(codec: Codec, segments: seq<seq<byte>>): seq<WalRecord>
  {
    if segments == [] then []
    else ReadSegments(codec, segments[..|segments| - 1]) + ReadSegment(codec, segments[|segments| - 1])
  }

  function Segments(codec: Codec, groups: seq<seq<WalRecord>>): (segments: seq<seq<byte>>)
    ensures |segments| == |groups|
    ensures forall k :: 0 <= k < |groups| ==> segments[k] == Segment(codec, groups[k])
  {
    seq(|groups|, k requires 0 <= k < |groups| => Segment(codec, groups[k]))
  }

  function Joined(groups: seq<seq<WalRecord>>): seq<WalRecord>
  {
    if groups == [] then [] else Joined(groups[..|groups| - 1]) + groups[|groups| - 1]
  }

  lemma PartsEncode(codec: Codec, recs: seq<WalRecord>)
    requires Lossless(codec)
    ensures EncodesAll(Parts(codec, recs), ToFrames(codec, recs))
  {
    forall k | 0 <= k < |recs| ensures Encodes(Parts(codec, recs)[k], ToFrames(codec, recs)[k]) {
      assert codec.read(Kind(recs[k]), codec.write(recs[k])) == recs[k];
      FrameEncodes(ToFrame(codec, recs[k]));
    }
  }

  /** The number of records of the segment that lie wholly before byte position `c`. */
  function WholeRecords(codec: Codec, recs: seq<WalRecord>, c: nat): (k: nat)
    requires c <= |Segment(codec, recs)|
    ensures k <= |recs| && (c == |Segment(codec, recs)| ==> k == |recs|)
  {
    WholeParts(Parts(codec, recs), c)
  }

  lemma TornSegment(codec: Codec, recs: seq<WalRecord>, c: nat)
    requires Lossless(codec) && c <= |Segment(codec, recs)|
    ensures ReadSegment(codec, Segment(codec, recs)[..c]) == recs[..WholeRecords(codec, recs, c)]
  {
    PartsEncode(codec, recs);
    CutSegment(Parts(codec, recs), ToFrames(codec, recs), c);
    MeaningsOfFrames(codec, recs, WholeRecords(codec, recs, c));
  }

  lemma WholeSegment(codec: Codec, recs: seq<WalRecord>)
    requires Lossless(codec)
    ensures ReadSegment(codec, Segment(codec, recs)) == recs
  {
    var s := Segment(codec, recs);
    TornSegment(codec, recs, |s|);
    assert s[..|s|] == s && recs[..|recs|] == recs;
  }

  lemma {:induction false} WholeSegments(codec: Codec, groups: seq<seq<WalRecord>>)
    requires Lossless(codec)
    ensures ReadSegments(codec, Segments(codec, groups)) == Joined(groups)
  {
    if groups != [] {
      var n := |groups| - 1;
      assert Segments(codec, groups)[..n] == Segments(codec, groups[..n]);
      WholeSegments(codec, groups[..n]);
      WholeSegment(codec, groups[n]);
    }
  }

  /**
   Torn writes: with the last segment cut at any byte position, recovery reads exactly the records
   wholly before the cut, in write order across the segments.
   */
  lemma TornRecovery(codec: Codec, groups: seq<seq<WalRecord>>, last: seq<WalRecord>, c: nat)
    requires Lossless(codec) && c <= |Segment(codec, last)|
    ensures ReadSegments(codec, Segments(codec, groups) + [Segment(codec, last)[..c]])
         == Joined(groups) + last[..WholeRecords(codec, last, c)]
  {
    var torn := Segment(codec, last)[..c];
    assert (Segments(codec, groups) + [torn])[..|groups|] == Segments(codec, groups);
    WholeSegments(codec, groups);
    TornSegment(codec, last, c);
  }

  // ----- reopening after a cut -----

  lemma {:induction false} FlatFirst(parts: seq<seq<byte>>, k: nat)
    requires k <= |parts|
    ensures Flat(parts[..k]) <= Flat(parts)
  {
    if k > 0 {
      assert parts[..k][1..] == parts[1..][..k - 1];
      FlatFirst(parts[1..], k - 1);
    }
  }

  lemma PartsPrefix(codec: Codec, recs: seq<WalRecord>, k: nat)
    requires k <= |recs|
    ensures Parts(codec, recs[..k]) == Parts(codec, recs)[..k]
  {
  }

  lemma SegmentPrefix(codec: Codec, recs: seq<WalRecord>, k: nat)
    requires k <= |recs|
    ensures Segment(codec, recs[..k]) <= Segment(codec, recs)
  {
    PartsPrefix(codec, recs, k);
    FlatFirst(Parts(codec, recs), k);
  }

  /** The cut falls between two records. */
  ghost predicate AtBoundary(codec: Codec, recs: seq<WalRecord>, c: nat)
    requires c <= |Segment(codec, recs)|
  {
    c == |Segment(codec, recs[..WholeRecords(codec, recs, c)])|
  }

  lemma CutAtBoundary(codec: Codec, recs: seq<WalRecord>, c: nat)
    requires c <= |Segment(codec, recs)| && AtBoundary(codec, recs, c)
    ensures Segment(codec, recs)[..c] == Segment(codec, recs[..WholeRecords(codec, recs, c)])
  {
    SegmentPrefix(codec, recs, WholeRecords(codec, recs, c));
  }

  /** A cut segment is again a segment of whole records if and only if the cut falls between two records. */
  lemma WholeIffAtBoundary(codec: Codec, recs: seq<WalRecord>, c: nat)
    requires Lossless(codec) && c <= |Segment(codec, recs)|
    ensures (exists rs :: Segment(codec, rs) == Segment(codec, recs)[..c]) <==> AtBoundary(codec, recs, c)
  {
    if AtBoundary(codec, recs, c) {
      CutAtBoundary(codec, recs, c);
    }
    forall rs | Segment(codec, rs) == Segment(codec, recs)[..c] ensures AtBoundary(codec, recs, c) {
      TornSegment(codec, recs, c);
      WholeSegment(codec, rs);
    }
  }

  lemma {:induction false} FlatAppend(a: seq<seq<byte>>, b: seq<seq<byte>>)
    ensures Flat(a + b) == Flat(a) + Flat(b)
    decreases |a|
  {
    if a == [] {
      assert a + b == b;
    } else {
      assert (a + b)[1..] == a[1..] + b;
      FlatAppend(a[1..], b);
    }
  }

  lemma SegmentAppend(codec: Codec, a: seq<WalRecord>, b: seq<WalRecord>)
    ensures Segment(codec, a + b) == Segment(codec, a) + Segment(codec, b)
  {
    assert Parts(codec, a + b) == Parts(codec, a) + Parts(codec, b);
    FlatAppend(Parts(codec, a), Parts(codec, b));
  }

  lemma SegmentsSnoc(codec: Codec, groups: seq<seq<WalRecord>>, recs: seq<WalRecord>)
    ensures Segments(codec, groups + [recs]) == Segments(codec, groups) + [Segment(codec, recs)]
    ensures Joined(groups + [recs]) == Joined(groups) + recs
  {
    assert (groups + [recs])[..|groups|] == groups;
  }

  lemma ReadGroups(codec: Codec, groups: seq<seq<WalRecord>>, recs: seq<WalRecord>, last: seq<byte>)
    requires Lossless(codec) && last == Segment(codec, recs)
    ensures ReadSegments(codec, Segments(codec, groups) + [last]) == Joined(groups) + recs
  {
    SegmentsSnoc(codec, groups, recs);
    WholeSegments(codec, groups + [recs]);
  }

  /**
   Reopening over a last segment cut between two records loses nothing more: whatever is appended is
   recovered right behind the records before the cut.
   */
  lemma ReopenAtBoundary(codec: Codec, groups: seq<seq<WalRecord>>, last: seq<WalRecord>, c: nat, more: seq<WalRecord>)
    requires Lossless(codec) && c <= |Segment(codec, last)| && AtBoundary(codec, last, c)
    ensures var kept := last[..WholeRecords(codec, last, c)];
            && Segments(codec, groups) + [Segment(codec, last)[..c]] == Segments(codec, groups + [kept])
            && ReadSegments(codec, Segments(codec, groups) + [Segment(codec, last)[..c] + Segment(codec, more)])
               == Joined(groups) + kept + more
  {
    var kept := last[..WholeRecords(codec, last, c)];
    CutAtBoundary(codec, last, c);
    SegmentsSnoc(codec, groups, kept);
    ReadOver(codec, groups, kept, more, Segment(codec, last)[..c]);
  }

  lemma ReadOver(codec: Codec, groups: seq<seq<WalRecord>>, kept: seq<WalRecord>, more: seq<WalRecord>, cut: seq<byte>)
    requires Lossless(codec) && cut == Segment(codec, kept)
    ensures ReadSegments(codec, Segments(codec, groups) + [cut + Segment(codec, more)]) == Joined(groups) + kept + more
  {
    SegmentAppend(codec, kept, more);
    ReadGroups(codec, groups, kept + more, cut + Segment(codec, more));
    Regroup(Joined(groups), kept, more);
  }

  lemma Regroup(a: seq<WalRecord>, b: seq<WalRecord>, c: seq<WalRecord>)
    ensures a + (b + c) == a + b + c
  {
  }

  /** The bytes behind the last whole record before the cut. */
  function TornTail(codec: Codec, recs: seq<WalRecord>, c: nat): seq<byte>
    requires c <= |Segment(codec, recs)| && |Segment(codec, recs[..WholeRecords(codec, recs, c)])| <= c
  {
    Segment(codec, recs)[|Segment(codec, recs[..WholeRecords(codec, recs, c)])|..c]
  }

  lemma {:induction false} StreamIsFlat(codec: Codec, recs: seq<WalRecord>)
    ensures Stream(ToFrames(codec, recs)) == Segment(codec, recs)
  {
    if recs != [] {
      assert ToFrames(codec, recs)[1..] == ToFrames(codec, recs[1..]);
      assert Parts(codec, recs)[1..] == Parts(codec, recs[1..]);
      StreamIsFlat(codec, recs[1..]);
    }
  }

  lemma WrittenAreSmall(codec: Codec, recs: seq<WalRecord>)
    requires Lossless(codec)
    ensures AllSmall(ToFrames(codec, recs))
  {
    forall k | 0 <= k < |recs| ensures Small(ToFrames(codec, recs)[k]) {
      assert codec.read(Kind(recs[k]), codec.write(recs[k])) == recs[k];
    }
  }

  lemma CutIsKeptAndTail(codec: Codec, recs: seq<WalRecord>, c: nat)
    requires c <= |Segment(codec, recs)|
    ensures var kept := recs[..WholeRecords(codec, recs, c)];
            |Segment(codec, kept)| <= c && Segment(codec, recs)[..c] == Segment(codec, kept) + TornTail(codec, recs, c)
  {
    var k := WholeRecords(codec, recs, c);
    PartsPrefix(codec, recs, k);
    SegmentPrefix(codec, recs, k);
    SplitPrefix(Segment(codec, recs[..k]), Segment(codec, recs), c);
  }

  lemma SplitPrefix(a: seq<byte>, x: seq<byte>, c: nat)
    requires a <= x && |a| <= c <= |x|
    ensures x[..c] == a + x[|a|..c]
  {
  }

  lemma ReadsRecordsIff(codec: Codec, kept: seq<WalRecord>, more: seq<WalRecord>, x: seq<byte>)
    requires Lossless(codec)
    ensures ToFrames(codec, kept + more) <= ParseAll(x) <==> Segment(codec, kept) + Segment(codec, more) <= x
  {
    WrittenAreSmall(codec, kept + more);
    ReadsIff(ToFrames(codec, kept + more), x);
    StreamIsFlat(codec, kept + more);
    SegmentAppend(codec, kept, more);
  }

  lemma ShiftedIff(a: seq<byte>, t: seq<byte>, b: seq<byte>, x: seq<byte>)
    requires x == (a + t) + b
    ensures a + b <= x <==> b <= t + b
  {
    assert x == a + (t + b);
    PrefixSplit(a, b, x);
    assert x[|a|..] == t + b;
  }

  /**
   For a cut anywhere: what is appended is read back as written right behind the records before the cut
   if and only if its bytes, shifted by the torn tail, still begin with themselves. Between two records
   the tail is empty and they do.
   */
  lemma AppendedReadIff(codec: Codec, last: seq<WalRecord>, c: nat, more: seq<WalRecord>)
    requires Lossless(codec) && c <= |Segment(codec, last)|
    ensures var kept := last[..WholeRecords(codec, last, c)];
            && |Segment(codec, kept)| <= c
            && (ToFrames(codec, kept + more) <= ParseAll(Segment(codec, last)[..c] + Segment(codec, more))
                <==> Segment(codec, more) <= TornTail(codec, last, c) + Segment(codec, more))
  {
    var kept := last[..WholeRecords(codec, last, c)];
    CutIsKeptAndTail(codec, last, c);
    ReadsRecordsIff(codec, kept, more, Segment(codec, last)[..c] + Segment(codec, more));
    ShiftedIff(Segment(codec, kept), TornTail(codec, last, c), Segment(codec, more),
               Segment(codec, last)[..c] + Segment(codec, more));
  }

  // ----- appending to the last segment -----

  function Grown(segments: seq<seq<byte>>, more: seq<byte>): seq<seq<byte>>
    requires segments != []
  {
    segments[|segments| - 1 := segments[|segments| - 1] + more]
  }

  function Recorded(groups: seq<seq<WalRecord>>, rec: WalRecord): (groups': seq<seq<WalRecord>>)
    requires groups != []
    ensures |groups'| == |groups|
  {
    groups[|groups| - 1 := groups[|groups| - 1] + [rec]]
  }

  lemma {:induction false} FlatSnoc(parts: seq<seq<byte>>, part: seq<byte>)
    ensures Flat(parts + [part]) == Flat(parts) + part
  {
    if parts == [] {
      assert [part][1..] == [];
    } else {
      assert (parts + [part])[1..] == parts[1..] + [part];
      FlatSnoc(parts[1..], part);
    }
  }

  lemma SegmentSnoc(codec: Codec, recs: seq<WalRecord>, rec: WalRecord)
    ensures Segment(codec, recs + [rec]) == Segment(codec, recs) + FrameBytes(ToFrame(codec, rec))
  {
    assert Parts(codec, recs + [rec]) == Parts(codec, recs) + [FrameBytes(ToFrame(codec, rec))];
    FlatSnoc(Parts(codec, recs), FrameBytes(ToFrame(codec, rec)));
  }

  lemma RecordedSegments(codec: Codec, groups: seq<seq<WalRecord>>, rec: WalRecord, segments: seq<seq<byte>>)
    requires groups != [] && segments == Segments(codec, groups)
    ensures Grown(segments, FrameBytes(ToFrame(codec, rec))) == Segments(codec, Recorded(groups, rec))
    ensures Joined(Recorded(groups, rec)) == Joined(groups) + [rec]
  {
    SegmentSnoc(codec, groups[|groups| - 1], rec);
    RecordedJoined(groups, rec);
  }

  lemma RecordedJoined(groups: seq<seq<WalRecord>>, rec: WalRecord)
    requires groups != []
    ensures Joined(Recorded(groups, rec)) == Joined(groups) + [rec]
  {
    var n := |groups| - 1;
    assert Recorded(groups, rec)[..n] == groups[..n];
  }

  lemma EmptySegment(codec: Codec, groups: seq<seq<WalRecord>>)
    ensures Segments(codec, groups + [[]]) == Segments(codec, groups) + [[]]
    ensures Joined(groups + [[]]) == Joined(groups)
  {
  }

  // ----- folding records -----

  function ReplayAll(r: Recovery, recs: seq<WalRecord>): Recovery
    decreases |recs|
  {
    if recs == [] then r else ReplayAll(Replay(r, recs[0]), recs[1..])
  }

  lemma {:induction false} ReplayAllAppend(r: Recovery, a: seq<WalRecord>, b: seq<WalRecord>)
    ensures ReplayAll(r, a + b) == ReplayAll(ReplayAll(r, a), b)
    decreases |a|
  {
    if a == [] {
      assert a + b == b;
    } else {
      assert (a + b)[1..] == a[1..] + b;
      ReplayAllAppend(Replay(r, a[0]), a[1..], b);
    }
  }

  lemma {:induction false} RecoverIsReplayAll(recs: seq<WalRecord>)
    ensures Recover(recs) == ReplayAll(NOTHING, recs)
  {
    if recs != [] {
      var front, last := recs[..|recs| - 1], recs[|recs| - 1];
      RecoverIsReplayAll(front);
      assert recs == front + [last];
      ReplayAllAppend(NOTHING, front, [last]);
    }
  }

  /** One frame read, its records replayed, the rest of the segment to go. */
  lemma ReadOn(codec: Codec, r: Recovery, s: seq<byte>, f: Frame, r': Recovery, rest: seq<byte>)
    requires ParseFrame(s) == Some(f) && r' == ReplayAll(r, Meaning(codec, f))
    requires rest == s[HEADER + |f.payload|..]
    ensures ReplayAll(r, ReadSegment(codec, s)) == ReplayAll(r', ReadSegment(codec, rest))
  {
    assert ParseAll(s) == [f] + ParseAll(rest);
    assert ([f] + ParseAll(rest))[1..] == ParseAll(rest);
    ReplayAllAppend(r, Meaning(codec, f), ReadSegment(codec, rest));
  }

  lemma ReadOnAt(codec: Codec, r: Recovery, s: seq<byte>, pos: nat, f: Frame, r': Recovery, next: nat)
    requires pos <= |s| && ParseFrame(s[pos..]) == Some(f) && r' == ReplayAll(r, Meaning(codec, f))
    requires next == pos + HEADER + |f.payload|
    ensures next <= |s|
    ensures ReplayAll(r, ReadSegment(codec, s[pos..])) == ReplayAll(r', ReadSegment(codec, s[next..]))
  {
    DropTwice(s, pos, HEADER + |f.payload|);
    ReadOn(codec, r, s[pos..], f, r', s[next..]);
  }

  lemma NothingMore(codec: Codec, r: Recovery, s: seq<byte>)
    requires ParseFrame(s) == None
    ensures ReplayAll(r, ReadSegment(codec, s)) == r
  {
  }

  class WriteAheadLog {
    const codec: Codec
    const crc: Crc32Table
    const maxSegmentBytes: nat
    // The segment files in the order of their numbers; the last one is open.
    var segments: seq<seq<byte>>
    var currentOffset: nat
    ghost var groups: seq<seq<WalRecord>>

    ghost predicate Valid()
      reads this, crc, crc.table
    {
      crc.Valid() && segments != [] && currentOffset == |segments[|segments| - 1]|
    }

    /** The segments hold the records of `groups` and nothing else. */
    ghost predicate Faithful()
      reads this
    {
      groups != [] && segments == Segments(codec, groups)
    }

    /**
     Opens the highest segment found, or a first one; a torn tail in it stays. `held` are the records the
     disk holds, if it holds whole records.
     */
    constructor (codec: Codec, crc: Crc32Table, maxSegmentBytes: nat, disk: seq<seq<byte>>, ghost held: seq<seq<WalRecord>>)
      requires crc.Valid()
      ensures this.codec == codec && this.crc == crc && this.maxSegmentBytes == maxSegmentBytes
      ensures Valid() && segments == if disk == [] then [[]] else disk
      ensures disk == [] ==> Faithful() && Joined(groups) == []
      ensures held != [] && disk == Segments(codec, held) ==> Faithful() && groups == held
    {
      this.codec, this.crc, this.maxSegmentBytes := codec, crc, maxSegmentBytes;
      segments := if disk == [] then [[]] else disk;
      currentOffset := if disk == [] then 0 else |disk[|disk| - 1]|;
      groups := if disk == [] then [[]] else held;
      new;
      EmptySegment(codec, []);
    }

    method BuildRecord(kind: byte, payload: seq<byte>) returns (record: seq<byte>)
      requires Valid()
      modifies crc`ready, crc.table
      ensures Valid() && record == FrameBytes(Frame(kind, payload))
    {
      var sum := crc.Compute([kind] + payload);
      record := WordBytes(sum) + NatBytes(|payload|) + [kind] + payload;
    }

    method WriteRecord(kind: byte, payload: seq<byte>)
      requires Valid()
      modifies this`segments, this`currentOffset, crc`ready, crc.table
      ensures Valid() && segments == Grown(old(segments), FrameBytes(Frame(kind, payload)))
    {
      var record := BuildRecord(kind, payload);
      segments := segments[|segments| - 1 := segments[|segments| - 1] + record];
      currentOffset := currentOffset + |record|;
    }

    method OpenNextSegment()
      requires Valid()
      modifies this`segments, this`currentOffset, this`groups
      ensures Valid() && segments == old(segments) + [[]]
      ensures old(Faithful()) ==> Faithful() && Joined(groups) == old(Joined(groups))
    {
      EmptySegment(codec, groups);
      segments := segments + [[]];
      currentOffset := 0;
      groups := groups + [[]];
    }

    method MaybeRotate()
      requires Valid()
      modifies this`segments, this`currentOffset, this`groups
      ensures Valid()
      ensures segments == if old(currentOffset) >= maxSegmentBytes then old(segments) + [[]] else old(segments)
      ensures old(Faithful()) ==> Faithful() && Joined(groups) == old(Joined(groups))
    {
      if currentOffset >= maxSegmentBytes {
        OpenNextSegment();
      }
    }

    method Write(rec: WalRecord)
      requires Valid()
      modifies this`segments, this`currentOffset, this`groups, crc`ready, crc.table
      ensures Valid() && segments == Grown(old(segments), FrameBytes(ToFrame(codec, rec)))
      ensures old(Faithful()) ==> Faithful() && Joined(groups) == old(Joined(groups)) + [rec]
    {
      if segments == Segments(codec, groups) && groups != [] {
        RecordedSegments(codec, groups, rec, segments);
        groups := Recorded(groups, rec);
      }
      WriteRecord(Kind(rec), codec.write(rec));
    }

    /** Appends one record and moves to a new segment once this one is full. */
    method AppendLogEntry(e: Entry)
      requires Valid()
      modifies this`segments, this`currentOffset, this`groups, crc`ready, crc.table
      ensures Valid()
      ensures var grown := Grown(old(segments), FrameBytes(ToFrame(codec, LogRec(e))));
              segments == if |grown[|grown| - 1]| >= maxSegmentBytes then grown + [[]] else grown
      ensures currentOffset < maxSegmentBytes || currentOffset == 0
      ensures old(Faithful()) ==> Faithful() && Joined(groups) == old(Joined(groups)) + [LogRec(e)]
    {
      Write(LogRec(e));
      MaybeRotate();
    }

    method WriteHardState(term: nat, votedFor: Option<NodeId>)
      requires Valid()
      modifies this`segments, this`currentOffset, this`groups, crc`ready, crc.table
      ensures Valid() && segments == Grown(old(segments), FrameBytes(ToFrame(codec, HardRec(term, votedFor))))
      ensures old(Faithful()) ==> Faithful() && Joined(groups) == old(Joined(groups)) + [HardRec(term, votedFor)]
    {
      Write(HardRec(term, votedFor));
    }

    method WriteSnapshot(index: nat, term: nat, data: string)
      requires Valid()
      modifies this`segments, this`currentOffset, this`groups, crc`ready, crc.table
      ensures Valid() && segments == Grown(old(segments), FrameBytes(ToFrame(codec, SnapRec(index, term, data)))) + [[]]
      ensures old(Faithful()) ==> Faithful() && Joined(groups) == old(Joined(groups)) + [SnapRec(index, term, data)]
    {
      Write(SnapRec(index, term, data));
      OpenNextSegment();
    }

    /** The reads of one frame at `pos`, up to the first that fails. */
    method ReadFrame(s: seq<byte>, pos: nat) returns (f: Option<Frame>)
      requires crc.Valid() && pos <= |s|
      modifies crc`ready, crc.table
      ensures crc.Valid() && f == ParseFrame(s[pos..])
    {
      if pos + 9 > |s| {
        return None;
      }
      var sum := WordOf(s[pos..pos + 4]);
      var length := NatOf(s[pos + 4..pos + 8]);
      var kind := s[pos + 8];
      SliceOfSlice(s, pos, 0, 4);
      SliceOfSlice(s, pos, 4, 8);
      if pos + 9 + length > |s| {
        ParseShort(s[pos..], length);
        return None;
      }
      var payload := s[pos + 9..pos + 9 + length];
      SliceOfSlice(s, pos, 9, 9 + length);
      ParseFull(s[pos..], sum, length, payload);
      var actual := crc.Compute([kind] + payload);
      if actual != sum {
        return None;
      }
      return Some(Frame(kind, payload));
    }

    /** Drops recovered entries from the back while their index is not below `index`. */
    method PopBack(entries: seq<Entry>, index: nat) returns (es: seq<Entry>)
      ensures es == PopFrom(entries, index)
    {
      es := entries;
      while es != [] && es[|es| - 1].index >= index
        invariant PopFrom(es, index) == PopFrom(entries, index)
      {
        es := es[..|es| - 1];
      }
    }

    method ReplayOne(r: Recovery, rec: WalRecord) returns (r': Recovery)
      ensures r' == Replay(r, rec)
    {
      match rec
      case LogRec(e) =>
        var es := PopBack(r.entries, e.index);
        r' := r.(entries := es + [e]);
      case HardRec(t, v) =>
        r' := r.(term := t, votedFor := v);
      case SnapRec(i, t, d) =>
        r' := r.(snapshotIndex := i, snapshotTerm := t, snapshot := Some(d), entries := []);
    }

    /** The switch on the record type. */
    method ReplayFrame(r: Recovery, f: Frame) returns (r': Recovery)
      ensures r' == ReplayAll(r, Meaning(codec, f))
    {
      if f.kind == 1 || f.kind == 2 || f.kind == 3 {
        r' := ReplayOne(r, codec.read(f.kind, f.payload));
      } else {
        r' := r;
      }
    }

    /** The frame loop over one segment. */
    method RecoverSegment(s: seq<byte>, r0: Recovery) returns (r: Recovery)
      requires crc.Valid()
      modifies crc`ready, crc.table
      ensures crc.Valid() && r == ReplayAll(r0, ReadSegment(codec, s))
    {
      r := r0;
      var pos := 0;
      assert s[0..] == s;
      while pos < |s|
        invariant crc.Valid() && pos <= |s|
        invariant ReplayAll(r0, ReadSegment(codec, s)) == ReplayAll(r, ReadSegment(codec, s[pos..]))
      {
        var f := ReadFrame(s, pos);
        if f == None {
          break;
        }
        var next := pos + HEADER + |f.value.payload|;
        ghost var before := r;
        r := ReplayFrame(r, f.value);
        ReadOnAt(codec, before, s, pos, f.value, r, next);
        pos := next;
      }
      NothingMore(codec, r, s[pos..]);
    }

    /** Recovery rebuilds what the records still readable in the segments stand for. */
    method RecoverAll() returns (r: Recovery)
      requires Valid()
      modifies crc`ready, crc.table
      ensures Valid() && r == Recover(ReadSegments(codec, segments))
      ensures Lossless(codec) && Faithful() ==> r == Recover(Joined(groups))
    {
      r := NOTHING;
      for k := 0 to |segments|
        invariant crc.Valid()
        invariant r == ReplayAll(NOTHING, ReadSegments(codec, segments[..k]))
      {
        ghost var read := ReadSegments(codec, segments[..k]);
        r := RecoverSegment(segments[k], r);
        ReplayAllAppend(NOTHING, read, ReadSegment(codec, segments[k]));
        assert segments[..k + 1][..k] == segments[..k];
      }
      assert segments[..|segments|] == segments;
      RecoverIsReplayAll(ReadSegments(codec, segments));
      if Lossless(codec) && Faithful() { WholeSegments(codec, groups); }
    }
  }

  lemma SliceOfSlice(s: seq<byte>, pos: nat, a: nat, b: nat)
    requires pos + b <= |s| && a <= b
    ensures s[pos..][a..b] == s[pos + a..pos + b]
  {
  }

  lemma ParseFull(s: seq<byte>, sum: bv32, n: nat, payload: seq<byte>)
    requires |s| >= HEADER + n && sum == WordOf(s[..4]) && n == NatOf(s[4..8]) && payload == s[9..9 + n]
    ensures ParseFrame(s) == if Checksum([s[8]] + payload) != sum then None else Some(Frame(s[8], payload))
  {
  }
}
