/**
  The telemetry log (ground/gcs/src/libs/utils/logfile.cpp): records are written with a time stamp, a
  length and the data, and replayed by a timer at an adjustable speed.
 */
module LogFile {

  newtype Byte = x: int | 0 <= x < 256

  // ------------------------------------------------------------------ the file format

  datatype Record = Record(time: int, payload: seq<Byte>)

  /** A number as k bytes, the lowest first. */
  function Encode(n: nat, k: nat): (b: seq<Byte>)
    ensures |b| == k
  {
    if k == 0 then [] else [(n % 256) as Byte] + Encode(n / 256, k - 1)
  }

  function Decode(b: seq<Byte>): nat {
    if b == [] then 0 else b[0] as nat + 256 * Decode(b[1..])
  }

  function Power256(k: nat): (p: nat)
    ensures p > 0
  {
    if k == 0 then 1 else 256 * Power256(k - 1)
  }

  /** What fits into k bytes comes back. */
  lemma {:induction false} DecodeEncode(n: nat, k: nat)
    requires n < Power256(k)
    ensures Decode(Encode(n, k)) == n
  {
    if k > 0 {
      Quotient(n, Power256(k - 1));
      DecodeEncode(n / 256, k - 1);
      assert Encode(n, k)[1..] == Encode(n / 256, k - 1);
    }
  }

  lemma Quotient(n: nat, p: nat)
    requires n < 256 * p
    ensures n / 256 < p && n % 256 + 256 * (n / 256) == n
  {
  }

  const TIME_SIZE := 4
  const LENGTH_SIZE := 8
  const MAX_PAYLOAD := 1024 * 1024
  const MAX_GAP := 60 * 60 * 1000

  /** The record as it is written: the time stamp is an unsigned word. */
  function Encoded(r: Record): seq<Byte> {
    Encode(r.time % 0x1_0000_0000, TIME_SIZE) + Encode(|r.payload|, LENGTH_SIZE) + r.payload
  }

  function EncodedAll(records: seq<Record>): seq<Byte> {
    if records == [] then [] else Encoded(records[0]) + EncodedAll(records[1..])
  }

  function Payloads(records: seq<Record>): seq<Byte> {
    if records == [] then [] else Payloads(records[..|records| - 1]) + records[|records| - 1].payload
  }

  /** Four bytes read into a signed variable. */
  function DecodeTime(b: seq<Byte>): int {
    if Decode(b) < 0x8000_0000 then Decode(b) else Decode(b) - 0x1_0000_0000
  }

  predicate PayloadSize(n: int) {
    1 <= n <= MAX_PAYLOAD
  }

  predicate Follows(time: int, next: int) {
    time <= next <= time + MAX_GAP
  }

  /** The records a replay takes from a file, whatever it holds: c is what follows the time stamp of the
      next record.  The replay ends before a payload with an unlikely or excessive length, and behind a
      payload without a time stamp or with an unlikely one. */
  function ParsedFrom(c: seq<Byte>, time: int): (r: seq<Record>)
    decreases |c|
  {
    if |c| < LENGTH_SIZE then []
    else
      var n := Decode(c[..LENGTH_SIZE]);
      if !PayloadSize(n) || |c| - LENGTH_SIZE < n then []
      else [Record(time, c[LENGTH_SIZE..LENGTH_SIZE + n])] + ParsedBehind(c[LENGTH_SIZE + n..], time)
  }

  function ParsedBehind(c: seq<Byte>, time: int): (r: seq<Record>)
    decreases |c|
  {
    if |c| < TIME_SIZE || !Follows(time, DecodeTime(c[..TIME_SIZE])) then []
    else ParsedFrom(c[TIME_SIZE..], DecodeTime(c[..TIME_SIZE]))
  }

  function Parsed(c: seq<Byte>): seq<Record> {
    if |c| < TIME_SIZE then [] else ParsedFrom(c[TIME_SIZE..], DecodeTime(c[..TIME_SIZE]))
  }

  /** Records the replay accepts: not empty and of at most a megabyte, with time stamps below 2^31 that do
      not go back and have gaps of at most an hour. */
  ghost predicate Playable(records: seq<Record>) {
    && (forall i :: 0 <= i < |records| ==> records[i].time < 0x8000_0000 && PayloadSize(|records[i].payload|))
    && (forall i :: 0 <= i < |records| - 1 ==> Follows(records[i].time, records[i + 1].time))
  }

  /** Records as writeData can write them. */
  ghost predicate Writable(records: seq<Record>) {
    forall i :: 0 <= i < |records| ==>
      0 <= records[i].time < 0x1_0000_0000 && |records[i].payload| < 0x8000_0000_0000_0000
  }

  lemma TimeFits(time: int)
    requires 0 <= time < 0x1_0000_0000
    ensures Decode(Encode(time % 0x1_0000_0000, TIME_SIZE)) == time
  {
    PowerFour();
    assert time % 0x1_0000_0000 == time;
    DecodeEncode(time, TIME_SIZE);
  }

  lemma LengthFits(n: nat)
    requires n < 0x8000_0000_0000_0000
    ensures Decode(Encode(n, LENGTH_SIZE)) == n
  {
    PowerEight();
    DecodeEncode(n, LENGTH_SIZE);
  }

  lemma PowerFour()
    ensures Power256(4) == 0x1_0000_0000
  {
    assert Power256(2) == 0x1_0000;
  }

  lemma PowerEight()
    ensures Power256(8) == 0x1_0000_0000_0000_0000
  {
    PowerFour();
    assert Power256(6) == 0x1_0000 * Power256(4);
    assert Power256(8) == 0x1_0000 * Power256(6);
  }

  lemma {:induction false} EncodedAppend(records: seq<Record>, r: Record)
    ensures EncodedAll(records + [r]) == EncodedAll(records) + Encoded(r)
  {
    if records == [] {
      assert records + [r] == [r] && [r][1..] == [];
    } else {
      EncodedAppend(records[1..], r);
      assert (records + [r])[1..] == records[1..] + [r];
    }
  }

  lemma Parts(r: Record, rest: seq<Byte>)
    requires 0 <= r.time < 0x1_0000_0000 && |r.payload| < 0x8000_0000_0000_0000
    ensures var c := Encoded(r) + rest;
            && |c| >= TIME_SIZE && Decode(c[..TIME_SIZE]) == r.time
            && c[TIME_SIZE..] == Encode(|r.payload|, LENGTH_SIZE) + r.payload + rest
  {
    TimeFits(r.time);
    var c := Encoded(r) + rest;
    assert c[..TIME_SIZE] == Encode(r.time % 0x1_0000_0000, TIME_SIZE);
  }

  lemma PayloadParts(payload: seq<Byte>, rest: seq<Byte>)
    requires |payload| < 0x8000_0000_0000_0000
    ensures var c, n := Encode(|payload|, LENGTH_SIZE) + payload + rest, |payload|;
            && |c| >= LENGTH_SIZE + n && Decode(c[..LENGTH_SIZE]) == n
            && c[LENGTH_SIZE..LENGTH_SIZE + n] == payload && c[LENGTH_SIZE + n..] == rest
  {
    LengthFits(|payload|);
    var c := Encode(|payload|, LENGTH_SIZE) + payload + rest;
    assert c[..LENGTH_SIZE] == Encode(|payload|, LENGTH_SIZE);
  }

  /** What a replay makes of written records. */
  lemma {:induction false} ParsedWritten(records: seq<Record>)
    requires records != [] && Playable(records) && Writable(records)
    ensures var r := records[0];
            ParsedFrom(Encode(|r.payload|, LENGTH_SIZE) + r.payload + EncodedAll(records[1..]), r.time) == records
    decreases |records|
  {
    var r, rest := records[0], EncodedAll(records[1..]);
    PayloadParts(r.payload, rest);
    if |records| > 1 {
      var tail := records[1..];
      forall i | 0 <= i < |tail|
        ensures tail[i] == records[i + 1]
      {
      }
      assert Follows(records[0].time, records[0 + 1].time);
      Parts(tail[0], EncodedAll(tail[1..]));
      ParsedWritten(tail);
      assert [r] + tail == records;
    }
  }

  /** What is parsed satisfies the checks of the replay. */
  lemma {:induction false} ParsedPlayable(c: seq<Byte>, time: int)
    requires time < 0x8000_0000
    ensures Playable(ParsedFrom(c, time))
    ensures ParsedFrom(c, time) != [] ==> ParsedFrom(c, time)[0].time == time
    decreases |c|
  {
    if ParsedFrom(c, time) != [] {
      var n := Decode(c[..LENGTH_SIZE]);
      var d := c[LENGTH_SIZE + n..];
      var rest := ParsedBehind(d, time);
      if rest != [] {
        DecodeBound(d[..TIME_SIZE]);
        ParsedPlayable(d[TIME_SIZE..], DecodeTime(d[..TIME_SIZE]));
      }
      FirstPlayable(Record(time, c[LENGTH_SIZE..LENGTH_SIZE + n]), rest);
    }
  }

  lemma FirstPlayable(r: Record, rest: seq<Record>)
    requires Playable(rest) && r.time < 0x8000_0000 && PayloadSize(|r.payload|)
    requires rest != [] ==> Follows(r.time, rest[0].time)
    ensures Playable([r] + rest)
  {
    var s := [r] + rest;
    forall i | 0 <= i < |s| - 1
      ensures Follows(s[i].time, s[i + 1].time)
    {
      if i > 0 {
        assert Follows(rest[i - 1].time, rest[i - 1 + 1].time);
      }
    }
  }

  lemma {:induction false} DecodeSize(b: seq<Byte>)
    ensures Decode(b) < Power256(|b|)
  {
    if b != [] {
      DecodeSize(b[1..]);
    }
  }

  lemma DecodeBound(b: seq<Byte>)
    requires |b| == TIME_SIZE
    ensures DecodeTime(b) < 0x8000_0000
  {
    PowerFour();
    DecodeSize(b);
  }

  /** Written records come back from a replay exactly when they are playable. */
  lemma RoundTripIff(records: seq<Record>)
    requires Writable(records)
    ensures Parsed(EncodedAll(records)) == records <==> Playable(records)
  {
    var c := EncodedAll(records);
    if records != [] {
      Parts(records[0], EncodedAll(records[1..]));
      if Playable(records) {
        ParsedWritten(records);
      } else if Parsed(c) == records {
        DecodeBound(c[..TIME_SIZE]);
        ParsedPlayable(c[TIME_SIZE..], DecodeTime(c[..TIME_SIZE]));
      }
    }
  }

  /** The time stamps do not go back. */
  lemma {:induction false} ParsedNotBefore(c: seq<Byte>, time: int, i: nat)
    requires i < |ParsedFrom(c, time)|
    ensures ParsedFrom(c, time)[i].time >= time
    decreases |c|
  {
    if i > 0 {
      var d := c[LENGTH_SIZE + Decode(c[..LENGTH_SIZE])..];
      ParsedNotBefore(d[TIME_SIZE..], DecodeTime(d[..TIME_SIZE]), i - 1);
    }
  }

  lemma NoneBefore(p: seq<Record>, c: seq<Byte>, time: int, bound: real)
    requires p == ParsedFrom(c, time) && bound <= time as real
    ensures forall k :: 0 <= k < |p| ==> bound <= p[k].time as real
  {
    forall k | 0 <= k < |p|
      ensures bound <= p[k].time as real
    {
      ParsedNotBefore(c, time, k);
    }
  }

  // ------------------------------------------------------------------ played time

  /** What is counted as played at a given time. */
  function Played(lastPlayed: int, time: int, offset: int, speed: real): real {
    lastPlayed as real + (time - offset) as real * speed
  }

  /** Conversion to an integer, towards zero. */
  function Trunc(x: real): int {
    if x >= 0.0 then x.Floor else -(-x).Floor
  }

  /** The time stamps that a running time can reach; with a speed below zero the negative ones at most. */
  function Reach(speed: real, time: int): real {
    if speed >= 0.0 then speed * time as real else 0.0
  }

  /** The time stamps that are certainly passed, when n conversions lose up to a millisecond each. */
  function Passed(speed: real, time: int, n: nat): real {
    speed * time as real - n as real
  }

  /** What is stored as played is at most what the counted time reaches, and behind the counted time by at most
      one millisecond for each of n conversions. */
  ghost predicate Kept(lastPlayed: int, speed: real, counted: int, n: nat) {
    && Passed(speed, counted, n) <= lastPlayed as real <= Reach(speed, counted)
    && (speed >= 0.0 ==> lastPlayed >= 0)
  }

  lemma NothingCounted(lastPlayed: int, speed: real, counted: int, n: nat)
    requires lastPlayed == counted == n == 0
    ensures Kept(lastPlayed, speed, counted, n)
  {
  }

  lemma Counting(lastPlayed: int, time: int, offset: int, speed: real, counted: int, n: nat)
    requires Kept(lastPlayed, speed, counted, n) && offset <= time
    ensures var c, p := counted + (time - offset), Played(lastPlayed, time, offset, speed);
            Passed(speed, c, n) <= p <= Reach(speed, c) && Kept(Trunc(p), speed, c, n + 1)
  {
    var d, c := (time - offset) as real, counted + (time - offset);
    Spread(speed, counted as real, d, c as real);
    if speed >= 0.0 {
      ProductSign(d, speed);
    } else {
      ProductSign(d, -speed);
      assert d * speed == -(d * -speed);
    }
  }

  lemma Spread(speed: real, a: real, d: real, c: real)
    requires c == a + d
    ensures speed * c == speed * a + d * speed
  {
  }

  lemma ProductSign(d: real, speed: real)
    requires d >= 0.0 && speed >= 0.0
    ensures d * speed >= 0.0
  {
  }

  lemma ReachLater(speed: real, a: int, b: int)
    requires a <= b
    ensures Reach(speed, a) <= Reach(speed, b)
  {
    if speed >= 0.0 {
      ProductSign((b - a) as real, speed);
      Spread(speed, a as real, (b - a) as real, b as real);
    }
  }

  // ------------------------------------------------------------------ writing and replaying

  /** What happens during a replay: the timer, a pause, a resumption, and a read by the consumer. */
  datatype Event = Fire | Pause | Resume | Read(maxSize: nat)

  class LogFile {
    /** The file and the position in it. */
    var content: seq<Byte>
    var pos: nat
    var writable: bool
    var open: bool

    var dataBuffer: seq<Byte>
    var lastTimeStamp: int
    var lastPlayed: int
    var timeOffset: int
    var playbackSpeed: real

    /** The clock started by the last call of restart, and whether the timer of the replay is active. */
    var clock: int
    var timerActive: bool

    /** What has been written, what the replay takes from the file, how many records of that have been
        delivered, and the bytes that have been read from the buffer. */
    ghost var records: seq<Record>
    ghost var playback: seq<Record>
    ghost var delivered: nat
    ghost var consumed: seq<Byte>

    /** How long the timer has been active since the start of the replay, how much of that has been counted as
        played, and how much of it was left out at resumptions. */
    ghost var running: int
    ghost var counted: int
    ghost var lost: int

    constructor ()
      ensures content == EncodedAll(records) && records == [] && writable && open
    {
      content, pos, writable, open := [], 0, true, true;
      dataBuffer, lastTimeStamp, lastPlayed, timeOffset, playbackSpeed, clock := [], 0, 0, 0, 1.0, 0;
      timerActive := false;
      records, playback, delivered, consumed := [], [], 0, [];
      running, counted, lost := 0, 0, 0;
    }

    /** Time passes, and does not go back. */
    method Wait()
      modifies this`clock, this`running
      ensures clock >= old(clock) && running == old(running) + if timerActive then clock - old(clock) else 0
    {
      var step: int := *;
      if step > 0 {
        clock := clock + step;
        if timerActive {
          running := running + step;
        }
      }
    }

    /** The time since the last restart. */
    method Elapsed() returns (time: int)
      modifies this`clock, this`running
      ensures time == clock >= old(clock)
      ensures running == old(running) + if timerActive then clock - old(clock) else 0
    {
      Wait();
      time := clock;
    }

    method WriteData(data: seq<Byte>, timeStamp: nat) returns (written: nat)
      requires content == EncodedAll(records) && timeStamp < 0x1_0000_0000
      modifies this`content, this`records
      ensures written == |data|
      ensures records == if writable then old(records) + [Record(timeStamp, data)] else old(records)
      ensures content == EncodedAll(records)
    {
      if !writable {
        return |data|;
      }
      content := content + Encode(timeStamp, TIME_SIZE);
      content := content + Encode(|data|, LENGTH_SIZE);
      content := content + data;
      EncodedAppend(records, Record(timeStamp, data));
      WrittenIs(old(content), Record(timeStamp, data));
      records := records + [Record(timeStamp, data)];
      written := |data|;
    }

    /** Take up to maxSize bytes out of the buffer. */
    method ReadData(maxSize: nat) returns (data: seq<Byte>)
      modifies this`dataBuffer, this`consumed
      ensures |data| == if maxSize <= |old(dataBuffer)| then maxSize else |old(dataBuffer)|
      ensures data + dataBuffer == old(dataBuffer)
      ensures consumed == old(consumed) + data && consumed + dataBuffer == old(consumed) + old(dataBuffer)
    {
      var toRead := if maxSize <= |dataBuffer| then maxSize else |dataBuffer|;
      data := dataBuffer[..toRead];
      dataBuffer := dataBuffer[toRead..];
      consumed := consumed + data;
      assert data + dataBuffer == old(dataBuffer);
      Associate(old(consumed), data, dataBuffer);
    }

    /** While a replay runs: the file position is behind the time stamp of the next record, and the records
        before it have gone through the buffer. */
    ghost predicate Reading()
      reads this
    {
      && open && delivered <= |playback| && pos <= |content|
      && playback[delivered..] == ParsedFrom(content[pos..], lastTimeStamp)
      && consumed + dataBuffer == Payloads(playback[..delivered])
    }

    /** While the timer is active, the running time that is neither counted nor lost is the time since the
        offset. */
    ghost predicate InTime()
      reads this`clock, this`timeOffset, this`timerActive, this`running, this`counted, this`lost, this`lastPlayed,
            this`playbackSpeed, this`delivered
    {
      && timeOffset <= clock && 0 <= lost && 0 <= counted <= running - lost
      && (timerActive ==> running == counted + lost + (clock - timeOffset))
      && Kept(lastPlayed, playbackSpeed, counted, delivered)
    }

    /** The records that are not delivered yet have time stamps that the running time without what was lost
        has not passed by more than a millisecond for each record delivered. */
    ghost predicate CaughtUp()
      reads this
    {
      forall k :: delivered <= k < |playback| ==>
        Passed(playbackSpeed, running - lost, delivered) <= playback[k].time as real
    }

    ghost predicate Replaying()
      reads this
    {
      Reading() && InTime()
    }

    /** After the replay: every record has gone through the buffer. */
    ghost predicate Finished()
      reads this
    {
      !open && delivered == |playback| && consumed + dataBuffer == Payloads(playback)
    }

    /** Nothing has been played. */
    method Rewind()
      requires open
      modifies this`dataBuffer, this`consumed, this`clock, this`running, this`counted, this`lost, this`timeOffset,
               this`lastPlayed, this`delivered, this`timerActive
      ensures InTime() && timerActive && clock == running == counted == lost == 0
      ensures delivered == 0 && consumed == dataBuffer == []
    {
      dataBuffer, consumed := [], [];
      clock, running, counted, lost := 0, 0, 0, 0;
      timeOffset, lastPlayed, delivered := 0, 0, 0;
      timerActive := true;
      NothingCounted(lastPlayed, playbackSpeed, counted, delivered);
    }

    /** A file of any content is replayed; of a file without a time stamp nothing is. */
    method StartReplay()
      requires open && pos == 0
      modifies this
      ensures Replaying() && delivered == 0 && playback == Parsed(content) && content == old(content)
      ensures playbackSpeed == old(playbackSpeed) && timerActive && clock == running == counted == lost == 0
    {
      playback := Parsed(content);
      Rewind();
      ReadFirstTimeStamp();
      assert playback[delivered..] == playback && playback[..delivered] == [];
    }

    method ReadFirstTimeStamp()
      requires pos == 0
      modifies this`pos, this`lastTimeStamp
      ensures pos <= |content| && Parsed(content) == ParsedFrom(content[pos..], lastTimeStamp)
    {
      if |content| < TIME_SIZE {
        lastTimeStamp := *;
        pos := |content|;
      } else {
        lastTimeStamp := DecodeTime(content[pos..pos + TIME_SIZE]);
        pos := pos + TIME_SIZE;
      }
    }

    method StopReplay()
      modifies this`open, this`timerActive
      ensures !open && !timerActive
    {
      timerActive := false;
      open := false;
    }

    method PauseReplay()
      requires Replaying()
      modifies this`timerActive
      ensures Replaying() && !timerActive
    {
      timerActive := false;
    }

    /** The time of a pause does not count as played, and neither does the running time before it that has not
        been counted yet. */
    method ResumeReplay()
      requires Replaying()
      modifies this`clock, this`timeOffset, this`timerActive, this`running, this`lost
      ensures Replaying() && timerActive && timeOffset == clock >= old(clock)
      ensures running == old(running) + if old(timerActive) then clock - old(clock) else 0
      ensures lost == running - counted
    {
      timeOffset := Elapsed();
      timerActive := true;
      lost := running - counted;
    }

    /** Read the next length and payload, and the time stamp behind them. */
    method ReadRecord() returns (more: bool)
      requires Reading()
      modifies this`pos, this`dataBuffer, this`lastTimeStamp, this`open, this`timerActive, this`delivered
      ensures delivered == if old(delivered) < |playback| then old(delivered) + 1 else old(delivered)
      ensures if more then Reading() && delivered > old(delivered) && timerActive == old(timerActive) else Finished()
    {
      assert playback[..|playback|] == playback;
      ghost var c := content[pos..];
      if |content| - pos < LENGTH_SIZE {
        StopReplay();
        return false;
      }
      assert content[pos..pos + LENGTH_SIZE] == c[..LENGTH_SIZE];
      var dataSize := Decode(content[pos..pos + LENGTH_SIZE]);
      pos := pos + LENGTH_SIZE;
      if !PayloadSize(dataSize) {
        StopReplay();
        return false;
      }
      if |content| - pos < dataSize {
        StopReplay();
        return false;
      }
      assert content[pos..pos + dataSize] == c[LENGTH_SIZE..LENGTH_SIZE + dataSize];
      assert content[pos + dataSize..] == c[LENGTH_SIZE + dataSize..];
      TakePayload(dataSize);
      more := ReadTimeStamp();
    }

    method TakePayload(dataSize: nat)
      requires delivered <= |playback| && pos + dataSize <= |content|
      requires playback[delivered..] == [Record(lastTimeStamp, content[pos..pos + dataSize])]
                                        + ParsedBehind(content[pos + dataSize..], lastTimeStamp)
      requires consumed + dataBuffer == Payloads(playback[..delivered])
      modifies this`pos, this`dataBuffer, this`delivered
      ensures delivered == old(delivered) + 1 <= |playback| && pos == old(pos) + dataSize
      ensures playback[delivered..] == ParsedBehind(content[pos..], lastTimeStamp)
      ensures consumed + dataBuffer == Payloads(playback[..delivered])
    {
      var data := content[pos..pos + dataSize];
      NextParsed(playback, delivered, Record(lastTimeStamp, data),
                 ParsedBehind(content[pos + dataSize..], lastTimeStamp));
      Associate(consumed, dataBuffer, data);
      dataBuffer := dataBuffer + data;
      pos := pos + dataSize;
      delivered := delivered + 1;
    }

    /** The time stamp of the next record, unless the file ends here or the time stamp is unlikely. */
    method ReadTimeStamp() returns (more: bool)
      requires open && delivered <= |playback| && pos <= |content|
      requires playback[delivered..] == ParsedBehind(content[pos..], lastTimeStamp)
      requires consumed + dataBuffer == Payloads(playback[..delivered])
      modifies this`pos, this`lastTimeStamp, this`open, this`timerActive
      ensures if more then Reading() && timerActive == old(timerActive) else Finished()
    {
      assert playback[..|playback|] == playback;
      ghost var c := content[pos..];
      if |content| - pos < TIME_SIZE {
        StopReplay();
        return false;
      }
      var save := lastTimeStamp;
      assert content[pos..pos + TIME_SIZE] == c[..TIME_SIZE];
      lastTimeStamp := DecodeTime(content[pos..pos + TIME_SIZE]);
      pos := pos + TIME_SIZE;
      assert content[pos..] == c[TIME_SIZE..];
      if lastTimeStamp < save || lastTimeStamp - save > MAX_GAP {
        StopReplay();
        return false;
      }
      more := true;
    }

    /** Count the time up to now as played; what is left of a millisecond is lost. */
    method CountPlayed(time: int)
      requires InTime() && timeOffset <= time
      modifies this`lastPlayed
      ensures lastPlayed == Trunc(Played(old(lastPlayed), time, timeOffset, playbackSpeed))
      ensures Kept(lastPlayed, playbackSpeed, counted + (time - timeOffset), delivered + 1)
    {
      Counting(lastPlayed, time, timeOffset, playbackSpeed, counted, delivered);
      lastPlayed := Trunc(Played(lastPlayed, time, timeOffset, playbackSpeed));
    }

    /** The time that is due has been reached. */
    lemma Reached(time: int)
      requires Replaying() && timerActive && time == clock
      requires Played(lastPlayed, time, timeOffset, playbackSpeed) > lastTimeStamp as real
      ensures delivered < |playback| ==> Due(playback[delivered], playbackSpeed, running)
    {
      Counting(lastPlayed, time, timeOffset, playbackSpeed, counted, delivered);
      ReachLater(playbackSpeed, counted + (time - timeOffset), running);
      FirstTime(content[pos..], lastTimeStamp);
      assert delivered < |playback| ==> playback[delivered] == playback[delivered..][0];
    }

    /** Deliver the next record, if there is one.  It is delivered when more time has been played than its
        time stamp says, and so only after the replay has run that long. */
    method DeliverRecord(time: int) returns (more: bool)
      requires Replaying() && timerActive && time == clock
      requires Played(lastPlayed, time, timeOffset, playbackSpeed) > lastTimeStamp as real
      modifies this`pos, this`dataBuffer, this`lastTimeStamp, this`lastPlayed, this`timeOffset, this`open,
               this`timerActive, this`delivered, this`counted
      ensures delivered == if old(delivered) < |playback| then old(delivered) + 1 else old(delivered)
      ensures old(delivered) < |playback| ==> Due(playback[old(delivered)], playbackSpeed, running)
      ensures if more then Replaying() && timerActive && timeOffset == time && delivered > old(delivered)
              else Finished()
      ensures lastPlayed == Trunc(Played(old(lastPlayed), time, old(timeOffset), playbackSpeed))
    {
      Reached(time);
      CountPlayed(time);
      more := ReadRecord();
      if more {
        CountUpTo(time);
      }
    }

    method CountUpTo(time: int)
      requires timerActive && time == clock && timeOffset <= time && 0 <= lost && 0 <= counted
      requires running == counted + lost + (clock - timeOffset)
      requires Kept(lastPlayed, playbackSpeed, counted + (time - timeOffset), delivered)
      modifies this`counted, this`timeOffset
      ensures InTime() && timeOffset == time
    {
      counted := counted + (time - timeOffset);
      timeOffset := time;
    }

    /** The timer: deliver all records whose time has come. */
    method TimerFired()
      requires Replaying() && timerActive
      modifies this`pos, this`dataBuffer, this`lastTimeStamp, this`lastPlayed, this`timeOffset, this`open,
               this`timerActive, this`delivered, this`clock, this`running, this`counted
      ensures (Replaying() && timerActive && CaughtUp()) || Finished()
      ensures old(delivered) <= delivered <= |playback|
      ensures AllDue(playback, old(delivered), delivered, playbackSpeed, running)
      ensures running - old(running) == clock - old(clock) >= 0
    {
      if |content| - pos > 4 {
        DeliverDue();
      } else {
        assert playback[delivered..] == [];
        assert playback[..|playback|] == playback;
        StopReplay();
      }
    }

    /** The loop of the timer. */
    method DeliverDue()
      requires Replaying() && timerActive
      modifies this`pos, this`dataBuffer, this`lastTimeStamp, this`lastPlayed, this`timeOffset, this`open,
               this`timerActive, this`delivered, this`clock, this`running, this`counted
      ensures (Replaying() && timerActive && CaughtUp()) || Finished()
      ensures old(delivered) <= delivered <= |playback|
      ensures AllDue(playback, old(delivered), delivered, playbackSpeed, running)
      ensures running - old(running) == clock - old(clock) >= 0
    {
      var time := Elapsed();
      while Played(lastPlayed, time, timeOffset, playbackSpeed) > lastTimeStamp as real
        invariant Replaying() && timerActive && time == clock
        invariant old(delivered) <= delivered <= |playback|
        invariant AllDue(playback, old(delivered), delivered, playbackSpeed, running)
        invariant running - old(running) == clock - old(clock) >= 0
        decreases |playback| - delivered
      {
        ghost var k := delivered;
        var more := DeliverRecord(time);
        AllDueNext(playback, old(delivered), k, delivered, playbackSpeed, running);
        if !more {
          return;
        }
        ghost var before := running;
        time := Elapsed();
        AllDueLater(playback, old(delivered), delivered, playbackSpeed, before, running);
      }
      NothingDue();
    }

    lemma NothingDue()
      requires Replaying() && timerActive
      requires Played(lastPlayed, clock, timeOffset, playbackSpeed) <= lastTimeStamp as real
      ensures CaughtUp()
    {
      Counting(lastPlayed, clock, timeOffset, playbackSpeed, counted, delivered);
      assert counted + (clock - timeOffset) == running - lost;
      NoneBefore(playback[delivered..], content[pos..], lastTimeStamp,
                 Passed(playbackSpeed, running - lost, delivered));
      forall k | delivered <= k < |playback|
        ensures Passed(playbackSpeed, running - lost, delivered) <= playback[k].time as real
      {
        assert playback[k] == playback[delivered..][k - delivered];
      }
    }

    method Handle(event: Event)
      requires Replaying() || Finished()
      modifies this`pos, this`dataBuffer, this`lastTimeStamp, this`lastPlayed, this`timeOffset, this`open,
               this`timerActive, this`delivered, this`clock, this`running, this`counted, this`lost, this`consumed
      ensures Replaying() || Finished()
      ensures old(delivered) <= delivered <= |playback| && old(running) <= running
      ensures event.Fire? && open && timerActive ==> CaughtUp()
      ensures !event.Resume? ==> lost == old(lost)
      ensures AllDue(playback, old(delivered), delivered, playbackSpeed, running)
    {
      Wait();
      match event
      case Fire =>
        if open && timerActive {
          TimerFired();
        }
      case Pause =>
        if open {
          PauseReplay();
        }
      case Resume =>
        if open {
          ResumeReplay();
        }
      case Read(maxSize) =>
        var _ := ReadData(maxSize);
    }

    /** A replay of the file, through any sequence of events: what has been read and what is buffered are the
        payloads of the records delivered so far, in order; record k was delivered when the timer had been active
        long enough for it; and when the timer has just fired, nothing is left that it should have delivered.
        Running time is lost by resumptions only. */
    method Replay(events: seq<Event>) returns (ghost times: seq<int>)
      requires open && pos == 0
      modifies this
      ensures playback == Parsed(old(content)) && playbackSpeed == old(playbackSpeed)
      ensures delivered <= |playback| && consumed + dataBuffer == Payloads(playback[..delivered])
      ensures |times| == delivered && DueAt(playback, playbackSpeed, times)
      ensures !open ==> delivered == |playback|
      ensures events != [] && events[|events| - 1] == Fire && open && timerActive ==> CaughtUp()
      ensures Resume !in events ==> lost == 0
    {
      StartReplay();
      times := [];
      for i := 0 to |events|
        invariant Replaying() || Finished()
        invariant playback == Parsed(old(content)) && playbackSpeed == old(playbackSpeed)
        invariant |times| == delivered && DueAt(playback, playbackSpeed, times)
        invariant i > 0 && events[i - 1] == Fire && open && timerActive ==> CaughtUp()
        invariant Resume !in events[..i] ==> lost == 0
      {
        Handle(events[i]);
        ExtendedDue(playback, playbackSpeed, times, delivered, running);
        times := Extended(times, delivered, running);
      }
      assert playback[..|playback|] == playback && events[..|events|] == events;
    }
  }

  lemma FirstTime(c: seq<Byte>, time: int)
    ensures ParsedFrom(c, time) != [] ==> ParsedFrom(c, time)[0].time == time
  {
  }

  lemma NextParsed(p: seq<Record>, k: nat, r: Record, rest: seq<Record>)
    requires k <= |p| && p[k..] == [r] + rest
    ensures k < |p| && p[k] == r && p[k + 1..] == rest
    ensures Payloads(p[..k + 1]) == Payloads(p[..k]) + r.payload
  {
    assert |p[k..]| > 0;
    assert p[k] == p[k..][0];
    assert p[k + 1..] == p[k..][1..];
    assert p[..k + 1][..k] == p[..k];
  }

  /** Record k is due at times[k]. */
  ghost predicate DueAt(records: seq<Record>, speed: real, times: seq<int>) {
    |times| <= |records| && forall k :: 0 <= k < |times| ==> Due(records[k], speed, times[k])
  }

  /** The list filled up to n entries with the present time. */
  function Extended(times: seq<int>, n: nat, now: int): (r: seq<int>)
    requires |times| <= n
    ensures |r| == n && forall k :: 0 <= k < n ==> r[k] == if k < |times| then times[k] else now
  {
    seq(n, k => if 0 <= k < |times| then times[k] else now)
  }

  lemma ExtendedDue(p: seq<Record>, speed: real, times: seq<int>, n: nat, now: int)
    requires DueAt(p, speed, times) && AllDue(p, |times|, n, speed, now)
    ensures DueAt(p, speed, Extended(times, n, now))
  {
  }

  /** The replay has run long enough for the record. */
  ghost predicate Due(r: Record, speed: real, time: int) {
    r.time as real < Reach(speed, time)
  }

  ghost predicate AllDue(p: seq<Record>, i: nat, j: nat, speed: real, time: int) {
    i <= j <= |p| && forall k :: i <= k < j ==> Due(p[k], speed, time)
  }

  lemma AllDueLater(p: seq<Record>, i: nat, j: nat, speed: real, a: int, b: int)
    requires a <= b && AllDue(p, i, j, speed, a)
    ensures AllDue(p, i, j, speed, b)
  {
    ReachLater(speed, a, b);
  }

  lemma AllDueNext(p: seq<Record>, i: nat, k: nat, j: nat, speed: real, time: int)
    requires AllDue(p, i, k, speed, time) && j == (if k < |p| then k + 1 else k) && (k < |p| ==> Due(p[k], speed, time))
    ensures AllDue(p, i, j, speed, time)
  {
  }

  lemma WrittenIs(c: seq<Byte>, r: Record)
    requires 0 <= r.time < 0x1_0000_0000
    ensures c + Encode(r.time, TIME_SIZE) + Encode(|r.payload|, LENGTH_SIZE) + r.payload == c + Encoded(r)
  {
    assert r.time % 0x1_0000_0000 == r.time;
  }

  lemma Associate(a: seq<Byte>, b: seq<Byte>, c: seq<Byte>)
    ensures a + (b + c) == (a + b) + c
  {
  }
}
