/**
  The bytes of a log file, position by position, and the limits of the replay in numbers.
 */
module LogLayout {
  import opened LogFile

  lemma {:induction false} EncodeAt(n: nat, k: nat, i: nat)
    requires i < k
    ensures Encode(n, k)[i] as int == n / Power256(i) % 256
  {
    if i > 0 {
      EncodeAt(n / 256, k - 1, i - 1);
      assert Encode(n, k)[i] == Encode(n / 256, k - 1)[i - 1];
      DivideTwice(n, Power256(i - 1));
    }
  }

  lemma DivideTwice(n: nat, p: nat)
    requires p > 0
    ensures n / 256 / p == n / (256 * p)
  {
    var q, r := n / (256 * p), n % (256 * p);
    assert n / 256 == q * p + r / 256;
    assert r / 256 < p;
    QuotientIs(n / 256, p, q, r / 256);
  }

  lemma QuotientIs(n: nat, p: nat, q: nat, r: nat)
    requires p > 0 && n == q * p + r && r < p
    ensures n / p == q
  {
    var d, m := n / p, n % p;
    assert (d - q) * p == r - m;
    if d > q {
      AtLeastOnce(d - q, p);
    } else if d < q {
      assert (q - d) * p == m - r;
      AtLeastOnce(q - d, p);
    }
  }

  lemma AtLeastOnce(a: nat, p: nat)
    requires a > 0
    ensures a * p >= p
  {
  }

  lemma TimeLayout(t: nat)
    requires t < 0x1_0000_0000
    ensures var e := Encode(t, 4);
            && e[0] as int == t % 256 && e[1] as int == t / 256 % 256
            && e[2] as int == t / 65536 % 256 && e[3] as int == t / 16777216
  {
    EncodeAt(t, 4, 0);
    EncodeAt(t, 4, 1);
    EncodeAt(t, 4, 2);
    EncodeAt(t, 4, 3);
    assert Power256(1) == 256 && Power256(2) == 65536 && Power256(3) == 16777216;
  }

  /** A record in the file: the time stamp in bytes 0 to 3 and the number of bytes of the payload in bytes 4 to 11,
      each with the lowest byte first, and the payload from byte 12 on. */
  lemma RecordLayout(r: Record)
    requires 0 <= r.time < 0x1_0000_0000
    ensures var e := Encoded(r);
            && |e| == 12 + |r.payload| && e[12..] == r.payload
            && e[0] as int == r.time % 256 && e[1] as int == r.time / 256 % 256
            && e[2] as int == r.time / 65536 % 256 && e[3] as int == r.time / 16777216
            && forall i :: 0 <= i < 8 ==> e[4 + i] as int == |r.payload| / Power256(i) % 256
  {
    var e := Encoded(r);
    assert r.time % 0x1_0000_0000 == r.time;
    TimeLayout(r.time);
    assert e[..4] == Encode(r.time, 4);
    forall i | 0 <= i < 8
      ensures e[4 + i] as int == |r.payload| / Power256(i) % 256
    {
      EncodeAt(|r.payload|, 8, i);
    }
  }

  /** The number of bytes before record i. */
  function Start(records: seq<Record>, i: nat): (n: nat)
    requires i <= |records|
  {
    if i == 0 then 0 else Start(records, i - 1) + 12 + |records[i - 1].payload|
  }

  lemma Within(a: seq<Byte>, b: seq<Byte>, i: nat, j: nat)
    requires i <= j <= |a|
    ensures (a + b)[i..j] == a[i..j] && (a + b)[|a|..|a| + |b|] == b
  {
  }

  /** The records follow each other without a gap. */
  lemma {:induction false} FileLayout(records: seq<Record>, i: nat)
    requires i < |records|
    ensures Start(records, i) <= Start(records, i + 1) <= |EncodedAll(records)|
    ensures EncodedAll(records)[Start(records, i)..Start(records, i + 1)] == Encoded(records[i])
    decreases |records|
  {
    var n := |records| - 1;
    var most, last := records[..n], records[n];
    assert records == most + [last];
    EncodedAppend(most, last);
    EncodedLength(most);
    StartPrefix(records, most, i);
    if i < n {
      FileLayout(most, i);
      StartPrefix(records, most, i + 1);
      Within(EncodedAll(most), Encoded(last), Start(most, i), Start(most, i + 1));
    } else {
      Within(EncodedAll(most), Encoded(last), 0, 0);
    }
  }

  lemma {:induction false} StartPrefix(records: seq<Record>, most: seq<Record>, i: nat)
    requires i <= |most| <= |records| && records[..|most|] == most
    ensures Start(records, i) == Start(most, i)
  {
    if i > 0 {
      StartPrefix(records, most, i - 1);
      assert records[i - 1] == records[..|most|][i - 1];
    }
  }

  lemma {:induction false} EncodedLength(records: seq<Record>)
    ensures |EncodedAll(records)| == Start(records, |records|)
  {
    if records != [] {
      var n := |records| - 1;
      var most := records[..n];
      assert records == most + [records[n]];
      EncodedAppend(most, records[n]);
      StartPrefix(records, most, n);
      EncodedLength(most);
    }
  }

  /** At a speed of zero or more a record is due once the speed times the running time exceeds its time stamp. */
  lemma DueIs(r: Record, speed: real, time: int)
    requires speed >= 0.0
    ensures Due(r, speed, time) <==> r.time as real < speed * time as real
    ensures Due(r, 1.0, time) <==> r.time < time
  {
  }

  /** At normal speed, what the timer leaves has time stamps of at least the running time less what was lost, give
      or take a millisecond for each record delivered. */
  lemma LeftAtNormalSpeed(f: LogFile, k: nat)
    requires f.CaughtUp() && f.playbackSpeed == 1.0 && f.delivered <= k < |f.playback|
    ensures f.playback[k].time >= f.running - f.lost - f.delivered
  {
  }

  /** The payloads of two lists of records one after the other. */
  lemma {:induction false} PayloadsAdd(a: seq<Record>, b: seq<Record>)
    ensures Payloads(a + b) == Payloads(a) + Payloads(b)
    decreases |b|
  {
    if b == [] {
      assert a + b == a;
    } else {
      var n := |b| - 1;
      PayloadsAdd(a, b[..n]);
      PayloadsMore(a, b[..n], b[n], b);
    }
  }

  lemma PayloadsMore(a: seq<Record>, most: seq<Record>, last: Record, b: seq<Record>)
    requires Payloads(a + most) == Payloads(a) + Payloads(most) && b == most + [last]
    ensures Payloads(a + b) == Payloads(a) + Payloads(b)
  {
    PayloadsLast(a + most, last);
    PayloadsLast(most, last);
    assert a + b == (a + most) + [last];
    Associate(Payloads(a), Payloads(most), last.payload);
  }

  lemma PayloadsLast(a: seq<Record>, r: Record)
    ensures Payloads(a + [r]) == Payloads(a) + r.payload
  {
    assert (a + [r])[..|a|] == a;
  }

  /** Played time is stored without what is left of a millisecond, towards zero. */
  lemma TowardsZero(x: real)
    ensures x >= 0.0 ==> 0.0 <= Trunc(x) as real <= x < (Trunc(x) + 1) as real
    ensures x <= 0.0 ==> (Trunc(x) - 1) as real < x <= Trunc(x) as real <= 0.0
  {
  }

  /** The limits of the replay: 1 to 1048576 bytes, times below 2^31 ms, gaps of at most 3600000 ms. */
  lemma PlayableIff(records: seq<Record>)
    ensures Playable(records) <==>
            forall i :: 0 <= i < |records| ==>
              && records[i].time < 2147483648 && 1 <= |records[i].payload| <= 1048576
              && (i + 1 < |records| ==> records[i].time <= records[i + 1].time <= records[i].time + 3600000)
  {
    if Playable(records) {
      forall i | 0 <= i < |records| - 1
        ensures records[i].time <= records[i + 1].time <= records[i].time + 3600000
      {
        assert Follows(records[i].time, records[i + 1].time);
      }
    }
  }
}
