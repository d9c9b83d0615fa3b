/** Self-calibrated decoding of qca-wifi station records.  Only the leading length of a record
    is stable between builds, so field offsets are learned by lining up one raw buffer with
    the same stations as listed by another tool, and later buffers are decoded with them. */
module StaCalibration {
  import opened Options
  import opened Octets
  import opened Sums

  /** The machine's byte order. */
  datatype Order = Little | Big

  /** One station.  `signal` is an int8 in dBm, `inactive` milliseconds, rates kbit/s. */
  datatype Station = Station(
    mac: Bytes, aid: nat, signal: int, signalKnown: bool, inactive: nat, inactiveKnown: bool,
    txRate: nat, txKnown: bool, rxRate: nat, rxKnown: bool, noise: int, noiseKnown: bool)

  datatype Field = Aid | Rssi | Idle | TxRate | RxRate

  datatype Layout = Layout(macOff: int, aidOff: int, rssiOff: int, idleOff: int, txRateOff: int, rxRateOff: int)

  function Offset(l: Layout, f: Field): int {
    match f
    case Aid => l.aidOff
    case Rssi => l.rssiOff
    case Idle => l.idleOff
    case TxRate => l.txRateOff
    case RxRate => l.rxRateOff
  }

  predicate Usable(l: Layout) { l.macOff >= 0 && l.rssiOff >= 0 && (l.txRateOff >= 0 || l.rxRateOff >= 0) }

  function U16(o: Order, b: Bytes, i: nat): nat
    requires i + 2 <= |b|
  {
    if o.Big? then b[i] as nat * 256 + b[i + 1] as nat else b[i + 1] as nat * 256 + b[i] as nat
  }

  function U32(o: Order, b: Bytes, i: nat): nat
    requires i + 4 <= |b|
  {
    if o.Big? then U16(o, b, i) * 65536 + U16(o, b, i + 2) else U16(o, b, i + 2) * 65536 + U16(o, b, i)
  }

  predicate ValidMac(mac: Bytes) { |mac| == 6 && mac[0] % 2 == 0 && exists i :: 0 <= i < 6 && mac[i] != 0 }

  function Clamp(v: int): int { if v < -128 then -128 else if v > 127 then 127 else v }

  predicate Near(a: int, b: int, tolerance: int) { a - b <= tolerance && b - a <= tolerance }

  // ---------------------------------------------------------------------- records

  /** The records from `off` on; `None` when a length does not fit. */
  function Split(o: Order, buf: Bytes, off: nat): Option<seq<Bytes>>
    requires off <= |buf|
    decreases |buf| - off
  {
    if off + 16 > |buf| then Some([])
    else
      var n := U16(o, buf, off);
      if n == 0 then Some([])
      else if n < 16 || off + n > |buf| then None
      else
        var rest := Split(o, buf, off + n);
        if rest.None? then None else Some([buf[off..off + n]] + rest.value)
  }

  /** `splitStaRecords`: malformed input and no record at all look the same. */
  function Records(o: Order, buf: Bytes): seq<Bytes> {
    var split := Split(o, buf, 0);
    if split.None? then [] else split.value
  }

  function Prepend(out: seq<Bytes>, rest: Option<seq<Bytes>>): Option<seq<Bytes>> {
    if rest.None? then None else Some(out + rest.value)
  }

  lemma PrependNothing(rest: Option<seq<Bytes>>)
    ensures Prepend([], rest) == rest
  {
    assert rest.Some? ==> [] + rest.value == rest.value;
  }

  lemma PrependMore(out: seq<Bytes>, r: Bytes, rest: Option<seq<Bytes>>)
    ensures Prepend(out, if rest.None? then None else Some([r] + rest.value)) == Prepend(out + [r], rest)
  {
    assert rest.Some? ==> out + ([r] + rest.value) == out + [r] + rest.value;
  }

  method SplitStaRecords(o: Order, buf: Bytes) returns (out: seq<Bytes>)
    ensures out == Records(o, buf)
  {
    out := [];
    var off := 0;
    PrependNothing(Split(o, buf, 0));
    while off + 16 <= |buf|
      invariant 0 <= off <= |buf|
      invariant Split(o, buf, 0) == Prepend(out, Split(o, buf, off))
      decreases |buf| - off
    {
      var n := U16(o, buf, off);
      if n == 0 {
        return;
      }
      if n < 16 || off + n > |buf| {
        return [];
      }
      PrependMore(out, buf[off..off + n], Split(o, buf, off + n));
      out := out + [buf[off..off + n]];
      off := off + n;
    }
  }

  lemma {:induction false} SplitLengths(o: Order, buf: Bytes, off: nat)
    requires off <= |buf| && Split(o, buf, off).Some?
    ensures forall i :: 0 <= i < |Split(o, buf, off).value| ==> |Split(o, buf, off).value[i]| >= 16
    decreases |buf| - off
  {
    if off + 16 <= |buf| && U16(o, buf, off) != 0 {
      SplitLengths(o, buf, off + U16(o, buf, off));
    }
  }

  /** A nonempty result means the buffer was well formed. */
  lemma RecordsMean(o: Order, buf: Bytes)
    ensures Records(o, buf) != [] ==> Split(o, buf, 0) == Some(Records(o, buf))
    ensures forall i :: 0 <= i < |Records(o, buf)| ==> |Records(o, buf)[i]| >= 16
  {
    if Split(o, buf, 0).Some? {
      SplitLengths(o, buf, 0);
    }
  }

  function MinLength(records: seq<Bytes>): nat
    requires records != []
  {
    if |records| == 1 then |records[0]|
    else
      var front := MinLength(records[..|records| - 1]);
      if front < |records[|records| - 1]| then front else |records[|records| - 1]|
  }

  lemma {:induction false} MinLengthMeans(records: seq<Bytes>)
    requires records != []
    ensures forall i :: 0 <= i < |records| ==> MinLength(records) <= |records[i]|
    decreases |records|
  {
    if |records| > 1 {
      MinLengthMeans(records[..|records| - 1]);
      assert records == records[..|records| - 1] + [records[|records| - 1]];
    }
  }

  // ------------------------------------------------------------------ the MAC offset

  ghost predicate Fits(records: seq<Bytes>, off: int, width: nat) {
    off >= 0 && forall i :: 0 <= i < |records| ==> off + width <= |records[i]|
  }

  function Macs(ref: seq<Station>): seq<Bytes> {
    seq(|ref|, i requires 0 <= i < |ref| => ref[i].mac)
  }

  ghost function MacsAt(records: seq<Bytes>, off: nat): seq<Bytes>
    requires Fits(records, off, 6)
  {
    seq(|records|, i requires 0 <= i < |records| => records[i][off..off + 6])
  }

  ghost predicate NoRepeat(macs: seq<Bytes>) { forall i, j :: 0 <= i < j < |macs| ==> macs[i] != macs[j] }

  /** Every record holds a listed MAC at `off`, no two the same. */
  ghost predicate MacOffset(records: seq<Bytes>, ref: seq<Station>, off: nat) {
    Fits(records, off, 6) && NoRepeat(MacsAt(records, off))
    && forall i :: 0 <= i < |records| ==> MacsAt(records, off)[i] in Macs(ref)
  }

  ghost predicate Listed(ref: seq<Station>, mac: Bytes, e: Station) { e in ref && e.mac == mac }

  /** The stations the records stand for, given the MAC offset. */
  ghost predicate Matched(records: seq<Bytes>, ref: seq<Station>, off: nat, matched: seq<Station>) {
    MacOffset(records, ref, off) && |matched| == |records|
    && forall i :: 0 <= i < |records| ==> Listed(ref, MacsAt(records, off)[i], matched[i])
  }

  // ------------------------------------------------------------------ other fields

  function Width(f: Field): nat {
    match f case Aid => 2 case Rssi => 1 case Idle => 2 case TxRate => 4 case RxRate => 4
  }

  predicate Known(f: Field, e: Station) {
    match f
    case Aid => e.aid != 0
    case Rssi => e.signalKnown
    case Idle => e.inactiveKnown && e.inactive >= 3000
    case TxRate => e.txKnown && e.txRate > 0
    case RxRate => e.rxKnown && e.rxRate > 0
  }

  function Raw(o: Order, f: Field, r: Bytes, off: nat): nat
    requires off + Width(f) <= |r|
  {
    match f
    case Aid => U16(o, r, off) % 0x4000
    case Rssi => r[off] as nat
    case Idle => U16(o, r, off)
    case TxRate => U32(o, r, off)
    case RxRate => U32(o, r, off)
  }

  predicate Accepts(f: Field, v: nat, e: Station, noise: int) {
    match f
    case Aid => v == e.aid
    case Rssi => Near(v, e.signal - noise, 1)
    case Idle => Near(v, e.inactive / 1000, 1)
    case TxRate => v > 0 && Near(v, e.txRate, 1000)
    case RxRate => v > 0 && Near(v, e.rxRate, 1000)
  }

  /** Field `f` may lie at `off`: outside the MAC, agreeing with every station that knows it,
      and at least one does. */
  ghost predicate Candidate(o: Order, records: seq<Bytes>, matched: seq<Station>, macOff: nat, noise: int, f: Field,
                            off: int) {
    && |matched| == |records|
    && off >= 2 && Fits(records, off, Width(f)) && !(off + Width(f) > macOff && off < macOff + 6)
    && (forall i :: 0 <= i < |records| && Known(f, matched[i]) ==>
        Accepts(f, Raw(o, f, records[i], off), matched[i], noise))
    && (exists i :: 0 <= i < |records| && Known(f, matched[i]))
  }

  /** The learned offset: the only candidate, or -1 when there is none or more than one. */
  ghost predicate Learned(o: Order, records: seq<Bytes>, matched: seq<Station>, macOff: nat, noise: int, f: Field,
                          found: int) {
    if found >= 0 then
      Candidate(o, records, matched, macOff, noise, f, found)
      && forall off :: Candidate(o, records, matched, macOff, noise, f, off) ==> off == found
    else
      found == -1
      && forall off :: Candidate(o, records, matched, macOff, noise, f, off) ==>
           exists other :: other != off && Candidate(o, records, matched, macOff, noise, f, other)
  }

  /** What a successful calibration has established. */
  ghost predicate Calibrated(o: Order, buf: Bytes, ref: seq<Station>, noise: int, l: Layout, matched: seq<Station>) {
    var records := Records(o, buf);
    && records != [] && |records| == |ref| && l.macOff >= 2
    && Matched(records, ref, l.macOff, matched)
    && (forall off :: 2 <= off < l.macOff ==> !MacOffset(records, ref, off))
    && forall f: Field :: Learned(o, records, matched, l.macOff, noise, f, Offset(l, f))
  }

  /** The records can be lined up with the list at all. */
  ghost predicate Alignable(o: Order, buf: Bytes, ref: seq<Station>) {
    var records := Records(o, buf);
    records != [] && |records| == |ref| && exists off :: off >= 2 && MacOffset(records, ref, off)
  }

  // ----------------------------------------------------------- calibration, the code

  /** The matching of one offset: the stations, or none when the offset is wrong. */
  method TryMacOffset(records: seq<Bytes>, ref: seq<Station>, off: nat) returns (ok: bool, matched: seq<Station>)
    requires Fits(records, off, 6)
    ensures ok <==> MacOffset(records, ref, off)
    ensures ok ==> Matched(records, ref, off, matched)
  {
    matched := [];
    var seen: set<Bytes> := {};
    for i := 0 to |records|
      invariant |matched| == i && Fits(records[..i], off, 6)
      invariant forall m :: m in seen <==> m in MacsAt(records[..i], off)
      invariant Matched(records[..i], ref, off, matched)
    {
      var mac := records[i][off..off + 6];
      Extend(records, ref, off, i);
      var found, e := Lookup(ref, mac);
      if !found || mac in seen {
        Broken(records, ref, off, i);
        return false, [];
      }
      seen := seen + {mac};
      matched := matched + [e];
    }
    assert records[..|records|] == records;
    ok := true;
  }

  /** `byMAC`: the last entry of the list with this MAC. */
  method Lookup(ref: seq<Station>, mac: Bytes) returns (found: bool, e: Station)
    ensures found <==> mac in Macs(ref)
    ensures found ==> Listed(ref, mac, e)
  {
    var i := |ref|;
    while i > 0
      invariant 0 <= i <= |ref|
      invariant forall j :: i <= j < |ref| ==> ref[j].mac != mac
    {
      i := i - 1;
      if ref[i].mac == mac {
        assert Macs(ref)[i] == mac;
        return true, ref[i];
      }
    }
    return false, Station([], 0, 0, false, 0, false, 0, false, 0, false, 0, false);
  }

  lemma Extend(records: seq<Bytes>, ref: seq<Station>, off: nat, i: nat)
    requires i < |records| && Fits(records, off, 6) && Fits(records[..i], off, 6)
    ensures Fits(records[..i + 1], off, 6)
    ensures MacsAt(records[..i + 1], off) == MacsAt(records[..i], off) + [records[i][off..off + 6]]
  {}

  lemma Broken(records: seq<Bytes>, ref: seq<Station>, off: nat, i: nat)
    requires i < |records| && Fits(records, off, 6) && Fits(records[..i], off, 6)
    requires records[i][off..off + 6] !in Macs(ref) || records[i][off..off + 6] in MacsAt(records[..i], off)
    ensures !MacOffset(records, ref, off)
  {
    var mac := records[i][off..off + 6];
    assert MacsAt(records, off)[i] == mac;
    if mac in MacsAt(records[..i], off) {
      var j :| 0 <= j < i && MacsAt(records[..i], off)[j] == mac;
      assert MacsAt(records, off)[j] == mac;
    }
  }

  method FindMacOffset(records: seq<Bytes>, ref: seq<Station>) returns (macOff: int, matched: seq<Station>)
    requires records != []
    ensures macOff == -1 || (macOff >= 2 && Matched(records, ref, macOff, matched))
    ensures forall off :: 2 <= off && (macOff == -1 || off < macOff) ==> !MacOffset(records, ref, off)
  {
    hide NoRepeat;
    var minLen := ShortestRecord(records);
    MinLengthMeans(records);
    var off := 2;
    while off + 6 <= minLen
      invariant 2 <= off
      invariant forall k :: 2 <= k < off ==> !MacOffset(records, ref, k)
    {
      var ok, m := TryMacOffset(records, ref, off);
      if ok {
        return off, m;
      }
      off := off + 1;
    }
    TooFar(records, minLen, 6);
    return -1, [];
  }

  method ShortestRecord(records: seq<Bytes>) returns (minLen: nat)
    requires records != []
    ensures minLen == MinLength(records)
  {
    minLen := |records[0]|;
    for i := 1 to |records|
      invariant minLen == MinLength(records[..i])
    {
      assert records[..i + 1][..i] == records[..i];
      if |records[i]| < minLen {
        minLen := |records[i]|;
      }
    }
    assert records[..|records|] == records;
  }

  lemma {:induction false} MinLengthReached(records: seq<Bytes>) returns (i: nat)
    requires records != []
    ensures i < |records| && |records[i]| == MinLength(records)
    decreases |records|
  {
    i := |records| - 1;
    if |records| > 1 {
      var j := MinLengthReached(records[..|records| - 1]);
      if |records[j]| < |records[i]| {
        i := j;
      }
    }
  }

  lemma TooFar(records: seq<Bytes>, minLen: nat, width: nat)
    requires records != [] && minLen == MinLength(records)
    ensures forall off :: off + width > minLen ==> !Fits(records, off, width)
  {
    var i := MinLengthReached(records);
  }

  /** Whether one offset is a candidate for a field. */
  method TryField(o: Order, records: seq<Bytes>, matched: seq<Station>, macOff: nat, noise: int, f: Field, off: nat)
    returns (ok: bool)
    requires |matched| == |records| && off >= 2 && Fits(records, off, Width(f))
             && !(off + Width(f) > macOff && off < macOff + 6)
    ensures ok <==> Candidate(o, records, matched, macOff, noise, f, off)
  {
    hide Raw, Accepts, Known;
    var evidence := 0;
    for i := 0 to |records|
      invariant forall j :: 0 <= j < i && Known(f, matched[j]) ==>
                  Accepts(f, Raw(o, f, records[j], off), matched[j], noise)
      invariant evidence > 0 <==> exists j :: 0 <= j < i && Known(f, matched[j])
      invariant evidence >= 0
    {
      if Known(f, matched[i]) {
        evidence := evidence + 1;
        if !Accepts(f, Raw(o, f, records[i], off), matched[i], noise) {
          return false;
        }
      }
    }
    ok := evidence != 0;
  }

  lemma Ambiguous(o: Order, records: seq<Bytes>, matched: seq<Station>, macOff: nat, noise: int, f: Field, a: int,
                  b: int)
    requires a != b && Candidate(o, records, matched, macOff, noise, f, a)
             && Candidate(o, records, matched, macOff, noise, f, b)
    ensures Learned(o, records, matched, macOff, noise, f, -1)
  {
    hide Candidate;
    forall off | Candidate(o, records, matched, macOff, noise, f, off)
      ensures exists other :: other != off && Candidate(o, records, matched, macOff, noise, f, other)
    {
      assert Candidate(o, records, matched, macOff, noise, f, if off == a then b else a);
    }
  }

  /** `unique`: keeps an offset only when it is the single one that agrees. */
  method FindUnique(o: Order, records: seq<Bytes>, matched: seq<Station>, macOff: nat, noise: int, f: Field)
      returns (found: int)
    requires records != [] && |matched| == |records|
    ensures Learned(o, records, matched, macOff, noise, f, found)
  {
    var minLen := ShortestRecord(records);
    MinLengthMeans(records);
    TooFar(records, minLen, Width(f));
    found := -1;
    var off := 2;
    while off + Width(f) <= minLen
      invariant off >= 2 && found >= -1 && found < off
      invariant found >= 0 ==> Candidate(o, records, matched, macOff, noise, f, found)
      invariant forall k :: k < off && Candidate(o, records, matched, macOff, noise, f, k) ==> k == found
    {
      if !(off + Width(f) > macOff && off < macOff + 6) {
        var ok := TryField(o, records, matched, macOff, noise, f, off);
        if ok {
          if found >= 0 {
            Ambiguous(o, records, matched, macOff, noise, f, found, off);
            return -1;
          }
          found := off;
        }
      }
      off := off + 1;
    }
    forall k | Candidate(o, records, matched, macOff, noise, f, k) ensures k == found && found >= 0 {
      assert Fits(records, k, Width(f));
    }
    OnlyCandidate(o, records, matched, macOff, noise, f, found);
  }

  lemma OnlyCandidate(o: Order, records: seq<Bytes>, matched: seq<Station>, macOff: nat, noise: int, f: Field,
                      found: int)
    requires found >= -1 && (found >= 0 ==> Candidate(o, records, matched, macOff, noise, f, found))
    requires forall k :: Candidate(o, records, matched, macOff, noise, f, k) ==> k == found && found >= 0
    ensures Learned(o, records, matched, macOff, noise, f, found)
  {
    hide Candidate;
  }

  /** `calibrateStaLayout`. */
  method CalibrateStaLayout(o: Order, buf: Bytes, ref: seq<Station>, noise: int)
    returns (layout: Layout, ok: bool, ghost matched: seq<Station>)
    ensures ok <==> Alignable(o, buf, ref) && layout.rssiOff >= 0 && (layout.txRateOff >= 0 || layout.rxRateOff >= 0)
    ensures Alignable(o, buf, ref) ==> Calibrated(o, buf, ref, noise, layout, matched)
  {
    hide Learned, MacOffset, Split;
    layout := Layout(-1, -1, -1, -1, -1, -1);
    matched := [];
    var records := SplitStaRecords(o, buf);
    if |records| == 0 || |records| != |ref| {
      return layout, false, matched;
    }
    var macOff, stations := FindMacOffset(records, ref);
    matched := stations;
    if macOff < 0 {
      return layout, false, matched;
    }
    MatchedLength(records, ref, macOff, stations);
    var aid := FindUnique(o, records, stations, macOff, noise, Aid);
    var rssi := FindUnique(o, records, stations, macOff, noise, Rssi);
    var idle := FindUnique(o, records, stations, macOff, noise, Idle);
    var tx := FindUnique(o, records, stations, macOff, noise, TxRate);
    var rx := FindUnique(o, records, stations, macOff, noise, RxRate);
    layout := Layout(macOff, aid, rssi, idle, tx, rx);
    ok := Usable(layout);
  }

  lemma MatchedLength(records: seq<Bytes>, ref: seq<Station>, off: nat, matched: seq<Station>)
    requires Matched(records, ref, off, matched)
    ensures |matched| == |records|
  {}

  // ------------------------------------------------------------------------ decoding

  /** One record decoded with a learned layout. */
  function DecodeRecord(o: Order, r: Bytes, l: Layout, noise: int, noiseKnown: bool): Option<Station>
    requires l.macOff >= 0
  {
    if l.macOff + 6 > |r| || !ValidMac(r[l.macOff..l.macOff + 6]) then None
    else
      var rssi := if 0 <= l.rssiOff < |r| then r[l.rssiOff] as int else 0;
      var heard := 0 < rssi < 128;
      var idle := 0 <= l.idleOff && l.idleOff + 2 <= |r|;
      var tx := 0 <= l.txRateOff && l.txRateOff + 4 <= |r|;
      var rx := 0 <= l.rxRateOff && l.rxRateOff + 4 <= |r|;
      Some(Station(
        r[l.macOff..l.macOff + 6],
        if 0 <= l.aidOff && l.aidOff + 2 <= |r| then U16(o, r, l.aidOff) % 0x4000 else 0,
        if heard then Clamp(noise + rssi) else 0, heard,
        if idle then U16(o, r, l.idleOff) * 1000 else 0, idle,
        if tx then U32(o, r, l.txRateOff) else 0, tx,
        if rx then U32(o, r, l.rxRateOff) else 0, rx,
        if noiseKnown then Clamp(noise) else 0, noiseKnown))
  }

  function DecodeAll(o: Order, records: seq<Bytes>, l: Layout, noise: int, noiseKnown: bool): Option<seq<Station>>
    requires l.macOff >= 0
  {
    if records == [] then Some([])
    else
      var front := DecodeAll(o, records[..|records| - 1], l, noise, noiseKnown);
      var last := DecodeRecord(o, records[|records| - 1], l, noise, noiseKnown);
      if front.None? || last.None? then None else Some(front.value + [last.value])
  }

  function Decode(o: Order, buf: Bytes, l: Layout, noise: int, noiseKnown: bool): Option<seq<Station>>
    requires l.macOff >= 0
  {
    if Split(o, buf, 0).None? then None else DecodeAll(o, Records(o, buf), l, noise, noiseKnown)
  }

  /** `decodeCalibratedStaInfo`. */
  method DecodeCalibratedStaInfo(o: Order, buf: Bytes, l: Layout, noise: int, noiseKnown: bool)
      returns (result: Option<seq<Station>>)
    requires l.macOff >= 0
    ensures result == Decode(o, buf, l, noise, noiseKnown)
  {
    hide DecodeRecord;
    var records := SplitStaRecords(o, buf);
    RecordsMean(o, buf);
    if records == [] && |buf| >= 16 && U16(o, buf, 0) != 0 {
      return None;
    }
    var out := [];
    for i := 0 to |records|
      invariant DecodeAll(o, records[..i], l, noise, noiseKnown) == Some(out)
    {
      assert records[..i + 1][..i] == records[..i];
      var e := DecodeRecord(o, records[i], l, noise, noiseKnown);
      if e.None? {
        FailsFrom(o, records, l, noise, noiseKnown, i + 1);
        return None;
      }
      out := out + [e.value];
    }
    assert records[..|records|] == records;
    result := Some(out);
  }

  lemma {:induction false} FailsFrom(o: Order, records: seq<Bytes>, l: Layout, noise: int, noiseKnown: bool, i: nat)
    requires l.macOff >= 0 && i <= |records| && DecodeAll(o, records[..i], l, noise, noiseKnown).None?
    ensures DecodeAll(o, records, l, noise, noiseKnown).None?
    decreases |records| - i
  {
    hide DecodeRecord;
    if i < |records| {
      assert records[..i + 1][..i] == records[..i];
      FailsFrom(o, records, l, noise, noiseKnown, i + 1);
    } else {
      assert records[..i] == records;
    }
  }

  lemma {:induction false} DecodesEach(o: Order, records: seq<Bytes>, l: Layout, noise: int, noiseKnown: bool)
    requires l.macOff >= 0 && forall i :: 0 <= i < |records| ==> DecodeRecord(o, records[i], l, noise, noiseKnown).Some?
    ensures var all := DecodeAll(o, records, l, noise, noiseKnown);
            && all.Some? && |all.value| == |records|
            && forall i :: 0 <= i < |records| ==>
                  all.value[i] == DecodeRecord(o, records[i], l, noise, noiseKnown).value
    decreases |records|
  {
    hide DecodeRecord;
    if records != [] {
      DecodesEach(o, records[..|records| - 1], l, noise, noiseKnown);
    }
  }

  // ---------------------------------------------------------------------- pigeonhole

  ghost function Elements(macs: seq<Bytes>): set<Bytes> { set m | m in macs }

  lemma {:induction false} NoRepeatCount(macs: seq<Bytes>)
    ensures |Elements(macs)| <= |macs|
    ensures |Elements(macs)| == |macs| <==> NoRepeat(macs)
    decreases |macs|
  {
    if macs == [] {
      assert Elements(macs) == {};
    } else {
      var front, last := macs[..|macs| - 1], macs[|macs| - 1];
      NoRepeatCount(front);
      assert macs == front + [last];
      assert Elements(macs) == Elements(front) + {last};
      if last in front {
        assert Elements(macs) == Elements(front);
        var j :| 0 <= j < |front| && front[j] == last;
        assert macs[j] == macs[|macs| - 1];
      } else {
        assert forall j :: 0 <= j < |front| ==> macs[j] == front[j] && front[j] in front;
      }
    }
  }

  lemma {:induction false} SameElements(a: seq<Bytes>, b: seq<Bytes>)
    requires NoRepeat(a) && NoRepeat(b) && Elements(a) == Elements(b)
    ensures multiset(a) == multiset(b)
  {
    forall m ensures multiset(a)[m] == multiset(b)[m] {
      OnceEach(a, m);
      OnceEach(b, m);
      assert m in a <==> m in Elements(a);
      assert m in b <==> m in Elements(b);
    }
  }

  lemma {:induction false} OnceEach(a: seq<Bytes>, m: Bytes)
    requires NoRepeat(a)
    ensures multiset(a)[m] == if m in a then 1 else 0
    decreases |a|
  {
    if a != [] {
      OnceEach(a[1..], m);
      assert a == [a[0]] + a[1..];
    }
  }

  /** As many distinct listed MACs as there are listed stations: they are all of them, each
      listed once. */
  lemma Pigeonhole(macs: seq<Bytes>, listed: seq<Bytes>)
    requires |macs| == |listed| && NoRepeat(macs) && forall i :: 0 <= i < |macs| ==> macs[i] in listed
    ensures multiset(macs) == multiset(listed) && NoRepeat(listed)
  {
    hide NoRepeat;
    NoRepeatCount(macs);
    NoRepeatCount(listed);
    assert Elements(macs) <= Elements(listed);
    SubsetSize(Elements(macs), Elements(listed));
    SameElements(macs, listed);
  }

  // -------------------------------------------------------------------- main result

  ghost predicate RefOk(ref: seq<Station>) {
    forall i :: 0 <= i < |ref| ==> ValidMac(ref[i].mac) && -128 <= ref[i].signal <= 127
  }

  predicate Reports(l: Layout, f: Field, d: Station) {
    match f
    case Aid => l.aidOff >= 0
    case Rssi => d.signalKnown
    case Idle => d.inactiveKnown
    case TxRate => d.txKnown
    case RxRate => d.rxKnown
  }

  /** The tolerance of each field; the idle time is whole seconds, give or take one. */
  predicate Agrees(f: Field, d: Station, e: Station) {
    match f
    case Aid => d.aid == e.aid
    case Rssi => Near(d.signal, e.signal, 1)
    case Idle => -2000 < d.inactive - e.inactive <= 1000
    case TxRate => Near(d.txRate, e.txRate, 1000)
    case RxRate => Near(d.rxRate, e.rxRate, 1000)
  }

  lemma FieldAgrees(o: Order, r: Bytes, e: Station, l: Layout, noise: int, noiseKnown: bool, f: Field)
    requires l.macOff >= 0 && l.macOff + 6 <= |r| && ValidMac(r[l.macOff..l.macOff + 6]) && -128 <= e.signal <= 127
    requires var off := Offset(l, f);
             off >= 0 && off + Width(f) <= |r| && Accepts(f, Raw(o, f, r, off), e, noise)
    ensures var d := DecodeRecord(o, r, l, noise, noiseKnown).value;
            Reports(l, f, d) ==> Agrees(f, d, e)
  {
    hide U16, U32, ValidMac;
    if f.Idle? {
      IdleTolerance(Raw(o, f, r, l.idleOff), e.inactive);
    }
  }

  lemma IdleTolerance(v: nat, inactive: nat)
    requires Near(v, inactive / 1000, 1)
    ensures -2000 < v * 1000 - inactive <= 1000
  {
    assert inactive == inactive / 1000 * 1000 + inactive % 1000;
  }

  /** If calibration succeeded against a list of valid MACs, decoding the same buffer with the
      learned layout succeeds, yields exactly the listed MACs in some order, each once, and
      agrees within tolerance on every learned field that the list knows and the decoder
      reports. */
  lemma CalibrationDecodesItself(o: Order, buf: Bytes, ref: seq<Station>, noise: int, noiseKnown: bool, l: Layout,
                                 matched: seq<Station>)
    requires RefOk(ref) && Calibrated(o, buf, ref, noise, l, matched)
    ensures var result := Decode(o, buf, l, noise, noiseKnown);
            && result.Some? && |result.value| == |ref| == |matched|
            && multiset(Macs(result.value)) == multiset(Macs(ref)) && NoRepeat(Macs(ref))
            && forall i :: 0 <= i < |ref| ==>
                 Listed(ref, result.value[i].mac, matched[i])
                 && forall f: Field :: Offset(l, f) >= 0 && Known(f, matched[i]) && Reports(l, f, result.value[i]) ==>
                      Agrees(f, result.value[i], matched[i])
  {
    hide Split, DecodeRecord, Raw, Accepts, Known, Reports, Agrees, NoRepeat, ValidMac;
    var records := Records(o, buf);
    RecordsMean(o, buf);
    forall i | 0 <= i < |records| ensures RecordDecodes(o, records[i], ref, noise, noiseKnown, l, matched[i]) {
      RecordDecodesAt(o, records, ref, noise, noiseKnown, l, matched, i);
    }
    DecodesEach(o, records, l, noise, noiseKnown);
    var result := Decode(o, buf, l, noise, noiseKnown).value;
    assert Macs(result) == MacsAt(records, l.macOff);
    Pigeonhole(MacsAt(records, l.macOff), Macs(ref));
  }

  ghost predicate RecordDecodes(o: Order, r: Bytes, ref: seq<Station>, noise: int, noiseKnown: bool, l: Layout,
                                e: Station)
    requires l.macOff >= 0
  {
    var d := DecodeRecord(o, r, l, noise, noiseKnown);
    && d.Some? && l.macOff + 6 <= |r| && d.value.mac == r[l.macOff..l.macOff + 6] && Listed(ref, d.value.mac, e)
    && forall f: Field :: Offset(l, f) >= 0 && Known(f, e) && Reports(l, f, d.value) ==> Agrees(f, d.value, e)
  }

  lemma RecordDecodesAt(o: Order, records: seq<Bytes>, ref: seq<Station>, noise: int, noiseKnown: bool, l: Layout,
                        matched: seq<Station>, i: nat)
    requires RefOk(ref) && l.macOff >= 2 && i < |records| && Matched(records, ref, l.macOff, matched)
    requires forall f: Field :: Learned(o, records, matched, l.macOff, noise, f, Offset(l, f))
    ensures RecordDecodes(o, records[i], ref, noise, noiseKnown, l, matched[i])
  {
    hide Raw, Accepts, Known, Reports, Agrees, NoRepeat, ValidMac, U16, U32;
    var e, mac := matched[i], MacsAt(records, l.macOff)[i];
    var j :| 0 <= j < |ref| && ref[j] == e;
    assert ValidMac(mac);
    forall f: Field | Offset(l, f) >= 0 && Known(f, e)
      ensures var d := DecodeRecord(o, records[i], l, noise, noiseKnown).value; Reports(l, f, d) ==> Agrees(f, d, e)
    {
      assert Candidate(o, records, matched, l.macOff, noise, f, Offset(l, f));
      FieldAgrees(o, records[i], e, l, noise, noiseKnown, f);
    }
  }

  // ------------------------------------------------------------- what decoding reports

  predicate InRecord(off: int, width: nat, r: Bytes) { off >= 0 && off + width <= |r| }

  /** A record is decoded exactly when it holds a valid MAC where the layout says; every learned
      field that fits the record is reported with the value stored there, the signal exactly for
      an RSSI from 1 to 127, and no other field is. */
  lemma DecodeReports(o: Order, r: Bytes, l: Layout, noise: int, noiseKnown: bool)
    requires l.macOff >= 0
    ensures DecodeRecord(o, r, l, noise, noiseKnown).Some? <==>
            InRecord(l.macOff, 6, r) && r[l.macOff] % 2 == 0 && r[l.macOff..l.macOff + 6] != [0, 0, 0, 0, 0, 0]
    ensures DecodeRecord(o, r, l, noise, noiseKnown).Some? ==>
              var d := DecodeRecord(o, r, l, noise, noiseKnown).value;
              && d.mac == r[l.macOff..l.macOff + 6]
              && d.aid == (if InRecord(l.aidOff, 2, r) then U16(o, r, l.aidOff) % 16384 else 0)
              && (d.signalKnown <==> InRecord(l.rssiOff, 1, r) && 1 <= r[l.rssiOff] <= 127)
              && (d.signalKnown && -128 <= noise + r[l.rssiOff] as int <= 127 ==>
                  d.signal == noise + r[l.rssiOff] as int)
              && (d.inactiveKnown <==> InRecord(l.idleOff, 2, r))
              && (d.inactiveKnown ==> d.inactive == 1000 * U16(o, r, l.idleOff))
              && (d.txKnown <==> InRecord(l.txRateOff, 4, r)) && (d.txKnown ==> d.txRate == U32(o, r, l.txRateOff))
              && (d.rxKnown <==> InRecord(l.rxRateOff, 4, r)) && (d.rxKnown ==> d.rxRate == U32(o, r, l.rxRateOff))
              && d.noiseKnown == noiseKnown && (noiseKnown && -128 <= noise <= 127 ==> d.noise == noise)
  {
    hide U16, U32;
    if InRecord(l.macOff, 6, r) {
      MacIsValid(r[l.macOff..l.macOff + 6]);
    }
  }

  /** Unicast and not all zero. */
  lemma MacIsValid(mac: Bytes)
    requires |mac| == 6
    ensures ValidMac(mac) <==> mac[0] % 2 == 0 && mac != [0, 0, 0, 0, 0, 0]
  {
    if forall i :: 0 <= i < 6 ==> mac[i] == 0 {
      assert mac == [0, 0, 0, 0, 0, 0];
    } else {
      var i :| 0 <= i < 6 && mac[i] != 0;
      assert [0, 0, 0, 0, 0, 0 as Byte][i] == 0;
    }
  }

  /** Two octets, in either order. */
  lemma NumbersMean(b: Bytes, i: nat)
    requires i + 4 <= |b|
    ensures U16(Little, b, i) == b[i] as nat + 256 * b[i + 1] as nat
    ensures U16(Big, b, i) == 256 * b[i] as nat + b[i + 1] as nat
    ensures U32(Little, b, i) ==
            b[i] as nat + 256 * b[i + 1] as nat + 65536 * b[i + 2] as nat + 16777216 * b[i + 3] as nat
    ensures U32(Big, b, i) ==
            16777216 * b[i] as nat + 65536 * b[i + 1] as nat + 256 * b[i + 2] as nat + b[i + 3] as nat
  {}

  /** An offset is learned only with evidence: a station for which the list gives an association
      id, a signal, an idle time of at least three seconds, or a rate above zero. */
  lemma LearnedNeedsEvidence(o: Order, buf: Bytes, ref: seq<Station>, noise: int, l: Layout, matched: seq<Station>)
    requires Calibrated(o, buf, ref, noise, l, matched)
    ensures l.aidOff >= 0 ==> exists e :: e in ref && e.aid != 0
    ensures l.rssiOff >= 0 ==> exists e :: e in ref && e.signalKnown
    ensures l.idleOff >= 0 ==> exists e :: e in ref && e.inactiveKnown && e.inactive >= 3000
    ensures l.txRateOff >= 0 ==> exists e :: e in ref && e.txKnown && e.txRate > 0
    ensures l.rxRateOff >= 0 ==> exists e :: e in ref && e.rxKnown && e.rxRate > 0
  {
    hide Calibrated;
    Evidence(o, buf, ref, noise, l, matched, Aid);
    Evidence(o, buf, ref, noise, l, matched, Rssi);
    Evidence(o, buf, ref, noise, l, matched, Idle);
    Evidence(o, buf, ref, noise, l, matched, TxRate);
    Evidence(o, buf, ref, noise, l, matched, RxRate);
  }

  lemma Evidence(o: Order, buf: Bytes, ref: seq<Station>, noise: int, l: Layout, matched: seq<Station>, f: Field)
    requires Calibrated(o, buf, ref, noise, l, matched)
    ensures Offset(l, f) >= 0 ==> exists e :: e in ref && Known(f, e)
  {
    hide Records, Raw, Accepts, Fits, NoRepeat, Known, Offset;
    var records := Records(o, buf);
    if Offset(l, f) >= 0 {
      assert Learned(o, records, matched, l.macOff, noise, f, Offset(l, f));
      var i :| 0 <= i < |records| && Known(f, matched[i]);
      assert Listed(ref, MacsAt(records, l.macOff)[i], matched[i]);
    }
  }

  function Concatenated(records: seq<Bytes>): Bytes {
    if records == [] then [] else records[0] + Concatenated(records[1..])
  }

  ghost predicate Counted(o: Order, records: seq<Bytes>) {
    forall r :: r in records ==> |r| >= 16 && U16(o, r, 0) == |r|
  }

  /** The records lie one after the other from `off` in the buffer, each as long as its first two
      octets say and at least 16, up to a place where less than 16 octets or a zero length
      follow. */
  ghost predicate LaidOut(o: Order, buf: Bytes, off: nat, records: seq<Bytes>) {
    var end := off + |Concatenated(records)|;
    && end <= |buf| && buf[off..end] == Concatenated(records) && Counted(o, records)
    && (end + 16 > |buf| || U16(o, buf, end) == 0)
  }

  lemma LaidOutOneMore(o: Order, buf: Bytes, off: nat, n: nat, records: seq<Bytes>)
    requires 16 <= n && off + n <= |buf| && n == U16(o, buf, off) && LaidOut(o, buf, off + n, records)
    ensures LaidOut(o, buf, off, [buf[off..off + n]] + records)
  {
    var head := buf[off..off + n];
    var all := [head] + records;
    assert all[1..] == records;
    assert Concatenated(all) == head + Concatenated(records);
    assert U16(o, head, 0) == n;
    var end := off + n + |Concatenated(records)|;
    assert buf[off..end] == head + buf[off + n..end];
  }

  /** Splitting from `off` gives such a layout, and nothing exactly when a length on the way does
      not fit. */
  lemma {:induction false} SplitMeans(o: Order, buf: Bytes, off: nat)
    requires off <= |buf|
    ensures var split := Split(o, buf, off);
            if split.Some? then LaidOut(o, buf, off, split.value) else exists at: nat :: Unfit(o, buf, at)
    decreases |buf| - off
  {
    hide U16, Concatenated;
    EmptyLaidOut(o, buf, off);
    if off + 16 <= |buf| {
      var n := U16(o, buf, off);
      if n != 0 && (n < 16 || off + n > |buf|) {
        assert Unfit(o, buf, off);
      } else if n != 0 {
        SplitMeans(o, buf, off + n);
        if Split(o, buf, off + n).Some? {
          LaidOutOneMore(o, buf, off, n, Split(o, buf, off + n).value);
        }
      }
    }
  }

  lemma EmptyLaidOut(o: Order, buf: Bytes, off: nat)
    ensures off <= |buf| && (off + 16 > |buf| || U16(o, buf, off) == 0) ==> LaidOut(o, buf, off, [])
  {}

  ghost predicate Unfit(o: Order, buf: Bytes, at: nat) {
    at + 16 <= |buf| && U16(o, buf, at) != 0 && (U16(o, buf, at) < 16 || at + U16(o, buf, at) > |buf|)
  }

  /** Which readings of a field speak for a station and which against it: the association id must be
      equal, the RSSI within 1 of signal less noise, the idle time within a second, and a rate above
      zero and within 1000. */
  lemma EvidenceMeans(f: Field, v: nat, e: Station, noise: int)
    ensures Known(f, e) && Accepts(f, v, e, noise) <==>
            match f
            case Aid => e.aid != 0 && v == e.aid
            case Rssi => e.signalKnown && -1 <= v - (e.signal - noise) <= 1
            case Idle => e.inactiveKnown && e.inactive >= 3000 && -1 <= v - e.inactive / 1000 <= 1
            case TxRate => e.txKnown && e.txRate > 0 && v > 0 && -1000 <= v - e.txRate <= 1000
            case RxRate => e.rxKnown && e.rxRate > 0 && v > 0 && -1000 <= v - e.rxRate <= 1000
    ensures Known(f, e) <==>
            match f
            case Aid => e.aid != 0
            case Rssi => e.signalKnown
            case Idle => e.inactiveKnown && e.inactive >= 3000
            case TxRate => e.txKnown && e.txRate > 0
            case RxRate => e.rxKnown && e.rxRate > 0
  {}
}
