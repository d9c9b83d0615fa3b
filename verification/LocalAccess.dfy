/** Tenant local-access routes: the control-message codecs, and the sync that prefers a
    directly connected LAN over an overlapping advertisement of another site. */
module LocalAccess {
  import opened Options
  import opened Octets
  import opened Cidr

  const MAX_ROUTES: nat := 16
  const ENTRY_SIZE: nat := 5
  const ADVERTISE: Byte := 6
  const APPLY: Byte := 7

  /** RFC 1918: 10/8, 172.16/12 and 192.168/16. */
  predicate IsPrivate(a: nat) {
    a / 0x100_0000 == 10 || a / 0x10_0000 == 172 * 16 + 1 || a / 0x1_0000 == 192 * 256 + 168
  }

  /** The three private blocks of section 3 of RFC 1918. */
  lemma PrivateMeans(a: nat)
    ensures IsPrivate(a) <==>
            || Contains(Prefix(0x0a00_0000, 8), a) || Contains(Prefix(0xac10_0000, 12), a)
            || Contains(Prefix(0xc0a8_0000, 16), a)
  {
    hide Shift;
    BlocksByDivision(a);
    BlocksByDivision(0x0a00_0000);
    BlocksByDivision(0xac10_0000);
    BlocksByDivision(0xc0a8_0000);
  }

  predicate ValidRoute(p: Prefix) { IsPrivate(p.addr) && 8 <= p.bits <= 32 }

  // -------------------------------------------------------- printed form and order

  function Decimal(n: nat): string {
    if n < 10 then ["0123456789"[n]] else Decimal(n / 10) + ["0123456789"[n % 10]]
  }

  function Printed(p: Prefix): string {
    Decimal(p.addr / 0x100_0000) + "." + Decimal(p.addr / 0x1_0000 % 256) + "." + Decimal(p.addr / 256 % 256) + "."
    + Decimal(p.addr % 256) + "/" + Decimal(p.bits)
  }

  /** Go's string order. */
  predicate Before(a: string, b: string) {
    b != "" && (a == "" || a[0] < b[0] || (a[0] == b[0] && Before(a[1..], b[1..])))
  }

  predicate NotAfter(p: Prefix, q: Prefix) { !Before(Printed(q), Printed(p)) }

  lemma {:induction false} BeforeTransitive(a: string, b: string, c: string)
    ensures !Before(b, a) && !Before(c, b) ==> !Before(c, a)
    ensures Before(a, b) ==> !Before(b, a)
    decreases |a|
  {
    if a != "" && b != "" {
      BeforeTransitive(a[1..], b[1..], if c == "" then "" else c[1..]);
    }
  }

  /** The order is lexicographic: a proper prefix comes first, else the first different character
      decides. */
  lemma {:induction false} BeforeMeans(a: string, b: string)
    ensures Before(a, b) <==> (a < b || exists i :: DecidesAt(a, b, i))
    decreases |a|
  {
    if a != "" && b != "" {
      BeforeMeans(a[1..], b[1..]);
      if a[0] == b[0] {
        assert a < b <==> a[1..] < b[1..] by {
          assert a == [a[0]] + a[1..] && b == [b[0]] + b[1..];
        }
        if i :| DecidesAt(a[1..], b[1..], i) {
          assert a[..i + 1] == [a[0]] + a[1..][..i] && b[..i + 1] == [b[0]] + b[1..][..i];
          assert DecidesAt(a, b, i + 1);
        }
        if i :| DecidesAt(a, b, i) {
          assert a[1..][..i - 1] == a[..i][1..] && b[1..][..i - 1] == b[..i][1..];
          assert DecidesAt(a[1..], b[1..], i - 1);
        }
      } else {
        if a[0] < b[0] {
          assert DecidesAt(a, b, 0);
        }
        if i :| DecidesAt(a, b, i) && i > 0 {
          assert a[..i][0] == b[..i][0];
        }
      }
    }
  }

  ghost predicate DecidesAt(a: string, b: string, i: int) {
    0 <= i < |a| && i < |b| && a[..i] == b[..i] && a[i] < b[i]
  }

  function DigitValue(c: char): int { c as int - '0' as int }

  function DecimalValue(s: string): int {
    if s == "" then 0 else 10 * DecimalValue(s[..|s| - 1]) + DigitValue(s[|s| - 1])
  }

  /** A number is printed in decimal digits without leading zeros. */
  lemma {:induction false} DecimalMeans(n: nat)
    ensures Decimal(n) != "" && DecimalValue(Decimal(n)) == n
    ensures (forall c :: c in Decimal(n) ==> '0' <= c <= '9') && (n > 0 ==> Decimal(n)[0] != '0')
  {
    var digit := "0123456789"[n % 10];
    assert DigitValue(digit) == n % 10;
    if n >= 10 {
      DecimalMeans(n / 10);
      assert Decimal(n)[..|Decimal(n)| - 1] == Decimal(n / 10);
    } else {
      assert Decimal(n)[..0] == "";
    }
  }

  lemma FourOctets(w: nat, x: nat, y: nat, z: nat)
    requires w < 256 && x < 256 && y < 256 && z < 256
    ensures var a := w * 0x100_0000 + x * 0x1_0000 + y * 256 + z;
            a / 0x100_0000 == w && a / 0x1_0000 % 256 == x && a / 256 % 256 == y && a % 256 == z
  {
    var a := w * 0x100_0000 + x * 0x1_0000 + y * 256 + z;
    var b := w * 0x1_0000 + x * 256 + y;
    var c := w * 256 + x;
    assert a == 256 * b + z && b == 256 * c + y && c == 256 * w + x;
    assert a / 256 == b && b / 256 == c && c / 256 == w;
    assert a / 0x1_0000 == c && a / 0x100_0000 == w;
  }

  lemma PrintedBy(p: Prefix, w: nat, x: nat, y: nat, z: nat)
    requires p.addr / 0x100_0000 == w && p.addr / 0x1_0000 % 256 == x && p.addr / 256 % 256 == y && p.addr % 256 == z
    ensures Printed(p) == Decimal(w) + "." + Decimal(x) + "." + Decimal(y) + "." + Decimal(z) + "/" + Decimal(p.bits)
  {
    hide Decimal;
  }

  /** A prefix is printed as its four octets and its length. */
  lemma PrintedMeans(p: Prefix, w: nat, x: nat, y: nat, z: nat)
    requires w < 256 && x < 256 && y < 256 && z < 256 && p.addr == w * 0x100_0000 + x * 0x1_0000 + y * 256 + z
    ensures Printed(p) == Decimal(w) + "." + Decimal(x) + "." + Decimal(y) + "." + Decimal(z) + "/" + Decimal(p.bits)
  {
    hide Decimal, Printed;
    FourOctets(w, x, y, z);
    PrintedBy(p, w, x, y, z);
  }

  ghost predicate SortedByText(ps: seq<Prefix>) {
    forall i, j :: 0 <= i < j < |ps| ==> NotAfter(ps[i], ps[j])
  }

  function Insert(ps: seq<Prefix>, p: Prefix): seq<Prefix> {
    if ps == [] then [p]
    else if NotAfter(p, ps[0]) then [p] + ps
    else [ps[0]] + Insert(ps[1..], p)
  }

  /** `sort.Slice` by printed form. */
  function Sort(ps: seq<Prefix>): seq<Prefix> {
    if ps == [] then [] else Insert(Sort(ps[1..]), ps[0])
  }

  lemma NotAfterOrder(p: Prefix, q: Prefix, r: Prefix)
    ensures NotAfter(p, q) && NotAfter(q, r) ==> NotAfter(p, r)
    ensures NotAfter(p, q) || NotAfter(q, p)
  {
    hide Before, Printed;
    BeforeTransitive(Printed(p), Printed(q), Printed(r));
  }

  lemma {:induction false} InsertPermutes(ps: seq<Prefix>, p: Prefix)
    ensures multiset(Insert(ps, p)) == multiset(ps) + multiset{p}
    decreases |ps|
  {
    hide NotAfter;
    if ps != [] {
      InsertPermutes(ps[1..], p);
      assert ps == [ps[0]] + ps[1..];
    }
  }

  lemma {:induction false} InsertMeans(ps: seq<Prefix>, p: Prefix)
    requires SortedByText(ps)
    ensures SortedByText(Insert(ps, p)) && multiset(Insert(ps, p)) == multiset(ps) + multiset{p}
    decreases |ps|
  {
    hide NotAfter;
    InsertPermutes(ps, p);
    if ps != [] {
      if NotAfter(p, ps[0]) {
        forall j | 0 <= j < |ps| ensures NotAfter(p, ps[j]) {
          NotAfterOrder(p, ps[0], ps[j]);
        }
      } else {
        InsertMeans(ps[1..], p);
        NotAfterOrder(p, ps[0], p);
        forall q | q in Insert(ps[1..], p) ensures NotAfter(ps[0], q) {
          assert q in multiset(Insert(ps[1..], p));
        }
      }
    }
  }

  lemma NothingSorted()
    ensures SortedByText([])
  {}

  lemma {:induction false} SortMeans(ps: seq<Prefix>)
    ensures SortedByText(Sort(ps)) && multiset(Sort(ps)) == multiset(ps)
    decreases |ps|
  {
    hide Insert, SortedByText;
    if ps == [] {
      NothingSorted();
    } else {
      SortMeans(ps[1..]);
      InsertMeans(Sort(ps[1..]), ps[0]);
      assert ps == [ps[0]] + ps[1..];
    }
  }

  // --------------------------------------------------------- reading the input routes

  /** First occurrences, in order. */
  function Distinct(ps: seq<Prefix>): seq<Prefix> {
    if ps == [] then []
    else
      var front, last := Distinct(ps[..|ps| - 1]), ps[|ps| - 1];
      if last in front then front else front + [last]
  }

  ghost predicate AllValid(ps: seq<Prefix>) { forall i :: 0 <= i < |ps| ==> Valid(ps[i]) }

  ghost function MaskAll(ps: seq<Prefix>): seq<Prefix>
    requires AllValid(ps)
  {
    seq(|ps|, i requires 0 <= i < |ps| => Masked(ps[i]))
  }

  ghost predicate NoDuplicates(ps: seq<Prefix>) { forall i, j :: 0 <= i < j < |ps| ==> ps[i] != ps[j] }

  lemma {:induction false} DistinctMeans(ps: seq<Prefix>)
    ensures NoDuplicates(Distinct(ps)) && |Distinct(ps)| <= |ps|
    ensures forall p :: p in Distinct(ps) <==> p in ps
    decreases |ps|
  {
    if ps != [] {
      DistinctMeans(ps[..|ps| - 1]);
      assert ps == ps[..|ps| - 1] + [ps[|ps| - 1]];
    }
  }

  lemma {:induction false} DistinctAlready(ps: seq<Prefix>)
    requires NoDuplicates(ps)
    ensures Distinct(ps) == ps
    decreases |ps|
  {
    if ps != [] {
      DistinctAlready(ps[..|ps| - 1]);
      assert ps == ps[..|ps| - 1] + [ps[|ps| - 1]];
    }
  }

  ghost predicate Readable(routes: seq<Option<Prefix>>) {
    forall i :: 0 <= i < |routes| ==> routes[i].Some? && Valid(routes[i].value) && ValidRoute(Masked(routes[i].value))
  }

  /** The masked prefixes of routes that parse. */
  ghost function Values(routes: seq<Option<Prefix>>): seq<Prefix>
    requires Readable(routes)
  {
    seq(|routes|, i requires 0 <= i < |routes| => Masked(routes[i].value))
  }

  /** `parseLocalAccessRoutes`; `None` stands for text that is not a prefix. */
  ghost function Parse(routes: seq<Option<Prefix>>): Option<seq<Prefix>> {
    if |routes| > MAX_ROUTES || !Readable(routes) then None else Some(Sort(Distinct(Values(routes))))
  }

  method ParseRoutes(routes: seq<Option<Prefix>>) returns (result: Option<seq<Prefix>>)
    requires forall i :: 0 <= i < |routes| && routes[i].Some? ==> Valid(routes[i].value)
    ensures result == Parse(routes)
  {
    hide Sort, Masked, ValidRoute;
    if |routes| > MAX_ROUTES {
      return None;
    }
    var prefixes := [];
    for i := 0 to |routes|
      invariant Readable(routes[..i]) && prefixes == Distinct(Values(routes[..i]))
    {
      assert routes[..i + 1][i] == routes[i];
      if routes[i].None? {
        return None;
      }
      var p := Masked(routes[i].value);
      if !ValidRoute(p) {
        return None;
      }
      assert Values(routes[..i + 1])[..i] == Values(routes[..i]);
      if p !in prefixes {
        prefixes := prefixes + [p];
      }
    }
    assert routes[..|routes|] == routes;
    result := Some(Sort(prefixes));
  }

  /** What parsing yields: sorted, without duplicates, exactly the masked inputs. */
  lemma ParseMeans(routes: seq<Option<Prefix>>)
    ensures Parse(routes).Some? ==>
              var ps := Parse(routes).value;
              && SortedByText(ps) && NoDuplicates(ps) && |ps| <= MAX_ROUTES
              && (forall p :: p in ps <==> p in Values(routes))
              && (forall p :: p in ps ==> Valid(p) && ValidRoute(p) && Masked(p) == p)
  {
    if Parse(routes).Some? {
      hide Sort, Masked, ValidRoute;
      var values := Values(routes);
      var once := Distinct(values);
      DistinctMeans(values);
      SortMeans(once);
      var ps := Sort(once);
      SameMultiset(once, ps);
      forall p | p in ps ensures Valid(p) && ValidRoute(p) && Masked(p) == p {
        assert p in values;
        var i :| 0 <= i < |routes| && values[i] == p;
        MaskedMeans(routes[i].value);
      }
    }
  }

  lemma SameMultiset(a: seq<Prefix>, b: seq<Prefix>)
    requires multiset(a) == multiset(b) && NoDuplicates(a)
    ensures NoDuplicates(b) && |a| == |b| && forall p :: p in b <==> p in a
  {
    assert |multiset(a)| == |a| && |multiset(b)| == |b|;
    forall p ensures p in b <==> p in a {
      assert p in multiset(a) <==> p in multiset(b);
    }
    forall i, j | 0 <= i < j < |b| ensures b[i] != b[j] {
      if b[i] == b[j] {
        TwiceCounts(b, i, j);
        OnceCounts(a, b[i]);
      }
    }
  }

  lemma TwiceCounts(b: seq<Prefix>, i: nat, j: nat)
    requires i < j < |b| && b[i] == b[j]
    ensures multiset(b)[b[i]] >= 2
  {
    assert b == b[..i] + [b[i]] + b[i + 1..j] + [b[j]] + b[j + 1..];
  }

  lemma {:induction false} OnceCounts(a: seq<Prefix>, p: Prefix)
    requires NoDuplicates(a)
    ensures multiset(a)[p] <= 1
    decreases |a|
  {
    if a != [] {
      OnceCounts(a[1..], p);
      assert a == [a[0]] + a[1..];
    }
  }

  // ---------------------------------------------------------------------- the codec

  function AddressBytes(a: nat): Bytes
    requires a < ADDRESSES
  {
    [(a / 0x100_0000) as Byte, (a / 0x1_0000 % 256) as Byte, (a / 256 % 256) as Byte, (a % 256) as Byte]
  }

  function AddressAt(data: Bytes, at: nat): nat
    requires at + 4 <= |data|
  {
    data[at] as nat * 0x100_0000 + data[at + 1] as nat * 0x1_0000 + data[at + 2] as nat * 256 + data[at + 3] as nat
  }

  lemma Digits(a: nat)
    ensures a == 256 * (256 * (256 * (a / 0x100_0000) + a / 0x1_0000 % 256) + a / 256 % 256) + a % 256
  {
    var b := a / 256;
    var c := b / 256;
    assert a == 256 * b + a % 256 && b == 256 * c + b % 256 && c == 256 * (c / 256) + c % 256;
    assert a / 0x1_0000 == c && a / 0x100_0000 == c / 256;
  }

  lemma AddressRoundTrip(a: nat, data: Bytes, at: nat)
    requires a < ADDRESSES && at + 4 <= |data| && data[at..at + 4] == AddressBytes(a)
    ensures AddressAt(data, at) == a
  {
    var bytes := data[at..at + 4];
    assert data[at] == bytes[0] && data[at + 1] == bytes[1] && data[at + 2] == bytes[2] && data[at + 3] == bytes[3];
    assert AddressAt(data, at) == AddressAt(bytes, 0);
    OctetsBack(a);
  }

  lemma OctetsBack(a: nat)
    requires a < ADDRESSES
    ensures AddressAt(AddressBytes(a), 0) == a
  {
    Digits(a);
    var w, x, y, z := a / 0x100_0000, a / 0x1_0000 % 256, a / 256 % 256, a % 256;
    assert w < 256;
    assert AddressAt(AddressBytes(a), 0) == w * 0x100_0000 + x * 0x1_0000 + y * 256 + z;
  }

  ghost predicate Encodable(ps: seq<Prefix>) { |ps| <= MAX_ROUTES && AllValid(ps) }

  function EntryBytes(p: Prefix): Bytes
    requires Valid(p)
  {
    [p.bits as Byte] + AddressBytes(p.addr)
  }

  ghost function EncodeEntries(ps: seq<Prefix>): (data: Bytes)
    requires AllValid(ps)
    ensures |data| == |ps| * ENTRY_SIZE
  {
    if ps == [] then [] else EncodeEntries(ps[..|ps| - 1]) + EntryBytes(ps[|ps| - 1])
  }

  /** `EncodeLocalAccessAdvertisement` on parsed routes. */
  ghost function EncodeAdvertisement(ps: seq<Prefix>): Bytes
    requires Encodable(ps)
  {
    [ADVERTISE, |ps| as Byte] + EncodeEntries(ps)
  }

  /** `encodeLocalAccessRouteUpdate`: validates each route as given, then masks it. */
  ghost function EncodeUpdate(owner: Bytes, routes: seq<Prefix>): Option<Bytes>
    requires |owner| == 32 && AllValid(routes)
  {
    if |routes| > MAX_ROUTES || exists i :: 0 <= i < |routes| && !ValidRoute(routes[i]) then None
    else
      MaskedValid(routes);
      Some([APPLY] + owner + [|routes| as Byte] + EncodeEntries(MaskAll(routes)))
  }

  lemma MaskedValid(ps: seq<Prefix>)
    requires AllValid(ps)
    ensures AllValid(MaskAll(ps))
  {
    forall i | 0 <= i < |ps| ensures Valid(Masked(ps[i])) {
      MaskedMeans(ps[i]);
    }
  }

  function RouteAt(data: Bytes, at: nat): Prefix
    requires at + ENTRY_SIZE <= |data| && data[at] <= 32
  {
    Masked(Prefix(AddressAt(data, at + 1), data[at] as nat))
  }

  /** The first `n` entries after the header, de-duplicated; `None` when one is refused. */
  function DecodeEntries(data: Bytes, start: nat, n: nat): Option<seq<Prefix>>
    requires start + n * ENTRY_SIZE <= |data|
    decreases n
  {
    if n == 0 then Some([])
    else
      var front, at := DecodeEntries(data, start, n - 1), start + (n - 1) * ENTRY_SIZE;
      if front.None? || data[at] < 8 || data[at] > 32 || !IsPrivate(RouteAt(data, at).addr) then None
      else if RouteAt(data, at) in front.value then front
      else Some(front.value + [RouteAt(data, at)])
  }

  /** `decodeLocalAccessRoutes`. */
  function DecodeRoutes(data: Bytes, header: nat): Option<seq<Prefix>> {
    if |data| < header + 1 then None
    else
      var count := data[header] as nat;
      if count > MAX_ROUTES || |data| != header + 1 + count * ENTRY_SIZE then None
      else DecodeEntries(data, header + 1, count)
  }

  method Decode(data: Bytes, header: nat) returns (result: Option<seq<Prefix>>)
    ensures result == DecodeRoutes(data, header)
  {
    hide DecodeEntries;
    if |data| < header + 1 {
      return None;
    }
    var count := data[header] as nat;
    if count > MAX_ROUTES || |data| != header + 1 + count * ENTRY_SIZE {
      return None;
    }
    result := DecodeList(data, header + 1, count);
  }

  method DecodeList(data: Bytes, start: nat, count: nat) returns (result: Option<seq<Prefix>>)
    requires start + count * ENTRY_SIZE <= |data|
    ensures result == DecodeEntries(data, start, count)
  {
    hide RouteAt, IsPrivate;
    var prefixes := [];
    for i := 0 to count
      invariant DecodeEntries(data, start, i) == Some(prefixes)
    {
      var at := start + i * ENTRY_SIZE;
      if data[at] < 8 || data[at] > 32 {
        Refused(data, start, i + 1, count);
        return None;
      }
      var p := RouteAt(data, at);
      if !IsPrivate(p.addr) {
        Refused(data, start, i + 1, count);
        return None;
      }
      if p !in prefixes {
        prefixes := prefixes + [p];
      }
    }
    result := Some(prefixes);
  }

  lemma {:induction false} Refused(data: Bytes, start: nat, n: nat, count: nat)
    requires start + count * ENTRY_SIZE <= |data| && n <= count && DecodeEntries(data, start, n).None?
    ensures DecodeEntries(data, start, count).None?
    decreases count - n
  {
    if n < count {
      Refused(data, start, n + 1, count);
    }
  }

  /** Entry `i` of a route list: a length from 8 to 32 and a private network. */
  ghost predicate EntryGood(data: Bytes, start: nat, i: nat)
    requires start + (i + 1) * 5 <= |data|
  {
    var at := start + i * 5;
    8 <= data[at] <= 32 && IsPrivate(RouteAt(data, at).addr)
  }

  ghost predicate AllGood(data: Bytes, start: nat, n: nat)
    requires start + n * 5 <= |data|
  {
    forall i :: 0 <= i < n ==> EntryGood(data, start, i)
  }

  /** A list decodes exactly when every entry is good, to each of its masked routes once. */
  lemma {:induction false} EntriesMean(data: Bytes, start: nat, n: nat)
    requires start + n * ENTRY_SIZE <= |data|
    ensures DecodeEntries(data, start, n).Some? <==> AllGood(data, start, n)
    ensures var r := DecodeEntries(data, start, n);
            r.Some? ==> NoDuplicates(r.value) && forall p :: p in r.value <==> ListedIn(data, start, n, p)
    decreases n
  {
    hide RouteAt, IsPrivate;
    if n > 0 {
      EntriesMean(data, start, n - 1);
      var front, whole := DecodeEntries(data, start, n - 1), DecodeEntries(data, start, n);
      assert whole.Some? <==> front.Some? && EntryGood(data, start, n - 1);
      assert AllGood(data, start, n) <==> AllGood(data, start, n - 1) && EntryGood(data, start, n - 1);
      if whole.Some? {
        forall p ensures p in whole.value <==> ListedIn(data, start, n, p) {
          assert p in whole.value <==> p in front.value || p == RouteAt(data, start + (n - 1) * 5);
          if p == RouteAt(data, start + (n - 1) * 5) {
            assert EntryGood(data, start, n - 1);
          }
        }
      }
    }
  }

  ghost predicate ListedIn(data: Bytes, start: nat, n: nat, p: Prefix)
    requires start + n * 5 <= |data|
  {
    exists i :: 0 <= i < n && EntryGood(data, start, i) && p == RouteAt(data, start + i * 5)
  }

  /** A message decodes exactly when it is as long as its count of at most 16 says and every entry
      is good; and then to exactly the masked routes it lists, each once. */
  lemma DecodeMeans(data: Bytes, header: nat)
    ensures DecodeRoutes(data, header).Some? <==>
            && |data| > header && data[header] <= 16 && |data| == header + 1 + data[header] as nat * 5
            && AllGood(data, header + 1, data[header] as nat)
    ensures var r := DecodeRoutes(data, header);
            r.Some? ==> NoDuplicates(r.value)
                        && forall p :: p in r.value <==> ListedIn(data, header + 1, data[header] as nat, p)
  {
    hide DecodeEntries, RouteAt, IsPrivate;
    if |data| > header && data[header] <= 16 && |data| == header + 1 + data[header] as nat * 5 {
      EntriesMean(data, header + 1, data[header] as nat);
    }
  }

  function DecodeUpdate(data: Bytes): Option<(Bytes, Option<seq<Prefix>>)> {
    if |data| < 34 then None else Some((data[1..33], DecodeRoutes(data, 33)))
  }

  /** Where entry `i` of an encoded list lies. */
  lemma {:induction false} EntryAt(ps: seq<Prefix>, i: nat)
    requires i < |ps| && AllValid(ps)
    ensures EncodeEntries(ps)[i * ENTRY_SIZE..(i + 1) * ENTRY_SIZE] == EntryBytes(ps[i])
    decreases |ps|
  {
    hide EntryBytes;
    if i < |ps| - 1 {
      var front := ps[..|ps| - 1];
      EntryAt(front, i);
      var from, to := i * ENTRY_SIZE, (i + 1) * ENTRY_SIZE;
      assert EncodeEntries(ps)[from..to] == EncodeEntries(front)[from..to];
    }
  }

  lemma EncodedRouteAt(ps: seq<Prefix>, head: Bytes, i: nat)
    requires i < |ps| && AllValid(ps)
    ensures var data, at := head + EncodeEntries(ps), |head| + i * ENTRY_SIZE;
            at + ENTRY_SIZE <= |data| && data[at] as nat == ps[i].bits && RouteAt(data, at) == Masked(ps[i])
  {
    hide EncodeEntries, Masked;
    EntryAt(ps, i);
    var data, at := head + EncodeEntries(ps), |head| + i * ENTRY_SIZE;
    var entry := data[at..at + ENTRY_SIZE];
    assert entry == EncodeEntries(ps)[i * ENTRY_SIZE..(i + 1) * ENTRY_SIZE];
    assert entry == EntryBytes(ps[i]);
    assert data[at] == entry[0] && data[at + 1..at + 5] == entry[1..5];
    AddressRoundTrip(ps[i].addr, data, at + 1);
  }

  ghost predicate AllPrivate(ps: seq<Prefix>) { forall i :: 0 <= i < |ps| ==> IsPrivate(ps[i].addr) && ps[i].bits >= 8 }

  /** Decoding encoded masked routes: they come back de-duplicated, unless one is not private. */
  lemma {:induction false} DecodeEncoded(ps: seq<Prefix>, head: Bytes, n: nat)
    requires n <= |ps| && AllValid(ps) && forall i :: 0 <= i < |ps| ==> Masked(ps[i]) == ps[i]
    ensures |head + EncodeEntries(ps)| == |head| + |ps| * ENTRY_SIZE
    ensures DecodeEntries(head + EncodeEntries(ps), |head|, n)
            == if AllPrivate(ps[..n]) then Some(Distinct(ps[..n])) else None
    decreases n
  {
    hide EncodeEntries, Masked, RouteAt, IsPrivate;
    if n > 0 {
      DecodeEncoded(ps, head, n - 1);
      EncodedRouteAt(ps, head, n - 1);
      assert ps[..n][..n - 1] == ps[..n - 1] && ps[..n][n - 1] == ps[n - 1];
      assert AllPrivate(ps[..n]) <==> AllPrivate(ps[..n - 1]) && IsPrivate(ps[n - 1].addr) && ps[n - 1].bits >= 8;
    }
  }

  // ------------------------------------------------------------------ round trips

  /** Decoding an encoded advertisement gives exactly the parsed routes: the input sorted,
      de-duplicated and masked. */
  lemma AdvertisementRoundTrip(routes: seq<Option<Prefix>>)
    ensures Parse(routes).Some? ==>
              && Encodable(Parse(routes).value)
              && DecodeRoutes(EncodeAdvertisement(Parse(routes).value), 1) == Parse(routes)
  {
    hide Parse, Sort, Masked, IsPrivate, EncodeEntries, DecodeEntries, Values, Distinct, SortedByText;
    ParseMeans(routes);
    if Parse(routes).Some? {
      var ps := Parse(routes).value;
      assert forall i :: 0 <= i < |ps| ==> ps[i] in ps;
      var head := [ADVERTISE, |ps| as Byte];
      DecodeEncoded(ps, head, |ps|);
      assert ps[..|ps|] == ps;
      DistinctAlready(ps);
    }
  }

  /** The owner update comes back with the same owner and the de-duplicated masked routes if
      and only if every masked route is still private; validation happens before masking, so
      a route such as 172.16.0.0/8 is encoded and then refused. */
  lemma UpdateRoundTrip(owner: Bytes, routes: seq<Prefix>)
    requires |owner| == 32 && AllValid(routes)
    ensures EncodeUpdate(owner, routes).Some? ==>
              var decoded := DecodeUpdate(EncodeUpdate(owner, routes).value);
              && decoded.Some? && decoded.value.0 == owner
              && (AllPrivate(MaskAll(routes)) ==> decoded.value.1 == Some(Distinct(MaskAll(routes))))
              && (!AllPrivate(MaskAll(routes)) ==> decoded.value.1 == None)
  {
    hide Masked, IsPrivate, EncodeEntries, DecodeEntries, Distinct;
    if EncodeUpdate(owner, routes).Some? {
      var ps := MaskAll(routes);
      MaskedValid(routes);
      forall i | 0 <= i < |ps| ensures Masked(ps[i]) == ps[i] {
        MaskedMeans(routes[i]);
      }
      var head := [APPLY] + owner + [|routes| as Byte];
      DecodeEncoded(ps, head, |ps|);
      assert ps[..|ps|] == ps;
      var data := head + EncodeEntries(ps);
      assert data == EncodeUpdate(owner, routes).value;
      assert data[1..33] == owner && data[33] == |routes| as Byte;
    }
  }

  /** Already masked private routes always survive. */
  lemma MaskedUpdateSurvives(routes: seq<Prefix>)
    requires AllValid(routes)
    requires forall i :: 0 <= i < |routes| ==> Masked(routes[i]) == routes[i] && ValidRoute(routes[i])
    ensures AllPrivate(MaskAll(routes)) && MaskAll(routes) == routes
  {
    hide Masked, IsPrivate;
  }

  /** 172.16.0.0/8 passes the encoder's check and is refused by the decoder. */
  lemma UnmaskedUpdateCanFail()
    ensures var p := Prefix(0xac10_0000, 8); AllValid([p]) && ValidRoute(p) && !AllPrivate(MaskAll([p]))
  {
    hide Clear;
    var p := Prefix(0xac10_0000, 8);
    ClearNone(0xac);
    Clear4(0xac1, 0);
    Clear4(0xac10, 4);
    Clear4(0xac100, 8);
    Clear4(0xac1000, 12);
    Clear4(0xac10000, 16);
    Clear4(0xac10_0000, 20);
    assert MaskAll([p])[0] == Prefix(0xac00_0000, 8);
  }

  lemma ClearNone(a: nat)
    ensures Clear(a, 0) == a
  {}

  lemma Clear4(a: nat, k: nat)
    ensures Clear(a, k + 4) == 16 * Clear(a / 16, k)
  {
    assert Clear(a, k + 4) == 2 * Clear(a / 2, k + 3) && Clear(a / 2, k + 3) == 2 * Clear(a / 4, k + 2);
    assert Clear(a / 4, k + 2) == 2 * Clear(a / 8, k + 1) && Clear(a / 8, k + 1) == 2 * Clear(a / 16, k);
  }

  /** Both encoders' loop: a header, then one five-byte entry per route. */
  method Encode(head: Bytes, ps: seq<Prefix>) returns (data: Bytes)
    requires AllValid(ps)
    ensures data == head + EncodeEntries(ps)
  {
    hide EntryBytes;
    data := head;
    for i := 0 to |ps|
      invariant data == head + EncodeEntries(ps[..i])
    {
      data := data + EntryBytes(ps[i]);
      assert ps[..i + 1][..i] == ps[..i];
      assert data == head + (EncodeEntries(ps[..i]) + EntryBytes(ps[i]));
    }
    assert ps[..|ps|] == ps;
  }

  // ------------------------------------------------------------------------- the sync

  /** `routeOverlapsAny`. */
  method OverlapsAny(route: Prefix, candidates: seq<Prefix>) returns (overlaps: bool)
    requires Valid(route) && AllValid(candidates)
    ensures overlaps <==> exists i :: 0 <= i < |candidates| && ShareAddress(route, candidates[i])
  {
    hide Contains, Masked, ShareAddress;
    var prefix := Masked(route);
    for k := 0 to |candidates|
      invariant forall i :: 0 <= i < k ==> !ShareAddress(route, candidates[i])
    {
      var other := Masked(candidates[k]);
      MaskedOverlap(route, candidates[k]);
      if Contains(prefix, other.addr) || Contains(other, prefix.addr) {
        return true;
      }
    }
    return false;
  }

  lemma MaskedOverlap(p: Prefix, q: Prefix)
    requires Valid(p) && Valid(q)
    ensures Contains(Masked(p), Masked(q).addr) || Contains(Masked(q), Masked(p).addr) <==> ShareAddress(p, q)
  {
    hide Contains, Masked;
    MaskedMeans(p);
    MaskedMeans(q);
    OverlapIsExact(Masked(p), Masked(q));
  }

  ghost function Members(ps: seq<Prefix>): set<Prefix> { set p | p in ps }

  lemma MembersAppend(ps: seq<Prefix>, p: Prefix)
    ensures Members(ps + [p]) == Members(ps) + {p}
  {}

  lemma SortKeeps(ps: seq<Prefix>)
    requires NoDuplicates(ps)
    ensures SortedByText(Sort(ps)) && NoDuplicates(Sort(ps)) && Members(Sort(ps)) == Members(ps)
  {
    hide SortedByText, Sort, NoDuplicates;
    SortMeans(ps);
    SameMultiset(ps, Sort(ps));
  }

  ghost function Advertised(byOwner: map<Bytes, seq<Prefix>>): set<Prefix> {
    set owner, i | owner in byOwner && 0 <= i < |byOwner[owner]| :: byOwner[owner][i]
  }

  /** The advertised routes disjoint from every selected local LAN. */
  ghost function Wanted(byOwner: map<Bytes, seq<Prefix>>, local: seq<Prefix>): set<Prefix>
    requires AllValid(local)
  {
    set r | r in Advertised(byOwner) && Valid(r) && forall i :: 0 <= i < |local| ==> !ShareAddress(r, local[i])
  }

  ghost predicate ClearOf(r: Prefix, local: seq<Prefix>)
    requires AllValid(local)
  {
    Valid(r) ==> forall j :: 0 <= j < |local| ==> !ShareAddress(r, local[j])
  }

  /** What the agent believes is installed, and what is. */
  datatype Routing = Routing(recorded: set<Prefix>, installed: set<Prefix>)

  /** One synchronisation: what it wanted, whether it went through, and what it changed. */
  datatype Attempt = Attempt(wanted: set<Prefix>, ok: bool, removed: set<Prefix>, added: set<Prefix>)

  ghost predicate Possible(s: Routing, a: Attempt) {
    && a.removed <= s.recorded - a.wanted && a.added <= a.wanted - s.recorded
    && (a.added != {} || a.ok ==> a.removed == s.recorded - a.wanted)
    && (a.ok ==> a.added == a.wanted - s.recorded)
  }

  function Synced(s: Routing, a: Attempt): Routing {
    Routing(if a.ok then a.wanted else s.recorded, s.installed - a.removed + a.added)
  }

  /** The routes of `list` that are not in `others`, in order. */
  function Only(list: seq<Prefix>, others: seq<Prefix>): seq<Prefix> {
    if list == [] then []
    else
      var last := list[|list| - 1];
      Only(list[..|list| - 1], others) + if last in others then [] else [last]
  }

  /** What one synchronisation does: removals in the order of the record, then additions in the
      order of the wanted list, until `commands` of them have succeeded. */
  ghost function AttemptOf(recorded: seq<Prefix>, system: seq<Prefix>, peerUpdated: bool, commands: nat): Attempt {
    var stale, missing, wanted := Only(recorded, system), Only(system, recorded), Members(system);
    if !peerUpdated then Attempt(wanted, false, {}, {})
    else if commands < |stale| then Attempt(wanted, false, Members(stale[..commands]), {})
    else if commands - |stale| < |missing| then
      Attempt(wanted, false, Members(stale), Members(missing[..commands - |stale|]))
    else Attempt(wanted, true, Members(stale), Members(missing))
  }

  lemma {:induction false} OnlyMeans(list: seq<Prefix>, others: seq<Prefix>)
    ensures Members(Only(list, others)) == Members(list) - Members(others)
    decreases |list|
  {
    if list != [] {
      var front, last := list[..|list| - 1], list[|list| - 1];
      assert list == front + [last];
      OnlyMeans(front, others);
      MembersAppend(front, last);
      MembersAppend(Only(front, others), last);
      assert Only(front, others) + [] == Only(front, others);
      assert last in others <==> last in Members(others);
    }
  }

  /** One more element, and what has been collected is the beginning of the whole. */
  lemma {:induction false} OnlyStep(list: seq<Prefix>, others: seq<Prefix>, i: nat)
    requires i < |list|
    ensures Only(list[..i + 1], others) == Only(list[..i], others) + if list[i] in others then [] else [list[i]]
    ensures |Only(list[..i], others)| <= |Only(list, others)|
    ensures Only(list, others)[..|Only(list[..i], others)|] == Only(list[..i], others)
    ensures list[i] !in others ==> |Only(list[..i], others)| < |Only(list, others)|
    decreases |list| - i
  {
    assert list[..i + 1][..i] == list[..i];
    if i + 1 < |list| {
      OnlyStep(list, others, i + 1);
    } else {
      assert list[..i + 1] == list;
    }
  }

  lemma MembersPrefix(list: seq<Prefix>, n: nat)
    requires n <= |list|
    ensures Members(list[..n]) <= Members(list) && (n == 0 ==> Members(list[..n]) == {})
  {}

  /** Every synchronisation is one of the attempts that the runs below are made of. */
  lemma AttemptIsPossible(recorded: seq<Prefix>, installed: set<Prefix>, system: seq<Prefix>, peerUpdated: bool,
                          commands: nat)
    ensures Possible(Routing(Members(recorded), installed), AttemptOf(recorded, system, peerUpdated, commands))
  {
    hide Only, Members;
    OnlyMeans(recorded, system);
    OnlyMeans(system, recorded);
    var stale, missing := Only(recorded, system), Only(system, recorded);
    if commands < |stale| {
      MembersPrefix(stale, commands);
    } else if commands - |stale| < |missing| {
      MembersPrefix(missing, commands - |stale|);
    }
  }

  class Device {
    var byOwner: map<Bytes, seq<Prefix>>
    /** `localAccessRoutes`: what the agent believes is installed. */
    var recorded: seq<Prefix>
    /** The routes on the tunnel in the operating system. */
    var installed: set<Prefix>

    constructor ()
      ensures byOwner == map[] && recorded == [] && installed == {}
    {
      byOwner, recorded, installed := map[], [], {};
    }

    method Collect() returns (desired: set<Prefix>)
      ensures desired == Advertised(byOwner)
    {
      desired := {};
      var todo := byOwner.Keys;
      while todo != {}
        invariant todo <= byOwner.Keys
        invariant desired ==
                  set owner, i | owner in byOwner && owner !in todo && 0 <= i < |byOwner[owner]| :: byOwner[owner][i]
        decreases |todo|
      {
        var owner :| owner in todo;
        todo := todo - {owner};
        desired := desired + set i | 0 <= i < |byOwner[owner]| :: byOwner[owner][i];
      }
    }

    static method SortedList(routes: set<Prefix>) returns (list: seq<Prefix>)
      ensures SortedByText(list) && NoDuplicates(list) && Members(list) == routes
    {
      hide SortedByText, Sort;
      list := [];
      var todo := routes;
      while todo != {}
        invariant todo <= routes && NoDuplicates(list) && Members(list) == routes - todo
        decreases |todo|
      {
        var r :| r in todo;
        todo := todo - {r};
        assert r !in Members(list);
        MembersAppend(list, r);
        list := list + [r];
      }
      SortKeeps(list);
      list := Sort(list);
    }

    static method Disjoint(desired: seq<Prefix>, local: seq<Prefix>) returns (kept: seq<Prefix>)
      requires AllValid(desired) && AllValid(local) && SortedByText(desired) && NoDuplicates(desired)
      ensures SortedByText(kept) && NoDuplicates(kept)
      ensures forall r :: r in kept <==> r in desired && ClearOf(r, local)
    {
      hide ShareAddress, NotAfter;
      kept := [];
      for i := 0 to |desired|
        invariant SortedByText(kept) && NoDuplicates(kept)
        invariant forall r :: r in kept <==> r in desired[..i] && ClearOf(r, local)
      {
        var overlaps := OverlapsAny(desired[i], local);
        assert desired[i] !in desired[..i];
        if !overlaps {
          forall k | 0 <= k < |kept| ensures NotAfter(kept[k], desired[i]) {
            assert kept[k] in desired[..i];
          }
          kept := kept + [desired[i]];
        }
        assert desired[..i + 1] == desired[..i] + [desired[i]];
      }
      assert desired[..|desired|] == desired;
    }

    /** `syncLocalAccessRoutes`: `commands` says how many route commands of the operating
        system succeed before one fails. */
    method Sync(local: seq<Prefix>, peerUpdated: bool, commands: nat) returns (ok: bool, ghost system: seq<Prefix>)
      requires AllValid(local) && forall r :: r in Advertised(byOwner) ==> Valid(r)
      modifies this`recorded, this`installed
      ensures Members(system) == Wanted(byOwner, local) && NoDuplicates(system) && SortedByText(system)
      ensures var attempt := AttemptOf(old(recorded), system, peerUpdated, commands);
              ok == attempt.ok && View() == Synced(old(View()), attempt)
      ensures recorded == if ok then system else old(recorded)
    {
      hide SortedByText, ShareAddress, Wanted;
      var advertised := Collect();
      var desired := SortedList(advertised);
      forall i | 0 <= i < |desired| ensures Valid(desired[i]) {
        assert desired[i] in Members(desired);
      }
      var list := Disjoint(desired, local);
      MembersWanted(byOwner, local, desired, list);
      system := list;
      if !peerUpdated {
        return false, system;
      }
      var left: int := RemoveStale(list, commands);
      if left < 0 {
        return false, system;
      }
      ok := AddMissing(list, left);
      if ok {
        recorded := list;
      }
    }

    ghost function View(): Routing reads this { Routing(Members(recorded), installed) }

    /** Removes recorded routes no longer wanted, in the order of the record; the result is
        negative when one failed. */
    method RemoveStale(system: seq<Prefix>, commands: nat) returns (left: int)
      modifies this`installed
      ensures var stale := Only(recorded, system);
              && installed == old(installed) - Members(stale[..if commands < |stale| then commands else |stale|])
              && left == if commands < |stale| then -1 else commands - |stale|
    {
      left := commands;
      for i := 0 to |recorded|
        invariant left == commands - |Only(recorded[..i], system)| >= 0
        invariant installed == old(installed) - Members(Only(recorded[..i], system))
      {
        OnlyStep(recorded, system, i);
        if recorded[i] !in system {
          if left == 0 {
            return -1;
          }
          MembersAppend(Only(recorded[..i], system), recorded[i]);
          left := left - 1;
          installed := installed - {recorded[i]};
        }
      }
      assert recorded[..|recorded|] == recorded;
      assert Only(recorded, system)[..|Only(recorded, system)|] == Only(recorded, system);
    }

    method AddMissing(system: seq<Prefix>, commands: nat) returns (ok: bool)
      modifies this`installed
      ensures var missing := Only(system, recorded);
              && installed == old(installed) + Members(missing[..if commands < |missing| then commands else |missing|])
              && ok == (commands >= |missing|)
    {
      var left := commands;
      for i := 0 to |system|
        invariant left == commands - |Only(system[..i], recorded)|
        invariant installed == old(installed) + Members(Only(system[..i], recorded))
      {
        OnlyStep(system, recorded, i);
        if system[i] !in recorded {
          if left == 0 {
            return false;
          }
          MembersAppend(Only(system[..i], recorded), system[i]);
          left := left - 1;
          installed := installed + {system[i]};
        }
      }
      assert system[..|system|] == system;
      assert Only(system, recorded)[..|Only(system, recorded)|] == Only(system, recorded);
      return true;
    }
  }

  lemma MembersWanted(byOwner: map<Bytes, seq<Prefix>>, local: seq<Prefix>, desired: seq<Prefix>, system: seq<Prefix>)
    requires AllValid(local) && (forall r :: r in Advertised(byOwner) ==> Valid(r))
             && Members(desired) == Advertised(byOwner)
    requires forall r :: r in system <==> r in desired && ClearOf(r, local)
    ensures Members(system) == Wanted(byOwner, local)
  {
    hide ShareAddress, Advertised;
    assert forall r :: r in desired <==> r in Members(desired);
  }

  // ------------------------------------------------------------ runs of synchronisations

  ghost predicate SyncRun(states: seq<Routing>, attempts: seq<Attempt>) {
    && |states| == |attempts| + 1 && states[0].recorded == states[0].installed
    && forall i :: 0 <= i < |attempts| ==>
         Possible(states[i], attempts[i]) && states[i + 1] == Synced(states[i], attempts[i])
  }

  /** Recorded routes that failed attempts took away and no success has dropped since. */
  function Lost(attempts: seq<Attempt>): set<Prefix> {
    if attempts == [] then {}
    else
      var before, a := Lost(attempts[..|attempts| - 1]), attempts[|attempts| - 1];
      if a.ok then before * a.wanted else before + a.removed
  }

  /** Routes that failed attempts added and no success has taken over since. */
  function Stray(attempts: seq<Attempt>): set<Prefix> {
    if attempts == [] then {}
    else
      var before, a := Stray(attempts[..|attempts| - 1]), attempts[|attempts| - 1];
      if a.ok then before - a.wanted else before + a.added
  }

  /** Over every run, record and system differ by exactly these routes. */
  lemma {:induction false} DriftIsExact(states: seq<Routing>, attempts: seq<Attempt>, k: nat)
    requires SyncRun(states, attempts) && k <= |attempts|
    ensures states[k].recorded - states[k].installed == Lost(attempts[..k])
    ensures states[k].installed - states[k].recorded == Stray(attempts[..k])
    decreases k
  {
    if k > 0 {
      DriftIsExact(states, attempts, k - 1);
      var a, s := attempts[k - 1], states[k - 1];
      assert attempts[..k][..k - 1] == attempts[..k - 1];
      assert Possible(s, a) && states[k] == Synced(s, a);
    }
  }

  /** After a success in any run, what is recorded is installed and nothing else is, if and only
      if no route lost by failed attempts is wanted again and every stray route is wanted. */
  lemma SyncedIffNoDrift(states: seq<Routing>, attempts: seq<Attempt>, k: nat)
    requires SyncRun(states, attempts) && k < |attempts| && attempts[k].ok
    ensures states[k + 1].installed == states[k + 1].recorded <==>
            Lost(attempts[..k]) !! attempts[k].wanted && Stray(attempts[..k]) <= attempts[k].wanted
  {
    DriftIsExact(states, attempts, k);
    DriftIsExact(states, attempts, k + 1);
    assert attempts[..k + 1][..k] == attempts[..k];
    var s := states[k + 1];
    assert s.installed == s.recorded <==> s.recorded - s.installed == {} && s.installed - s.recorded == {} by {
      assert s.recorded == (s.recorded - s.installed) + (s.recorded * s.installed);
      assert s.installed == (s.installed - s.recorded) + (s.recorded * s.installed);
    }
  }

  lemma {:induction false} DistinctCount(list: seq<Prefix>)
    requires NoDuplicates(list)
    ensures |Members(list)| == |list|
    decreases |list|
  {
    if list != [] {
      var front, last := list[..|list| - 1], list[|list| - 1];
      DistinctCount(front);
      assert list == front + [last];
      MembersAppend(front, last);
      assert last !in Members(front);
    }
  }

  lemma OneMember(list: seq<Prefix>, p: Prefix)
    requires NoDuplicates(list) && Members(list) == {p}
    ensures list == [p]
  {
    DistinctCount(list);
    assert list[0] in Members(list);
  }

  /** A is recorded and installed; a synchronisation that wants B removes A and fails to add B;
      the next one wants A again, finds it recorded, needs no command and succeeds: A is recorded
      and nothing is installed. */
  method LoseRoute(d: Device, owner: Bytes, a: Prefix, b: Prefix)
    requires d.recorded == [a] && d.installed == {a} && a != b && Valid(a) && Valid(b)
    modifies d
    ensures d.recorded == [a] && d.installed == {}
  {
    d.byOwner := map[owner := [b]];
    OneAdvertised(d.byOwner, owner, b);
    var ok, system := d.Sync([], true, 1);
    OneMember(system, b);
    FailedSyncLosesRoute(a, b);
    d.byOwner := map[owner := [a]];
    OneAdvertised(d.byOwner, owner, a);
    ok, system := d.Sync([], true, 0);
    OneMember(system, a);
  }

  lemma OneAdvertised(byOwner: map<Bytes, seq<Prefix>>, owner: Bytes, p: Prefix)
    requires byOwner == map[owner := [p]] && Valid(p)
    ensures Advertised(byOwner) == {p} && Wanted(byOwner, []) == {p}
  {
    hide ShareAddress;
    assert byOwner[owner][0] == p;
  }

  /** The two attempts of that run. */
  lemma FailedSyncLosesRoute(a: Prefix, b: Prefix)
    requires a != b
    ensures var first, second := AttemptOf([a], [b], true, 1), AttemptOf([a], [a], true, 0);
            var s := Routing({a}, {a});
            && !first.ok && second.ok && SyncRun([s, Synced(s, first), Synced(Synced(s, first), second)],
                                                 [first, second])
            && Synced(Synced(s, first), second) == Routing({a}, {})
  {
    assert [a][..0] == [] && [b][..0] == [];
    assert Only([a], [b]) == [a] && Only([b], [a]) == [b] && Only([a], [a]) == [];
    AttemptIsPossible([a], {a}, [b], true, 1);
    AttemptIsPossible([a], {}, [a], true, 0);
  }
}
