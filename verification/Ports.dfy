/** Port mappings: printed when a container is created, read back when it is inspected. */
module Ports {
  import opened Containers

  const U32_LIMIT := 0x1_0000_0000

  type u32 = n: int | 0 <= n < U32_LIMIT

  type octet = n: int | 0 <= n < 256

  datatype Ipv4 = Ipv4(a: octet, b: octet, c: octet, d: octet)

  datatype Ip = V4(v4: Ipv4) | V6

  // --- numbers as text --------------------------------------------------------------------------------------

  predicate IsDigit(c: char) {
    '0' <= c <= '9'
  }

  predicate AllDigits(s: string) {
    forall i :: 0 <= i < |s| ==> IsDigit(s[i])
  }

  function DigitValue(c: char): (d: nat)
    requires IsDigit(c)
    ensures d < 10
  {
    c as int - '0' as int
  }

  function Digit(d: nat): (c: char)
    requires d < 10
    ensures IsDigit(c) && DigitValue(c) == d
  {
    ('0' as int + d) as char
  }

  /** How a number is printed. */
  function Decimal(n: nat): (s: string)
    ensures s != [] && AllDigits(s)
  {
    if n < 10 then [Digit(n)] else Decimal(n / 10) + [Digit(n % 10)]
  }

  /** The number some digits stand for. */
  function Value(s: string): nat
    requires AllDigits(s)
  {
    if s == [] then 0 else Value(s[..|s| - 1]) * 10 + DigitValue(s[|s| - 1])
  }

  /** Reading digits from left to right; every step is checked for overflow. */
  function ReadDigits(s: string): Option<u32> {
    if s == [] then Some(0)
    else
      var last := s[|s| - 1];
      match ReadDigits(s[..|s| - 1])
      case None => None
      case Some(n) =>
        if IsDigit(last) && n * 10 + DigitValue(last) < U32_LIMIT then Some(n * 10 + DigitValue(last)) else None
  }

  /** Reading an unsigned number of 32 bits, which may carry a plus sign. */
  function ReadU32(s: string): Option<u32> {
    if s == [] || s == "+" then None
    else if s[0] == '+' then ReadDigits(s[1..])
    else ReadDigits(s)
  }

  lemma {:induction false} ReadsExactly(s: string)
    ensures ReadDigits(s).Some? <==> AllDigits(s) && Value(s) < U32_LIMIT
    ensures ReadDigits(s).Some? ==> ReadDigits(s).value == Value(s)
  {
    if s != [] {
      var front := s[..|s| - 1];
      ReadsExactly(front);
      assert AllDigits(s) <==> AllDigits(front) && IsDigit(s[|s| - 1]);
    }
  }

  lemma {:induction false} DecimalValue(n: nat)
    ensures Value(Decimal(n)) == n
  {
    if n >= 10 {
      DecimalValue(n / 10);
      assert Decimal(n)[..|Decimal(n)| - 1] == Decimal(n / 10);
    }
  }

  /** Every number is read back as it was printed. */
  lemma ReadDecimal(n: u32)
    ensures ReadU32(Decimal(n)) == Some(n)
  {
    DecimalValue(n);
    ReadsExactly(Decimal(n));
    assert IsDigit(Decimal(n)[0]);
  }

  /** What is read is digits, after a plus sign or none, that stand for a number of 32 bits. */
  lemma ReadU32Exactly(s: string, n: u32)
    ensures ReadU32(s) == Some(n)
       <==> var digits := if s != [] && s[0] == '+' then s[1..] else s;
            digits != [] && AllDigits(digits) && Value(digits) == n
  {
    ReadsExactly(s);
    if s != [] {
      ReadsExactly(s[1..]);
    }
  }

  /** Digits without a leading zero are what their number is printed as. */
  lemma {:induction false} PrintedBack(s: string)
    requires s != [] && AllDigits(s) && (s[0] == '0' ==> |s| == 1)
    ensures Decimal(Value(s)) == s && (|s| >= 2 ==> Value(s) >= 10)
    ensures |s| == 1 || s[0] != '0' ==> (Value(s) == 0 ==> s == "0")
  {
    var front, last := s[..|s| - 1], DigitValue(s[|s| - 1]);
    if front != [] {
      PrintedBack(front);
      assert Value(front) != 0;
      assert Value(s) / 10 == Value(front) && Value(s) % 10 == last;
      assert s == front + [s[|s| - 1]];
    } else {
      assert Value(front) == 0 && s == [s[0]];
    }
  }

  lemma {:induction false} DecimalShape(n: nat)
    ensures |Decimal(n)| <= 1 <==> n < 10
    ensures n > 0 ==> Decimal(n)[0] != '0'
    ensures n < 1000 ==> |Decimal(n)| <= 3
  {
    if n >= 10 {
      DecimalShape(n / 10);
      if n < 1000 {
        DecimalShape(n / 100);
        assert n / 10 / 10 == n / 100;
      }
    }
  }

  // --- text taken apart -------------------------------------------------------------------------------------

  function Split(s: string, separator: char): (parts: seq<string>)
    ensures |parts| >= 1
    ensures |parts| >= 2 <==> separator in s
    ensures forall p :: p in parts ==> separator !in p
  {
    if s == [] then [[]]
    else
      var rest := Split(s[1..], separator);
      if s[0] == separator then [[]] + rest else [[s[0]] + rest[0]] + rest[1..]
  }

  lemma SplitTail(a: string, separator: char, b: string)
    requires a != [] && separator != a[0]
    ensures (a + [separator] + b)[1..] == a[1..] + [separator] + b
    ensures var rest := Split(a[1..] + [separator] + b, separator);
            Split(a + [separator] + b, separator) == [[a[0]] + rest[0]] + rest[1..]
  {
    assert (a + [separator] + b)[1..] == a[1..] + [separator] + b;
  }

  lemma {:induction false} SplitFirst(a: string, separator: char, b: string)
    requires separator !in a
    ensures Split(a + [separator] + b, separator) == [a] + Split(b, separator)
  {
    if a == [] {
      assert (a + [separator] + b)[1..] == b;
    } else {
      SplitFirst(a[1..], separator, b);
      SplitTail(a, separator, b);
      assert [a[0]] + a[1..] == a;
    }
  }

  lemma {:induction false} SplitRest(s: string, separator: char) returns (rest: string)
    requires |Split(s, separator)| >= 2
    ensures s == Split(s, separator)[0] + [separator] + rest && Split(rest, separator) == Split(s, separator)[1..]
  {
    if s[0] == separator {
      rest := s[1..];
    } else {
      rest := SplitRest(s[1..], separator);
      assert s == [s[0]] + s[1..];
    }
  }

  lemma SplitOnce(s: string, separator: char)
    requires |Split(s, separator)| == 1
    ensures Split(s, separator) == [s]
  {
    SplitNothing(s, separator);
  }

  lemma SplitNothing(a: string, separator: char)
    requires separator !in a
    ensures Split(a, separator) == [a]
  {
    if a != [] {
      SplitNothing(a[1..], separator);
      assert [a[0]] + a[1..] == a;
    }
  }

  /** One to three digits, at most 255, without leading zeros. */
  function ReadOctet(s: string): Option<octet> {
    if 1 <= |s| <= 3 && AllDigits(s) && (s[0] == '0' ==> |s| == 1) && Value(s) < 256 then Some(Value(s)) else None
  }

  function ReadV4(s: string): Option<Ipv4> {
    var parts := Split(s, '.');
    if |parts| != 4 then None
    else
      match (ReadOctet(parts[0]), ReadOctet(parts[1]), ReadOctet(parts[2]), ReadOctet(parts[3]))
      case (Some(a), Some(b), Some(c), Some(d)) => Some(Ipv4(a, b, c, d))
      case _ => None
  }

  lemma OctetExactly(s: string, n: octet)
    ensures ReadOctet(s) == Some(n) <==> s == Decimal(n)
  {
    if ReadOctet(s).Some? {
      PrintedBack(s);
    }
    if s == Decimal(n) {
      DecimalShape(n);
      DecimalValue(n);
    }
  }

  /** An address is read from a text if and only if the text is the address as it is printed. */
  lemma ReadV4Exactly(s: string, ip: Ipv4)
    ensures ReadV4(s) == Some(ip)
       <==> s == Decimal(ip.a) + "." + Decimal(ip.b) + "." + Decimal(ip.c) + "." + Decimal(ip.d)
  {
    var a, b, c, d := Decimal(ip.a), Decimal(ip.b), Decimal(ip.c), Decimal(ip.d);
    assert a + "." + b + "." + c + "." + d == a + ['.'] + (b + ['.'] + (c + ['.'] + d));
    if s == a + ['.'] + (b + ['.'] + (c + ['.'] + d)) {
      OctetsExactly(a, b, c, d, ip);
      ReadFour(a, b, c, d, s);
    }
    if ReadV4(s) == Some(ip) {
      var parts := Split(s, '.');
      OctetsExactly(parts[0], parts[1], parts[2], parts[3], ip);
      FourJoined(s);
    }
  }

  lemma OctetsExactly(a: string, b: string, c: string, d: string, ip: Ipv4)
    ensures ReadOctet(a) == Some(ip.a) && ReadOctet(b) == Some(ip.b)
            && ReadOctet(c) == Some(ip.c) && ReadOctet(d) == Some(ip.d)
       <==> a == Decimal(ip.a) && b == Decimal(ip.b) && c == Decimal(ip.c) && d == Decimal(ip.d)
  {
    OctetExactly(a, ip.a);
    OctetExactly(b, ip.b);
    OctetExactly(c, ip.c);
    OctetExactly(d, ip.d);
  }

  lemma FourJoined(s: string)
    requires |Split(s, '.')| == 4
    ensures var parts := Split(s, '.');
            s == parts[0] + ['.'] + (parts[1] + ['.'] + (parts[2] + ['.'] + parts[3]))
  {
    var s1 := SplitRest(s, '.');
    var s2 := SplitRest(s1, '.');
    var s3 := SplitRest(s2, '.');
    SplitOnce(s3, '.');
  }

  /** Which texts denote addresses of version six is left open. */
  function ReadIp(v6: string -> bool, s: string): Option<Ip> {
    match ReadV4(s)
    case Some(ip) => Some(V4(ip))
    case None => if v6(s) then Some(V6) else None
  }

  const LOCALHOST := Ipv4(127, 0, 0, 1)
  const LOCALHOST_TEXT := "127.0.0.1"

  lemma ReadLocalhost()
    ensures ReadV4(LOCALHOST_TEXT) == Some(LOCALHOST)
  {
    ReadFour("127", "0", "0", "1", LOCALHOST_TEXT);
    ThreeDigits("127");
    OneDigit("0");
    OneDigit("1");
  }

  lemma ReadFour(a: string, b: string, c: string, d: string, s: string)
    requires '.' !in a && '.' !in b && '.' !in c && '.' !in d
    requires s == a + ['.'] + (b + ['.'] + (c + ['.'] + d))
    ensures ReadOctet(a).Some? && ReadOctet(b).Some? && ReadOctet(c).Some? && ReadOctet(d).Some? ==>
              ReadV4(s) == Some(Ipv4(ReadOctet(a).value, ReadOctet(b).value, ReadOctet(c).value, ReadOctet(d).value))
  {
    SplitFirst(a, '.', b + ['.'] + (c + ['.'] + d));
    SplitFirst(b, '.', c + ['.'] + d);
    SplitFirst(c, '.', d);
    SplitNothing(d, '.');
  }

  lemma OneDigit(s: string)
    requires |s| == 1 && AllDigits(s)
    ensures ReadOctet(s) == Some(DigitValue(s[0]))
  {
    assert Value(s[..0]) == 0;
  }

  lemma ThreeDigits(s: string)
    requires |s| == 3 && AllDigits(s) && s[0] != '0'
    requires DigitValue(s[0]) * 100 + DigitValue(s[1]) * 10 + DigitValue(s[2]) < 256
    ensures ReadOctet(s) == Some(DigitValue(s[0]) * 100 + DigitValue(s[1]) * 10 + DigitValue(s[2]))
  {
    var t := s[..2];
    assert Value(t[..1]) == DigitValue(s[0]);
    assert Value(t) == DigitValue(s[0]) * 10 + DigitValue(s[1]);
  }

  // --- reading port mappings --------------------------------------------------------------------------------

  datatype Binding = Binding(hostIp: Option<string>, hostPort: Option<string>)

  /** The daemon's description of the published ports: bindings by "port/protocol". */
  type PortMap = map<string, Option<seq<Binding>>>

  datatype PortError = HostPortKey(key: string) | NoMapping | Conversion(text: string)

  type Target = (Ipv4, u32)

  type Mappings = map<u32, Target>

  /** Bindings to addresses of version six are skipped, whatever their port. */
  function FromBinding(v6: string -> bool, b: Binding): Result<Option<Target>, PortError> {
    if b.hostIp.None? || b.hostPort.None? then Failure(NoMapping)
    else
      match ReadIp(v6, b.hostIp.value)
      case None => Failure(Conversion(b.hostIp.value))
      case Some(V6) => Success(None)
      case Some(V4(ip)) =>
        match ReadU32(b.hostPort.value)
        case None => Failure(Conversion(b.hostPort.value))
        case Some(port) => Success(Some((ip, port)))
  }

  /** The binding is to an address of version four. */
  predicate ToV4(b: Binding, target: Target) {
    && b.hostIp.Some? && b.hostPort.Some?
    && ReadV4(b.hostIp.value) == Some(target.0) && ReadU32(b.hostPort.value) == Some(target.1)
  }

  /** The binding is to an address of version six; its port is not read. */
  predicate ToV6(v6: string -> bool, b: Binding) {
    b.hostIp.Some? && b.hostPort.Some? && ReadV4(b.hostIp.value).None? && v6(b.hostIp.value)
  }

  lemma BindingExactly(v6: string -> bool, b: Binding)
    ensures forall target :: FromBinding(v6, b) == Success(Some(target)) <==> ToV4(b, target)
    ensures FromBinding(v6, b) == Success(None) <==> ToV6(v6, b)
    ensures FromBinding(v6, b) == Failure(NoMapping) <==> b.hostIp.None? || b.hostPort.None?
  {
  }

  /** The port in a key "port/protocol". */
  function PortOf(key: string): Option<u32> {
    var split := Split(key, '/');
    if |split| < 2 then None else ReadU32(split[0])
  }

  predicate WellFormed(v6: string -> bool, key: string, bindings: seq<Binding>) {
    && PortOf(key).Some?
    && forall b :: b in bindings ==> FromBinding(v6, b).Success?
  }

  /** The first binding to an address of version four. */
  function FirstTarget(v6: string -> bool, bindings: seq<Binding>): Option<Target> {
    if bindings == [] then None
    else
      match FromBinding(v6, bindings[0])
      case Success(Some(target)) => Some(target)
      case _ => FirstTarget(v6, bindings[1..])
  }

  /** What one entry offers, if anything. */
  function OfferOf(v6: string -> bool, key: string, bindings: seq<Binding>): Option<(u32, Target)> {
    match (PortOf(key), FirstTarget(v6, bindings))
    case (Some(n), Some(target)) => Some((n, target))
    case _ => None
  }

  /** A key with bindings but without a protocol is an error. */
  lemma KeyWithoutProtocol(v6: string -> bool, p: PortMap, key: string)
    requires key in p && p[key].Some? && '/' !in key
    ensures EntryRead(v6, p, key) == Failure(HostPortKey(key))
  {
    SplitNothing(key, '/');
  }

  /** What the entry for `key` offers. */
  function EntryOffer(v6: string -> bool, p: PortMap, key: string): Option<(u32, Target)> {
    if key in p && p[key].Some? then OfferOf(v6, key, p[key].value) else None
  }

  /** The entry for `key` publishes port `n` at `target`. */
  predicate Offers(v6: string -> bool, p: PortMap, key: string, n: u32, target: Target) {
    EntryOffer(v6, p, key) == Some((n, target))
  }

  /** Each port that is offered is mapped to one of the targets it is offered at. */
  ghost predicate Maps(v6: string -> bool, p: PortMap, m: Mappings) {
    && (forall n :: n in m ==> exists key :: Offers(v6, p, key, n, m[n]))
    && (forall key, n, target :: Offers(v6, p, key, n, target) ==> n in m)
  }

  predicate EntryWellFormed(v6: string -> bool, p: PortMap, key: string) {
    key in p && p[key].Some? ==> WellFormed(v6, key, p[key].value)
  }

  /** All bindings have to make sense, but only the first to an address of version four counts. */
  function Visited(v6: string -> bool, bindings: seq<Binding>): (r: Result<Option<Target>, PortError>)
    ensures r.Success? <==> forall b :: b in bindings ==> FromBinding(v6, b).Success?
    ensures r.Success? ==> r.value == FirstTarget(v6, bindings)
  {
    if bindings == [] then Success(None)
    else
      match (FromBinding(v6, bindings[0]), Visited(v6, bindings[1..]))
      case (Failure(e), _) => Failure(e)
      case (_, Failure(e)) => Failure(e)
      case (Success(target), Success(later)) => Success(if target.Some? then target else later)
  }

  function EntryRead(v6: string -> bool, p: PortMap, key: string): (r: Result<Option<(u32, Target)>, PortError>)
    requires key in p
    ensures r.Success? <==> EntryWellFormed(v6, p, key)
    ensures r.Success? ==> r.value == EntryOffer(v6, p, key)
  {
    if p[key].None? then Success(None)
    else
      var split := Split(key, '/');
      if |split| < 2 then Failure(HostPortKey(key))
      else
        match (ReadU32(split[0]), Visited(v6, p[key].value))
        case (None, _) => Failure(Conversion(split[0]))
        case (_, Failure(e)) => Failure(e)
        case (Some(n), Success(target)) => Success(if target.Some? then Some((n, target.value)) else None)
  }

  /** The keys of the map in some order. */
  ghost predicate Enumerates(order: seq<string>, p: PortMap) {
    Distinct(order) && forall key :: key in order <==> key in p
  }

  predicate Distinct(order: seq<string>) {
    forall i, j :: 0 <= i < j < |order| ==> order[i] != order[j]
  }

  predicate Among(order: seq<string>, p: PortMap) {
    forall i :: 0 <= i < |order| ==> order[i] in p
  }

  /** What the keys give when they are visited in this order: the first error, or the first offer for each port. */
  function Reading(v6: string -> bool, p: PortMap, order: seq<string>): Result<Mappings, PortError>
    requires Among(order, p)
  {
    if order == [] then Success(map[])
    else
      match Reading(v6, p, order[..|order| - 1])
      case Failure(e) => Failure(e)
      case Success(m) =>
        match EntryRead(v6, p, order[|order| - 1])
        case Failure(e) => Failure(e)
        case Success(None) => Success(m)
        case Success(Some(offer)) => Success(if offer.0 in m then m else m[offer.0 := offer.1])
  }

  /** Keys are visited in an arbitrary order. */
  method TryFrom(v6: string -> bool, p: PortMap) returns (r: Result<Mappings, PortError>, ghost order: seq<string>)
    ensures Enumerates(order, p) && r == Reading(v6, p, order)
    ensures r.Success? <==> forall key {:trigger EntryWellFormed(v6, p, key)} :: EntryWellFormed(v6, p, key)
    ensures r.Success? ==> Maps(v6, p, r.value)
  {
    var m: Mappings := map[];
    var todo := p.Keys;
    order := [];
    while todo != {}
      invariant todo <= p.Keys && Distinct(order) && (set key | key in order) == p.Keys - todo
      invariant Among(order, p) && Reading(v6, p, order) == Success(m)
      decreases todo
    {
      var key :| key in todo;
      todo := todo - {key};
      VisitsOneMore(v6, p, order, key);
      order := order + [key];
      var offer := ReadEntry(v6, p, key);
      if offer.Failure? {
        order := FailsForGood(v6, p, order, todo, offer.error);
        AllWellFormed(v6, p, order);
        return Failure(offer.error), order;
      }
      if offer.value.Some? {
        var (hostPort, target) := offer.value.value;
        if hostPort !in m {
          m := m[hostPort := target];
        }
      }
    }
    EnumeratesAll(p, order);
    AllWellFormed(v6, p, order);
    ReadingMaps(v6, p, order);
    r := Success(m);
  }

  lemma EnumeratesAll(p: PortMap, order: seq<string>)
    requires Distinct(order) && (set key | key in order) == p.Keys
    ensures Enumerates(order, p)
  {
    assert forall key :: key in order <==> key in (set k | k in order);
  }

  lemma VisitsOneMore(v6: string -> bool, p: PortMap, order: seq<string>, key: string)
    requires Distinct(order) && Among(order, p) && key in p && key !in order
    ensures Distinct(order + [key]) && Among(order + [key], p)
    ensures (set k | k in order + [key]) == (set k | k in order) + {key}
    ensures (order + [key])[..|order|] == order
  {
    assert (order + [key])[..|order|] == order;
  }

  /** Whatever order the keys that are left would come in, the error stays. */
  lemma {:induction false} FailsForGood(v6: string -> bool, p: PortMap, visited: seq<string>, todo: set<string>,
                                        e: PortError)
    returns (order: seq<string>)
    requires todo <= p.Keys && Distinct(visited) && (set key | key in visited) == p.Keys - todo && Among(visited, p)
    requires Reading(v6, p, visited) == Failure(e)
    ensures Enumerates(order, p) && Reading(v6, p, order) == Failure(e)
    decreases todo
  {
    if todo == {} {
      order := visited;
      EnumeratesAll(p, order);
    } else {
      var key :| key in todo;
      assert key !in (set k | k in visited);
      VisitsOneMore(v6, p, visited, key);
      order := FailsForGood(v6, p, visited + [key], todo - {key}, e);
    }
  }

  method ReadEntry(v6: string -> bool, p: PortMap, key: string) returns (r: Result<Option<(u32, Target)>, PortError>)
    requires key in p
    ensures r == EntryRead(v6, p, key)
  {
    if p[key].None? {
      return Success(None);
    }
    var split := Split(key, '/');
    if |split| < 2 {
      return Failure(HostPortKey(key));
    }
    var hostPort := ReadU32(split[0]);
    if hostPort.None? {
      return Failure(Conversion(split[0]));
    }
    var target := Visit(v6, p[key].value);
    if target.Failure? {
      return Failure(target.error);
    }
    r := Success(if target.value.Some? then Some((hostPort.value, target.value.value)) else None);
  }

  /** The result for all bindings, given what was found among those visited so far. */
  function Resumed(first: Option<Target>, rest: Result<Option<Target>, PortError>): Result<Option<Target>, PortError> {
    if rest.Success? && first.Some? then Success(first) else rest
  }

  method Visit(v6: string -> bool, bindings: seq<Binding>) returns (r: Result<Option<Target>, PortError>)
    ensures r == Visited(v6, bindings)
    ensures r.Success? <==> forall b :: b in bindings ==> FromBinding(v6, b).Success?
    ensures r.Success? ==> r.value == FirstTarget(v6, bindings)
  {
    var first: Option<Target> := None;
    for i := 0 to |bindings|
      invariant Visited(v6, bindings) == Resumed(first, Visited(v6, bindings[i..]))
    {
      var target := FromBinding(v6, bindings[i]);
      assert bindings[i..][1..] == bindings[i + 1..];
      if target.Failure? {
        return Failure(target.error);
      }
      if target.value.Some? && first.None? {
        first := target.value;
      }
    }
    r := Success(first);
  }

  // --- the order of the keys --------------------------------------------------------------------------------

  /** Whether reading succeeds does not depend on the order. */
  lemma {:induction false} ReadingSucceeds(v6: string -> bool, p: PortMap, order: seq<string>)
    requires Among(order, p)
    ensures Reading(v6, p, order).Success? <==> forall i :: 0 <= i < |order| ==> EntryWellFormed(v6, p, order[i])
  {
    if order != [] {
      var front := order[..|order| - 1];
      ReadingSucceeds(v6, p, front);
      assert forall i :: 0 <= i < |front| ==> order[i] == front[i];
    }
  }

  /** A port is mapped exactly if it is offered. */
  lemma {:induction false} MapsOffered(v6: string -> bool, p: PortMap, order: seq<string>, n: u32)
    requires Among(order, p) && Reading(v6, p, order).Success?
    ensures n in Reading(v6, p, order).value <==> exists i :: 0 <= i < |order| && OffersPort(v6, p, order[i], n)
  {
    if order != [] {
      var front := order[..|order| - 1];
      MapsOffered(v6, p, front, n);
      assert forall i :: 0 <= i < |front| ==> order[i] == front[i];
    }
  }

  /** It is mapped to the target of the entry visited first among those that offer it. */
  lemma {:induction false} FirstOfferCounts(v6: string -> bool, p: PortMap, order: seq<string>, i: nat, n: u32)
    requires Among(order, p) && Reading(v6, p, order).Success?
    requires i < |order| && FirstOffer(v6, p, order, i, n)
    ensures n in Reading(v6, p, order).value
    ensures Reading(v6, p, order).value[n] == EntryOffer(v6, p, order[i]).value.1
  {
    var front := order[..|order| - 1];
    if i < |front| {
      FirstOfferCounts(v6, p, front, i, n);
    } else {
      MapsOffered(v6, p, front, n);
    }
  }

  predicate OffersPort(v6: string -> bool, p: PortMap, key: string, n: u32) {
    EntryOffer(v6, p, key).Some? && EntryOffer(v6, p, key).value.0 == n
  }

  predicate FirstOffer(v6: string -> bool, p: PortMap, order: seq<string>, i: nat, n: u32)
    requires i < |order|
  {
    OffersPort(v6, p, order[i], n) && forall j :: 0 <= j < i ==> !OffersPort(v6, p, order[j], n)
  }

  /** The same port is offered at different targets. */
  ghost predicate Ambiguous(v6: string -> bool, p: PortMap) {
    exists k, k', n, target, target' ::
      Offers(v6, p, k, n, target) && Offers(v6, p, k', n, target') && target != target'
  }

  lemma EarliestOffer(v6: string -> bool, p: PortMap, order: seq<string>, i: nat, n: u32) returns (first: nat)
    requires i < |order| && OffersPort(v6, p, order[i], n)
    ensures first < |order| && FirstOffer(v6, p, order, first, n)
  {
    if j :| 0 <= j < i && OffersPort(v6, p, order[j], n) {
      first := EarliestOffer(v6, p, order, j, n);
    } else {
      first := i;
    }
  }

  lemma ReadingMaps(v6: string -> bool, p: PortMap, order: seq<string>)
    requires Enumerates(order, p) && Reading(v6, p, order).Success?
    ensures Maps(v6, p, Reading(v6, p, order).value)
  {
    var m := Reading(v6, p, order).value;
    forall n | n in m
      ensures exists key :: Offers(v6, p, key, n, m[n])
    {
      MapsOffered(v6, p, order, n);
      var i :| 0 <= i < |order| && OffersPort(v6, p, order[i], n);
      var first := EarliestOffer(v6, p, order, i, n);
      FirstOfferCounts(v6, p, order, first, n);
      assert Offers(v6, p, order[first], n, m[n]);
    }
    forall key, n, target | Offers(v6, p, key, n, target)
      ensures n in m
    {
      MapsOffered(v6, p, order, n);
      var i :| 0 <= i < |order| && order[i] == key;
      assert OffersPort(v6, p, order[i], n);
    }
  }

  /** Where nothing is ambiguous, a port is mapped to what it is offered at. */
  lemma MapsOffers(v6: string -> bool, p: PortMap, order: seq<string>, n: u32)
    requires Enumerates(order, p) && Reading(v6, p, order).Success? && !Ambiguous(v6, p)
    ensures var m := Reading(v6, p, order).value;
            && (n in m ==> exists key :: Offers(v6, p, key, n, m[n]))
            && (forall key, target :: Offers(v6, p, key, n, target) ==> n in m && m[n] == target)
  {
    var m := Reading(v6, p, order).value;
    ReadingMaps(v6, p, order);
    forall key, target | Offers(v6, p, key, n, target)
      ensures n in m && m[n] == target
    {
      assert exists other :: Offers(v6, p, other, n, m[n]);
    }
  }

  lemma SameReading(v6: string -> bool, p: PortMap, order: seq<string>, order': seq<string>)
    requires Enumerates(order, p) && Enumerates(order', p) && !Ambiguous(v6, p)
    requires Reading(v6, p, order).Success? && Reading(v6, p, order').Success?
    ensures Reading(v6, p, order) == Reading(v6, p, order')
  {
    var m, m' := Reading(v6, p, order).value, Reading(v6, p, order').value;
    forall n | n in m || n in m'
      ensures n in m && n in m' && m[n] == m'[n]
    {
      MapsOffers(v6, p, order, n);
      MapsOffers(v6, p, order', n);
    }
    assert m.Keys == m'.Keys && m == m';
  }

  lemma AllWellFormed(v6: string -> bool, p: PortMap, order: seq<string>)
    requires Enumerates(order, p)
    ensures Reading(v6, p, order).Success?
       <==> forall key {:trigger EntryWellFormed(v6, p, key)} :: EntryWellFormed(v6, p, key)
  {
    ReadingSucceeds(v6, p, order);
    if Reading(v6, p, order).Success? {
      forall key
        ensures EntryWellFormed(v6, p, key)
      {
        if key in p {
          var i :| 0 <= i < |order| && order[i] == key;
        }
      }
    }
  }

  /** The keys in an order that starts with `key`. */
  lemma StartingWith(p: PortMap, key: string) returns (order: seq<string>)
    requires key in p
    ensures Enumerates(order, p) && order[0] == key
  {
    order := [key];
    var todo := p.Keys - {key};
    while todo != {}
      invariant todo <= p.Keys && Distinct(order) && (set k | k in order) == p.Keys - todo
      invariant order != [] && order[0] == key
      decreases todo
    {
      var k :| k in todo;
      assert k !in (set x | x in order);
      assert (set x | x in order + [k]) == (set x | x in order) + {k};
      order := order + [k];
      todo := todo - {k};
    }
    EnumeratesAll(p, order);
  }

  /** Any offer is the one that counts in some order. */
  lemma CountsFirst(v6: string -> bool, p: PortMap, key: string, n: u32, target: Target) returns (order: seq<string>)
    requires Offers(v6, p, key, n, target)
    ensures Enumerates(order, p)
    ensures Reading(v6, p, order).Success? ==>
              n in Reading(v6, p, order).value && Reading(v6, p, order).value[n] == target
  {
    order := StartingWith(p, key);
    if Reading(v6, p, order).Success? {
      assert FirstOffer(v6, p, order, 0, n);
      FirstOfferCounts(v6, p, order, 0, n);
    }
  }

  /** The order in which keys are visited is irrelevant exactly when no two keys publish the same port at
      different targets. */
  lemma OrderIrrelevantExactly(v6: string -> bool, p: PortMap)
    requires forall key {:trigger EntryWellFormed(v6, p, key)} :: EntryWellFormed(v6, p, key)
    ensures (forall order, order' :: Enumerates(order, p) && Enumerates(order', p) ==>
               Reading(v6, p, order) == Reading(v6, p, order'))
       <==> !Ambiguous(v6, p)
  {
    if Ambiguous(v6, p) {
      var k, k', n, target, target' :|
        Offers(v6, p, k, n, target) && Offers(v6, p, k', n, target') && target != target';
      var order := CountsFirst(v6, p, k, n, target);
      var order' := CountsFirst(v6, p, k', n, target');
      AllWellFormed(v6, p, order);
      AllWellFormed(v6, p, order');
      assert Reading(v6, p, order) != Reading(v6, p, order');
    } else {
      forall order, order' | Enumerates(order, p) && Enumerates(order', p)
        ensures Reading(v6, p, order) == Reading(v6, p, order')
      {
        AllWellFormed(v6, p, order);
        AllWellFormed(v6, p, order');
        SameReading(v6, p, order, order');
      }
    }
  }

  // --- publishing ports -------------------------------------------------------------------------------------

  type Published = seq<(string, string)>

  const PROTOCOL := "/tcp"

  function Entry(exported: u32, host: u32): (string, string) {
    (Key(exported), Decimal(host))
  }

  function Entries(calls: seq<(u32, u32)>): (r: Published)
    ensures |r| == |calls| && forall i :: 0 <= i < |r| ==> r[i] == Entry(calls[i].0, calls[i].1)
  {
    seq(|calls|, i requires 0 <= i < |calls| => Entry(calls[i].0, calls[i].1))
  }

  /** The ports of a composition under construction. */
  class Ports {
    var port: Published

    constructor ()
      ensures port == []
    {
      port := [];
    }

    method PortMap(exported: u32, host: u32)
      modifies this
      ensures port == old(port) + [(Decimal(exported) + "/tcp", Decimal(host))]
      ensures Requested(port) == Requested(old(port))[Key(exported) := BindingFor(Decimal(host))]
    {
      port := port + [(Decimal(exported) + PROTOCOL, Decimal(host))];
    }
  }

  function BindingFor(host: string): Option<seq<Binding>> {
    Some([Binding(Some(LOCALHOST_TEXT), Some(host))])
  }

  /** What is sent to the daemon: of several entries with the same key the last one counts. */
  function Requested(port: Published): PortMap {
    if port == [] then map[]
    else
      var last := port[|port| - 1];
      Requested(port[..|port| - 1])[last.0 := BindingFor(last.1)]
  }

  method PortBindings(port: Published) returns (r: PortMap)
    ensures r == Requested(port)
  {
    r := map[];
    for i := 0 to |port|
      invariant r == Requested(port[..i])
    {
      assert port[..i + 1][..i] == port[..i];
      r := r[port[i].0 := BindingFor(port[i].1)];
    }
    assert port[..|port|] == port;
  }

  /** The host port of the last call for each exported port. */
  function LastCalls(calls: seq<(u32, u32)>): Mappings {
    if calls == [] then map[]
    else
      var last := calls[|calls| - 1];
      LastCalls(calls[..|calls| - 1])[last.0 := (LOCALHOST, last.1)]
  }

  function Key(n: u32): string {
    Decimal(n) + PROTOCOL
  }

  lemma KeyRead(n: u32)
    ensures PortOf(Key(n)) == Some(n)
  {
    ReadDecimal(n);
    assert '/' !in Decimal(n);
    assert Key(n) == Decimal(n) + ['/'] + "tcp";
    SplitFirst(Decimal(n), '/', "tcp");
  }

  lemma KeysDiffer(n: u32, k: u32)
    requires Key(n) == Key(k)
    ensures n == k
  {
    KeyRead(n);
    KeyRead(k);
  }

  lemma BindingRead(v6: string -> bool, h: u32)
    ensures FromBinding(v6, Binding(Some(LOCALHOST_TEXT), Some(Decimal(h)))) == Success(Some((LOCALHOST, h)))
  {
    ReadLocalhost();
    ReadDecimal(h);
  }

  lemma BindingsRead(v6: string -> bool, h: u32)
    ensures forall b :: b in BindingFor(Decimal(h)).value ==> FromBinding(v6, b).Success?
    ensures FirstTarget(v6, BindingFor(Decimal(h)).value) == Some((LOCALHOST, h))
  {
    BindingRead(v6, h);
  }

  /** The request has a key for exactly the exported ports, each with the host port of the last call. */
  lemma {:induction false} RequestedAt(calls: seq<(u32, u32)>, n: u32)
    ensures n in LastCalls(calls) <==> Decimal(n) + "/tcp" in Requested(Entries(calls))
    ensures n in LastCalls(calls) ==>
              LastCalls(calls)[n].0 == Ipv4(127, 0, 0, 1)
              && Requested(Entries(calls))[Decimal(n) + "/tcp"]
                 == Some([Binding(Some("127.0.0.1"), Some(Decimal(LastCalls(calls)[n].1)))])
  {
    assert Key(n) == Decimal(n) + "/tcp";
    if calls != [] {
      var front := calls[..|calls| - 1];
      var last := calls[|calls| - 1];
      RequestedAt(front, n);
      assert Entries(calls)[..|calls| - 1] == Entries(front);
      if Key(n) == Key(last.0) {
        KeysDiffer(n, last.0);
      }
    }
  }

  /** The last call for an exported port. */
  predicate LastCall(calls: seq<(u32, u32)>, n: u32, i: nat) {
    i < |calls| && calls[i].0 == n && forall j :: i < j < |calls| ==> calls[j].0 != n
  }

  lemma {:induction false} LastCallCounts(calls: seq<(u32, u32)>, n: u32, i: nat)
    requires LastCall(calls, n, i)
    ensures n in LastCalls(calls) && LastCalls(calls)[n] == (LOCALHOST, calls[i].1)
  {
    var last := |calls| - 1;
    if i < last {
      assert forall j :: i < j < last ==> calls[..last][j] == calls[j];
      LastCallCounts(calls[..last], n, i);
    }
  }

  lemma {:induction false} RequestedKey(calls: seq<(u32, u32)>, key: string) returns (n: u32)
    requires key in Requested(Entries(calls))
    ensures key == Key(n)
  {
    var front := calls[..|calls| - 1];
    var last := calls[|calls| - 1];
    assert Entries(calls)[..|calls| - 1] == Entries(front);
    if key == Key(last.0) {
      n := last.0;
    } else {
      n := RequestedKey(front, key);
    }
  }

  lemma OfferRead(v6: string -> bool, n: u32, h: u32)
    ensures OfferOf(v6, Key(n), BindingFor(Decimal(h)).value) == Some((n, (LOCALHOST, h)))
  {
    KeyRead(n);
    BindingsRead(v6, h);
  }

  lemma OfferedExactly(v6: string -> bool, calls: seq<(u32, u32)>, key: string, n: u32, target: Target)
    ensures Offers(v6, Requested(Entries(calls)), key, n, target)
       <==> n in LastCalls(calls) && key == Key(n) && target == LastCalls(calls)[n]
  {
    if key in Requested(Entries(calls)) {
      var k := RequestedKey(calls, key);
      RequestedAt(calls, k);
      OfferRead(v6, k, LastCalls(calls)[k].1);
      if key == Key(n) {
        KeysDiffer(n, k);
      }
    } else {
      RequestedAt(calls, n);
    }
  }

  lemma RequestedIsWellFormed(v6: string -> bool, calls: seq<(u32, u32)>, key: string)
    ensures EntryWellFormed(v6, Requested(Entries(calls)), key)
  {
    if key in Requested(Entries(calls)) {
      var n := RequestedKey(calls, key);
      RequestedAt(calls, n);
      KeyRead(n);
      BindingsRead(v6, LastCalls(calls)[n].1);
    }
  }

  lemma NotAmbiguous(v6: string -> bool, calls: seq<(u32, u32)>)
    ensures !Ambiguous(v6, Requested(Entries(calls)))
  {
    var p := Requested(Entries(calls));
    forall k, k', n, target, target' | Offers(v6, p, k, n, target) && Offers(v6, p, k', n, target')
      ensures target == target'
    {
      OfferedExactly(v6, calls, k, n, target);
      OfferedExactly(v6, calls, k', n, target');
    }
  }

  /** For every sequence of mappings, over all ports: if the daemon reports what it was asked for, reading the
      report succeeds, and it gives for each exported port the host port of the last call, on the local host,
      and nothing for any other port, whatever order the keys come in. */
  lemma PortRoundTrip(v6: string -> bool, calls: seq<(u32, u32)>, order: seq<string>)
    requires Enumerates(order, Requested(Entries(calls)))
    ensures Reading(v6, Requested(Entries(calls)), order) == Success(LastCalls(calls))
  {
    var p := Requested(Entries(calls));
    forall key
      ensures EntryWellFormed(v6, p, key)
    {
      RequestedIsWellFormed(v6, calls, key);
    }
    AllWellFormed(v6, p, order);
    NotAmbiguous(v6, calls);
    var m, last := Reading(v6, p, order).value, LastCalls(calls);
    forall n | n in m || n in last
      ensures n in m && n in last && m[n] == last[n]
    {
      RoundTripAt(v6, calls, order, n);
    }
    assert m.Keys == last.Keys && m == last;
  }

  lemma RoundTripAt(v6: string -> bool, calls: seq<(u32, u32)>, order: seq<string>, n: u32)
    requires Enumerates(order, Requested(Entries(calls))) && !Ambiguous(v6, Requested(Entries(calls)))
    requires Reading(v6, Requested(Entries(calls)), order).Success?
    ensures var m := Reading(v6, Requested(Entries(calls)), order).value;
            (n in m <==> n in LastCalls(calls)) && (n in m ==> m[n] == LastCalls(calls)[n])
  {
    var p := Requested(Entries(calls));
    MapsOffers(v6, p, order, n);
    if n in Reading(v6, p, order).value {
      var key :| Offers(v6, p, key, n, Reading(v6, p, order).value[n]);
      OfferedExactly(v6, calls, key, n, Reading(v6, p, order).value[n]);
    } else if n in LastCalls(calls) {
      OfferedExactly(v6, calls, Key(n), n, LastCalls(calls)[n]);
    }
  }

  // --- publishing all ports ---------------------------------------------------------------------------------

  /** Publishing all ports binds each to an address of either version: whichever comes first, what is reported is the
      one of version four. */
  lemma BothVersions(v6: string -> bool, n: u32, four: Binding, six: Binding, target: Target, bindings: seq<Binding>)
    requires ToV4(four, target) && ToV6(v6, six) && (bindings == [four, six] || bindings == [six, four])
    ensures var p: PortMap := map[Decimal(n) + "/tcp" := Some(bindings)];
            && Enumerates([Decimal(n) + "/tcp"], p)
            && Reading(v6, p, [Decimal(n) + "/tcp"]) == Success(map[n := target])
  {
    var key := Decimal(n) + "/tcp";
    var p: PortMap := map[key := Some(bindings)];
    assert key == Key(n);
    KeyRead(n);
    FirstOfTwo(v6, four, six, target, bindings);
    assert [key][..0] == [];
    assert Reading(v6, p, []) == Success(map[]);
    assert EntryRead(v6, p, key) == Success(Some((n, target)));
  }

  lemma FirstOfTwo(v6: string -> bool, four: Binding, six: Binding, target: Target, bindings: seq<Binding>)
    requires ToV4(four, target) && ToV6(v6, six) && (bindings == [four, six] || bindings == [six, four])
    ensures (forall b :: b in bindings ==> FromBinding(v6, b).Success?) && FirstTarget(v6, bindings) == Some(target)
  {
    BindingExactly(v6, four);
    BindingExactly(v6, six);
    FirstV4Counts(v6, bindings, if bindings[0] == four then 0 else 1, target);
  }

  /** The first binding of version four counts, whatever comes after it. */
  lemma {:induction false} FirstV4Counts(v6: string -> bool, bindings: seq<Binding>, i: nat, target: Target)
    requires i < |bindings| && ToV4(bindings[i], target) && forall j :: 0 <= j < i ==> ToV6(v6, bindings[j])
    ensures FirstTarget(v6, bindings) == Some(target)
  {
    BindingExactly(v6, bindings[0]);
    if i > 0 {
      FirstV4Counts(v6, bindings[1..], i - 1, target);
    }
  }

  /** Without one the entry gives no mapping. */
  lemma {:induction false} NoV4(v6: string -> bool, bindings: seq<Binding>)
    requires forall b :: b in bindings ==> FromBinding(v6, b).Success?
    ensures FirstTarget(v6, bindings).None? <==> forall b :: b in bindings ==> ToV6(v6, b)
  {
    if bindings != [] {
      NoV4(v6, bindings[1..]);
      BindingExactly(v6, bindings[0]);
      assert forall b :: b in bindings <==> b == bindings[0] || b in bindings[1..];
    }
  }

  /** The addresses that stand for all of the host's. */
  lemma AllAddresses(h: u32)
    ensures ToV4(Binding(Some("0.0.0.0"), Some(Decimal(h))), (Ipv4(0, 0, 0, 0), h))
    ensures ReadV4("::").None?
  {
    ReadAnyAddress();
    ReadDecimal(h);
    SplitNothing("::", '.');
  }

  lemma ReadAnyAddress()
    ensures ReadV4("0.0.0.0") == Some(Ipv4(0, 0, 0, 0))
  {
    ReadFour("0", "0", "0", "0", "0.0.0.0");
    OneDigit("0");
  }

  // --- a port under two protocols ---------------------------------------------------------------------------

  const OTHER_PROTOCOL := "/udp"

  lemma OtherKeyRead(n: u32)
    ensures PortOf(Decimal(n) + OTHER_PROTOCOL) == Some(n) && Decimal(n) + OTHER_PROTOCOL != Key(n)
  {
    ReadDecimal(n);
    assert '/' !in Decimal(n);
    assert Decimal(n) + OTHER_PROTOCOL == Decimal(n) + ['/'] + "udp";
    SplitFirst(Decimal(n), '/', "udp");
    assert Key(n)[|Decimal(n)| + 1] == 't' && (Decimal(n) + OTHER_PROTOCOL)[|Decimal(n)| + 1] == 'u';
  }

  /** A port published for both protocols, at host ports `h` and `h'`: the one reported is that of the key that
      happens to be visited first. */
  lemma ProtocolsClash(v6: string -> bool, n: u32, h: u32, h': u32)
    ensures var (tcp, udp) := (Key(n), Decimal(n) + OTHER_PROTOCOL);
            var p: PortMap := map[tcp := BindingFor(Decimal(h)), udp := BindingFor(Decimal(h'))];
            && Enumerates([tcp, udp], p) && Reading(v6, p, [tcp, udp]) == Success(map[n := (LOCALHOST, h)])
            && Enumerates([udp, tcp], p) && Reading(v6, p, [udp, tcp]) == Success(map[n := (LOCALHOST, h')])
  {
    var (tcp, udp) := (Key(n), Decimal(n) + OTHER_PROTOCOL);
    var p: PortMap := map[tcp := BindingFor(Decimal(h)), udp := BindingFor(Decimal(h'))];
    KeyRead(n);
    OtherKeyRead(n);
    EntryOffers(v6, p, tcp, n, h);
    EntryOffers(v6, p, udp, n, h');
    TwoKeys(v6, p, tcp, udp, n, (LOCALHOST, h), (LOCALHOST, h'));
    TwoKeys(v6, p, udp, tcp, n, (LOCALHOST, h'), (LOCALHOST, h));
  }

  lemma EntryOffers(v6: string -> bool, p: PortMap, key: string, n: u32, h: u32)
    requires key in p && p[key] == BindingFor(Decimal(h)) && PortOf(key) == Some(n)
    ensures EntryWellFormed(v6, p, key) && Offers(v6, p, key, n, (LOCALHOST, h))
  {
    BindingsRead(v6, h);
  }

  lemma TwoKeys(v6: string -> bool, p: PortMap, k: string, k': string, n: u32, target: Target, target': Target)
    requires k in p && k' in p && Offers(v6, p, k, n, target) && Offers(v6, p, k', n, target')
    requires EntryWellFormed(v6, p, k) && EntryWellFormed(v6, p, k')
    ensures Among([k, k'], p) && Reading(v6, p, [k, k']) == Success(map[n := target])
  {
    assert [k, k'][..1] == [k] && [k][..0] == [];
    assert Reading(v6, p, [k]) == Success(map[n := target]);
  }
}
