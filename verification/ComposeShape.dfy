/**
 Normalising a parsed compose file: every legal spelling of ports, volumes and
 networks to one shape, and what that shape promises.
 */
module ComposeShape {
  import opened Values
  import opened Versions

  // ---- Parsed YAML ---------------------------------------------------------------------------

  /** A key that is no string may be a number too long to print. */
  datatype Key = Named(name: string) | Unnamed(id: int, prints: bool)

  datatype Yaml =
    | Null
    | Bool(flag: bool)
    | Int(n: int)
    | Float(zero: bool)
    | Str(s: string)
    | List(items: seq<Yaml>)
    | Map(fields: seq<(Key, Yaml)>)

  type Fields = seq<(Key, Yaml)>

  /** dict.get; keys are unique. */
  function Get(fields: Fields, name: string): Option<Yaml> {
    if fields == [] then None
    else if fields[0].0 == Named(name) then Some(fields[0].1)
    else Get(fields[1..], name)
  }

  /** An assignment to a key that is there. */
  function Put(fields: Fields, name: string, value: Yaml): (r: Fields)
    ensures |r| == |fields|
    ensures forall i :: 0 <= i < |fields| ==> r[i].0 == fields[i].0
  {
    if fields == [] then []
    else if fields[0].0 == Named(name) then [(Named(name), value)] + fields[1..]
    else [fields[0]] + Put(fields[1..], name, value)
  }

  lemma {:induction false} GetPut(fields: Fields, name: string, value: Yaml, other: string)
    ensures Get(Put(fields, name, value), other) ==
      if other == name && Get(fields, name).Some? then Some(value) else Get(fields, other)
  {
    if fields != [] && fields[0].0 != Named(name) {
      GetPut(fields[1..], name, value, other);
      assert Put(fields, name, value)[1..] == Put(fields[1..], name, value);
    } else if fields != [] {
      assert Put(fields, name, value)[1..] == fields[1..];
    }
  }

  lemma {:induction false} PutSame(fields: Fields, name: string, value: Yaml)
    requires Get(fields, name) == Some(value)
    ensures Put(fields, name, value) == fields
  {
    if fields[0].0 != Named(name) {
      PutSame(fields[1..], name, value);
    } else {
      assert fields[0] == (Named(name), value);
    }
  }

  function GetOrNull(fields: Fields, name: string): Yaml {
    var v := Get(fields, name);
    if v.Some? then v.value else Null
  }

  predicate Truthy(y: Yaml) {
    match y
    case Null => false
    case Bool(flag) => flag
    case Int(n) => n != 0
    case Float(zero) => !zero
    case Str(s) => s != ""
    case List(items) => items != []
    case Map(fields) => fields != []
  }

  /** Python converts no more than this many digits between text and integers. */
  const MAX_INT_DIGITS := 4300

  predicate TooLong(n: int) {
    |Digits(if n < 0 then -n else n)| > MAX_INT_DIGITS
  }

  /** A value whose repr raises: an integer of too many digits is somewhere in it. */
  predicate Unprintable(y: Yaml) {
    match y
    case Int(n) => TooLong(n)
    case List(items) => exists i :: 0 <= i < |items| && Unprintable(items[i])
    case Map(fields) =>
      exists i :: 0 <= i < |fields| && ((fields[i].0.Unnamed? && !fields[i].0.prints) || Unprintable(fields[i].1))
    case _ => false
  }

  /** Uncaught is an exception the shape pass does not name. A refusal carries what its message shows. */
  datatype Outcome<+T> = Fine(value: T) | Refused(service: string, key: string, shown: Yaml) | Uncaught

  /** What reaches the caller is not the refusal but the ValueError of printing it. */
  predicate Escapes<T>(o: Outcome<T>) {
    o.Uncaught? || (o.Refused? && Unprintable(o.shown))
  }

  // ---- Ports ---------------------------------------------------------------------------------

  const PROTOCOLS := {"tcp", "udp"}

  datatype Port = Port(target: string, protocol: Option<string>)

  /** A container port as text. */
  predicate IsTarget(t: string) {
    0 < |t| <= MAX_INT_DIGITS && AllDigits(t) && 0 < Decimal(t) < 65536
  }

  /** A digit to str.isdigit that int() does not convert: superscripts, subscripts, circled digits and the like. */
  predicate IsOddDigit(c: char) {
    var n := c as int;
    || n == 0xB2 || n == 0xB3 || n == 0xB9 || 0x1369 <= n <= 0x1371 || n == 0x19DA || n == 0x2070
    || 0x2074 <= n <= 0x2079 || 0x2080 <= n <= 0x2089 || 0x2460 <= n <= 0x2468 || 0x2474 <= n <= 0x247C
    || 0x2488 <= n <= 0x2490 || n == 0x24EA || 0x24F5 <= n <= 0x24FD || n == 0x24FF || 0x2776 <= n <= 0x277E
    || 0x2780 <= n <= 0x2788 || 0x278A <= n <= 0x2792 || 0x10A40 <= n <= 0x10A43 || 0x10E60 <= n <= 0x10E68
    || 0x11052 <= n <= 0x1105A || 0x1F100 <= n <= 0x1F10A
  }

  /** A text that passes isdigit and makes int() raise. */
  predicate Unconvertible(t: string) {
    && t != "" && (forall i :: 0 <= i < |t| ==> IsDigit(t[i]) || IsOddDigit(t[i]))
    && (|t| > MAX_INT_DIGITS || exists i :: 0 <= i < |t| && IsOddDigit(t[i]))
  }

  function IntString(n: int): string {
    if n < 0 then "-" + Digits(-n) else Digits(n)
  }

  /** Where the last c is. */
  function LastIndex(s: string, c: char): Option<nat>
    ensures LastIndex(s, c).Some? ==> LastIndex(s, c).value < |s|
  {
    if s == "" then None
    else if s[|s| - 1] == c then Some(|s| - 1)
    else LastIndex(s[..|s| - 1], c)
  }

  /** str.rsplit(c, 1)[-1] */
  function AfterLast(s: string, c: char): string {
    var i := LastIndex(s, c);
    if i.Some? then s[i.value + 1..] else s
  }

  function Lower(s: string): string {
    if s == "" then ""
    else [if 'A' <= s[0] <= 'Z' then (s[0] - 'A') + 'a' else s[0]] + Lower(s[1..])
  }

  /** The target and protocol an entry spells, before they are checked; None is an entry of no legal form. */
  function SpeltPort(entry: Yaml): Option<(Yaml, Yaml)> {
    match entry
    case Int(n) => Some((Str(IntString(n)), Null))
    case Str(s) =>
      var slash := LastIndex(s, '/');
      var raw := if slash.Some? then s[..slash.value] else s;
      Some((Str(AfterLast(raw, ':')), if slash.Some? then Str(Lower(s[slash.value + 1..])) else Null))
    case Map(fields) =>
      var target := Get(fields, "target");
      if target.None? then None
      else
        var text := if target.value.Int? then Str(IntString(target.value.n)) else target.value;
        Some((text, GetOrNull(fields, "protocol")))
    case _ => None
  }

  /** The entry, or its target, is an integer that str() does not convert. */
  predicate IsTooLong(entry: Yaml) {
    || (entry.Int? && TooLong(entry.n))
    || (entry.Map? && Get(entry.fields, "target").Some?
        && Get(entry.fields, "target").value.Int? && TooLong(Get(entry.fields, "target").value.n))
  }

  /** _normalize_port. A target that cannot be converted raises, and so does the membership test of a protocol that
      cannot be hashed. */
  function NormalizePort(entry: Yaml, service: string): Outcome<Port> {
    var spelt := SpeltPort(entry);
    if IsTooLong(entry) then Uncaught
    else if spelt.None? then Refused(service, "ports", entry)
    else
      var (target, protocol) := spelt.value;
      if target.Str? && Unconvertible(target.s) then Uncaught
      else if !target.Str? || !IsTarget(target.s) then Refused(service, "ports", entry)
      else if protocol.Null? then Fine(Port(target.s, None))
      else if protocol.List? || protocol.Map? then Uncaught
      else if protocol.Str? && protocol.s in PROTOCOLS then Fine(Port(target.s, Some(protocol.s)))
      else Refused(service, "ports", entry)
  }

  /** The dict a normalised port is. */
  function PortYaml(p: Port): Yaml {
    Map([(Named("target"), Str(p.target)),
         (Named("protocol"), if p.protocol.Some? then Str(p.protocol.value) else Null)])
  }

  lemma PortFields(p: Port)
    ensures SpeltPort(PortYaml(p)) == Some((Str(p.target), if p.protocol.Some? then Str(p.protocol.value) else Null))
  {
    var fields := PortYaml(p).fields;
    assert fields[1..][0] == fields[1];
    assert Get(fields, "target") == Some(Str(p.target));
    assert Get(fields, "protocol") == Some(if p.protocol.Some? then Str(p.protocol.value) else Null);
  }

  lemma TargetConverts(t: string)
    requires IsTarget(t)
    ensures !Unconvertible(t)
  {
    forall i | 0 <= i < |t| ensures !IsOddDigit(t[i]) {
      assert IsDigit(t[i]);
    }
  }

  lemma PortShape(entry: Yaml, service: string)
    ensures var r := NormalizePort(entry, service);
      && (r.Fine? ==> IsTarget(r.value.target) && (r.value.protocol.Some? ==> r.value.protocol.value in PROTOCOLS))
      && (r.Fine? ==> NormalizePort(PortYaml(r.value), service) == r)
      && (r.Refused? ==> r == Refused(service, "ports", entry))
  {
    hide SpeltPort, IsTarget, Unconvertible, TooLong;
    var r := NormalizePort(entry, service);
    if r.Fine? {
      PortFields(r.value);
      TargetConverts(r.value.target);
    }
  }

  /** A port escapes the named errors exactly when its target, or the entry itself, is an integer of more than 4300
      digits; or the target text is of digits that int() does not convert, because they are more than 4300 or one is
      a superscript or its like; or its long form has a good target and a list or mapping for protocol. */
  lemma PortUncaughtIff(entry: Yaml, service: string)
    ensures NormalizePort(entry, service).Uncaught? <==>
      || IsTooLong(entry)
      || (SpeltPort(entry).Some? && SpeltPort(entry).value.0.Str? && Unconvertible(SpeltPort(entry).value.0.s))
      || (&& entry.Map? && Get(entry.fields, "target").Some?
          && (GetOrNull(entry.fields, "protocol").List? || GetOrNull(entry.fields, "protocol").Map?)
          && (match Get(entry.fields, "target").value
              case Int(n) => IsTarget(IntString(n))
              case Str(t) => IsTarget(t)
              case _ => false))
  {
    hide LastIndex, AfterLast, Lower, IsTarget, IntString, Unconvertible, TooLong;
  }

  /** Two ports a tenant can send that make the pass raise what it does not name: one with 4300 zeros in front, and
      one in superscript. */
  lemma ZerosAndSuperscriptsEscape(zeros: string, service: string)
    requires |zeros| == 4300 && forall i :: 0 <= i < |zeros| ==> zeros[i] == '0'
    ensures NormalizePort(Str(zeros + "80"), service).Uncaught?
    ensures NormalizePort(Str("8\U{00B2}"), service).Uncaught?
  {
    hide SpeltPort, AfterLast, IsTarget;
    var long, odd := zeros + "80", "8\U{00B2}";
    assert |long| == MAX_INT_DIGITS + 2 && forall i :: 0 <= i < |long| ==> IsDigit(long[i]);
    assert Unconvertible(long);
    assert IsDigit(odd[0]) && IsOddDigit(odd[1]);
    assert Unconvertible(odd);
    SpeltBare(long);
    SpeltBare(odd);
    AfterHost("", long);
    AfterHost("", odd);
  }

  /** The integer ports 1 to 65535, and no others, are accepted as integers. */
  lemma IntegerPortIff(n: int, service: string)
    ensures NormalizePort(Int(n), service).Fine? <==> 0 < n < 65536
    ensures 0 < n < 65536 ==> NormalizePort(Int(n), service) == Fine(Port(Digits(n), None)) && Decimal(Digits(n)) == n
  {
    hide Digits, Decimal, Unconvertible;
    if n < 0 {
      assert IntString(n)[0] == '-';
    } else {
      DigitsRoundTrip(n);
      if n < 65536 {
        assert Pow10(5) == 100000;
        DigitsFit(n, 5);
        if 0 < n {
          TargetConverts(Digits(n));
        }
      }
    }
  }

  /** A long port is accepted exactly with a number, or its text, for a target and with no protocol or one of two. */
  lemma LongPortIff(fields: Fields, service: string, p: Port)
    ensures NormalizePort(Map(fields), service) == Fine(p) <==>
      && IsTarget(p.target)
      && (|| Get(fields, "target") == Some(Str(p.target))
          || exists n: nat :: Get(fields, "target") == Some(Int(n)) && Digits(n) == p.target)
      && match p.protocol
         case None => GetOrNull(fields, "protocol") == Null
         case Some(name) => (name == "tcp" || name == "udp") && GetOrNull(fields, "protocol") == Str(name)
  {
    hide Get, Digits, Decimal, Unconvertible;
    var target := Get(fields, "target");
    if IsTarget(p.target) {
      TargetConverts(p.target);
    }
    if target.Some? && target.value.Int? && target.value.n < 0 {
      assert IntString(target.value.n)[0] == '-';
    }
  }

  lemma {:induction false} LastIndexAt(before: string, c: char, rest: string)
    requires c !in rest
    ensures LastIndex(before + [c] + rest, c) == Some(|before|)
  {
    var s := before + [c] + rest;
    if rest != "" {
      assert s[..|s| - 1] == before + [c] + rest[..|rest| - 1];
      assert s[|s| - 1] == rest[|rest| - 1];
      LastIndexAt(before, c, rest[..|rest| - 1]);
    }
  }

  lemma TargetIsPlain(t: string)
    requires IsTarget(t)
    ensures ':' !in t && '/' !in t
  {
    assert forall i :: 0 <= i < |t| ==> IsDigit(t[i]);
  }

  lemma SpeltBare(raw: string)
    requires '/' !in raw
    ensures SpeltPort(Str(raw)) == Some((Str(AfterLast(raw, ':')), Null))
  {
    hide AfterLast;
    NoLastIndex(raw, '/');
  }

  lemma SpeltWithProtocol(raw: string, proto: string)
    requires '/' !in proto
    ensures SpeltPort(Str(raw + "/" + proto)) == Some((Str(AfterLast(raw, ':')), Str(Lower(proto))))
  {
    hide AfterLast, Lower, LastIndex;
    LastIndexAt(raw, '/', proto);
    assert (raw + "/" + proto)[..|raw|] == raw && (raw + "/" + proto)[|raw| + 1..] == proto;
  }

  lemma AfterHost(host: string, t: string)
    requires ':' !in t
    ensures AfterLast(t, ':') == t && AfterLast(host + ":" + t, ':') == t
  {
    hide LastIndex;
    NoLastIndex(t, ':');
    LastIndexAt(host, ':', t);
    assert (host + ":" + t)[|host| + 1..] == t;
  }

  /** The short spellings: a bare port, one behind a host part, and either with a protocol in any case. */
  lemma ShortPort(host: string, t: string, proto: string, service: string)
    requires IsTarget(t) && '/' !in proto && Lower(proto) in PROTOCOLS
    ensures NormalizePort(Str(t), service) == Fine(Port(t, None))
    ensures NormalizePort(Str(t + "/" + proto), service) == Fine(Port(t, Some(Lower(proto))))
    ensures '/' !in host ==> NormalizePort(Str(host + ":" + t), service) == Fine(Port(t, None))
    ensures NormalizePort(Str(host + ":" + t + "/" + proto), service) == Fine(Port(t, Some(Lower(proto))))
  {
    hide SpeltPort, Lower, IsTarget, AfterLast, Unconvertible;
    TargetConverts(t);
    TargetIsPlain(t);
    AfterHost(host, t);
    SpeltBare(t);
    SpeltWithProtocol(t, proto);
    SpeltWithProtocol(host + ":" + t, proto);
    if '/' !in host {
      SpeltBare(host + ":" + t);
    }
  }

  /** One container port has more than one spelling: each with a leading zero is accepted, is the same port, and
      counts as a different one, so one service may list both. */
  lemma LeadingZeroIsAnotherTarget(t: string, service: string)
    requires IsTarget(t) && |t| < MAX_INT_DIGITS
    ensures NormalizePort(Str("0" + t), service) == Fine(Port("0" + t, None))
    ensures Decimal("0" + t) == Decimal(t) && "0" + t != t
    ensures ReadPorts([Str(t), Str("0" + t)], service) == Fine([Port(t, None), Port("0" + t, None)])
    ensures DistinctTargets([Port(t, None), Port("0" + t, None)])
  {
    hide SpeltPort, AfterLast, IsTarget, DistinctTargets, Unconvertible;
    ZeroIsTarget(t);
    TargetConverts(t);
    TargetConverts("0" + t);
    TargetIsPlain(t);
    TargetIsPlain("0" + t);
    AfterHost("", t);
    AfterHost("", "0" + t);
    SpeltBare(t);
    SpeltBare("0" + t);
    PairIsDistinct(Port(t, None), Port("0" + t, None));
    ReadPair(Str(t), Str("0" + t), service);
  }

  lemma ZeroIsTarget(t: string)
    requires IsTarget(t) && |t| < MAX_INT_DIGITS
    ensures IsTarget("0" + t) && Decimal("0" + t) == Decimal(t) && "0" + t != t
  {
    ZeroInFront(t);
    assert |"0" + t| == |t| + 1;
  }

  lemma PairIsDistinct(p: Port, q: Port)
    requires p.target != q.target
    ensures DistinctTargets([p, q])
  {
  }

  lemma ReadPair(a: Yaml, b: Yaml, service: string)
    requires NormalizePort(a, service).Fine? && NormalizePort(b, service).Fine?
    ensures ReadPorts([a, b], service) == Fine([NormalizePort(a, service).value, NormalizePort(b, service).value])
  {
    hide NormalizePort;
    var p, q := NormalizePort(a, service).value, NormalizePort(b, service).value;
    var last := [b];
    assert last[1..] == [] && [q] + [] == [q];
    assert ReadPorts(last, service) == Fine([q]);
    var both := [a, b];
    assert both[1..] == last && [p] + [q] == [p, q];
  }

  /** The number without its leading zeros. */
  function Trim(t: string): string {
    if t != "" && t[0] == '0' then Trim(t[1..]) else t
  }

  lemma {:induction false} TrimKeeps(t: string)
    requires AllDigits(t)
    ensures AllDigits(Trim(t)) && Decimal(Trim(t)) == Decimal(t)
    ensures Trim(t) == "" || Trim(t)[0] != '0'
  {
    if t != "" && t[0] == '0' {
      TrimKeeps(t[1..]);
      ZeroInFront(t[1..]);
      assert t == "0" + t[1..];
    }
  }

  /** Without leading zeros a number has one spelling. */
  lemma {:induction false} OneSpelling(t: string)
    requires AllDigits(t) && t != "" && t[0] != '0'
    ensures Decimal(t) > 0 && Digits(Decimal(t)) == t
  {
    var front, d := t[..|t| - 1], (t[|t| - 1] - '0') as nat;
    assert t == front + [(d as char) + '0'];
    if front != "" {
      OneSpelling(front);
      assert Decimal(t) / 10 == Decimal(front) && Decimal(t) % 10 == d;
    } else {
      assert Decimal(front) == 0;
    }
  }

  /** Two spellings are one port exactly when they differ in leading zeros at most. */
  lemma SamePortIff(a: string, b: string)
    requires AllDigits(a) && AllDigits(b)
    ensures Decimal(a) == Decimal(b) <==> Trim(a) == Trim(b)
  {
    hide Trim, Digits, Decimal;
    TrimKeeps(a);
    TrimKeeps(b);
    EmptyIsZero();
    if Trim(a) != "" {
      OneSpelling(Trim(a));
    }
    if Trim(b) != "" {
      OneSpelling(Trim(b));
    }
  }

  lemma EmptyIsZero()
    ensures Decimal("") == 0
  {
  }

  lemma {:induction false} ZeroInFront(t: string)
    requires AllDigits(t)
    ensures AllDigits("0" + t) && Decimal("0" + t) == Decimal(t)
    decreases |t|
  {
    if t != "" {
      ZeroInFront(t[..|t| - 1]);
      assert ("0" + t)[..|t|] == "0" + t[..|t| - 1];
    } else {
      assert ("0" + t)[..0] == "";
    }
  }

  lemma {:induction false} NoLastIndex(s: string, c: char)
    requires c !in s
    ensures LastIndex(s, c).None?
  {
    if s != "" {
      NoLastIndex(s[..|s| - 1], c);
    }
  }

  // ---- Volumes -------------------------------------------------------------------------------

  const MOUNT_MODES := {"ro", "rw", "z", "Z", "cached", "delegated", "consistent", "default"}

  datatype Mount = Mount(source: string, target: string, mode: Option<string>)

  /** str.split(":") */
  function Parts(s: string): (parts: seq<string>)
    ensures parts != []
  {
    if s == "" then [""]
    else
      var rest := Parts(s[1..]);
      if s[0] == ':' then [""] + rest else [[s[0]] + rest[0]] + rest[1..]
  }

  /** A named volume, not a path on the host. */
  predicate IsVolumeName(s: string) {
    s != "" && s[0] != '/' && s[0] != '.' && s[0] != '~'
  }

  predicate IsAbsolute(s: string) {
    s != "" && s[0] == '/'
  }

  /** The checks at the end of _normalize_volume; str methods are called on what may be no string. */
  function CheckMount(source: Yaml, target: Yaml, mode: Option<string>, service: string, entry: Yaml): Outcome<Mount>
  {
    if !Truthy(source) || !Truthy(target) then Refused(service, "volumes", entry)
    else if !source.Str? then Uncaught
    else if !IsVolumeName(source.s) then Refused(service, "volumes", entry)
    else if !target.Str? then Uncaught
    else if !IsAbsolute(target.s) then Refused(service, "volumes", entry)
    else Fine(Mount(source.s, target.s, mode))
  }

  /** Access of a long entry: `read_only: true`, or a mode of ro or rw. */
  function LongMode(fields: Fields): Option<string> {
    var mode := GetOrNull(fields, "mode");
    if GetOrNull(fields, "read_only") == Bool(true) then Some("ro")
    else if mode == Str("ro") || mode == Str("rw") then Some(mode.s)
    else None
  }

  /** A long entry that gets as far as its source and target. */
  predicate PlainLong(fields: Fields) {
    && !(GetOrNull(fields, "volume").Map? && Truthy(GetOrNull(fields, "volume")))
    && (Get(fields, "type").None? || Get(fields, "type").value == Str("volume"))
    && Get(fields, "target").Some?
  }

  /** _normalize_volume */
  function NormalizeVolume(entry: Yaml, service: string): Outcome<Mount> {
    match entry
    case Str(s) =>
      var parts := Parts(s);
      if |parts| == 2 then CheckMount(Str(parts[0]), Str(parts[1]), None, service, entry)
      else if |parts| == 3 && parts[2] in MOUNT_MODES then
        CheckMount(Str(parts[0]), Str(parts[1]), Some(parts[2]), service, entry)
      else Refused(service, "volumes", entry)
    case Map(fields) =>
      if !PlainLong(fields) then Refused(service, "volumes", entry)
      else CheckMount(GetOrNull(fields, "source"), GetOrNull(fields, "target"), LongMode(fields), service, entry)
    case _ => Refused(service, "volumes", entry)
  }

  function MountYaml(m: Mount): Yaml {
    Map([(Named("source"), Str(m.source)), (Named("target"), Str(m.target)),
         (Named("mode"), if m.mode.Some? then Str(m.mode.value) else Null)])
  }

  function JoinParts(parts: seq<string>): string
    requires parts != []
  {
    if |parts| == 1 then parts[0] else parts[0] + (":" + JoinParts(parts[1..]))
  }

  lemma Regroup(a: string, b: string, c: string)
    ensures (a + b) + c == a + (b + c)
  {
  }

  lemma JoinCons(p: string, rest: seq<string>)
    ensures JoinParts([p] + rest) == if rest == [] then p else p + (":" + JoinParts(rest))
  {
    assert ([p] + rest)[1..] == rest;
  }

  lemma JoinGrows(c: char, parts: seq<string>)
    requires parts != []
    ensures JoinParts([[c] + parts[0]] + parts[1..]) == [c] + JoinParts(parts)
    ensures JoinParts([""] + parts) == ":" + JoinParts(parts)
  {
    hide JoinParts;
    var rest := parts[1..];
    assert parts == [parts[0]] + rest;
    JoinCons(parts[0], rest);
    JoinCons([c] + parts[0], rest);
    JoinCons("", parts);
    assert "" + (":" + JoinParts(parts)) == ":" + JoinParts(parts);
    if rest != [] {
      Regroup([c], parts[0], ":" + JoinParts(rest));
    }
  }

  lemma {:induction false} PartsRoundTrip(s: string)
    ensures JoinParts(Parts(s)) == s
  {
    hide JoinParts;
    if s != "" {
      PartsRoundTrip(s[1..]);
      JoinGrows(s[0], Parts(s[1..]));
      assert s == [s[0]] + s[1..];
    } else {
      JoinOne("");
    }
  }

  lemma JoinOne(p: string)
    ensures JoinParts([p]) == p
  {
  }

  lemma {:induction false} PartsArePlain(s: string, i: nat)
    requires i < |Parts(s)|
    ensures ':' !in Parts(s)[i]
  {
    if s != "" {
      if s[0] == ':' {
        if i > 0 {
          PartsArePlain(s[1..], i - 1);
        }
      } else {
        PartsArePlain(s[1..], i);
        if i == 0 {
          assert Parts(s)[0] == [s[0]] + Parts(s[1..])[0];
        }
      }
    }
  }

  lemma {:induction false} PartsOf(a: string, rest: string)
    requires ':' !in a
    ensures Parts(a) == [a] && Parts(a + ":" + rest) == [a] + Parts(rest)
  {
    var s := a + ":" + rest;
    if a == "" {
      assert s[1..] == rest;
    } else {
      PartsOf(a[1..], rest);
      assert s[1..] == a[1..] + ":" + rest;
      assert a == [a[0]] + a[1..];
    }
  }

  /** A short entry is accepted exactly when it reads SOURCE:TARGET or SOURCE:TARGET:MODE with a named source, an
      absolute target and a documented mode, and then means just that. */
  lemma ShortVolumeIff(s: string, service: string, m: Mount)
    ensures NormalizeVolume(Str(s), service) == Fine(m) <==>
      && ':' !in m.source && m.source != "" && m.source[0] != '/' && m.source[0] != '.' && m.source[0] != '~'
      && ':' !in m.target && m.target != "" && m.target[0] == '/'
      && (m.mode.Some? ==>
            m.mode.value in {"ro", "rw", "z", "Z", "cached", "delegated", "consistent", "default"})
      && s == m.source + ":" + m.target + (if m.mode.Some? then ":" + m.mode.value else "")
  {
    hide Parts;
    var parts := Parts(s);
    PartsRoundTrip(s);
    forall i | 0 <= i < |parts| ensures ':' !in parts[i] {
      PartsArePlain(s, i);
    }
    if |parts| == 2 {
      assert parts == [parts[0]] + ([parts[1]] + []);
      JoinCons(parts[1], []);
      JoinCons(parts[0], [parts[1]] + []);
      assert parts[0] + (":" + parts[1]) == parts[0] + ":" + parts[1] + "";
    } else if |parts| == 3 {
      JoinThree(parts);
    }
    if ':' !in m.source && ':' !in m.target && (m.mode.Some? ==> m.mode.value in MOUNT_MODES) {
      PartsOf(m.source, m.target);
      PartsOf(m.target, "");
      if m.mode.Some? {
        ModesArePlain(m.mode.value);
        PartsOf(m.mode.value, "");
        PartsOf(m.target, m.mode.value);
        PartsOf(m.source, m.target + ":" + m.mode.value);
        assert m.source + ":" + (m.target + ":" + m.mode.value) == m.source + ":" + m.target + (":" + m.mode.value);
      } else {
        assert m.source + ":" + m.target + "" == m.source + ":" + m.target;
      }
    }
  }

  lemma JoinThree(parts: seq<string>)
    requires |parts| == 3
    ensures JoinParts(parts) == parts[0] + ":" + parts[1] + (":" + parts[2])
  {
    hide JoinParts;
    var (a, b, c) := (parts[0], parts[1], parts[2]);
    assert parts == [a] + ([b] + ([c] + []));
    JoinCons(c, []);
    JoinCons(b, [c] + []);
    JoinCons(a, [b] + ([c] + []));
    Regroup(":", b, ":" + c);
    Regroup(a, ":" + b, ":" + c);
    Regroup(a, ":", b);
  }

  lemma NamesAndPathsAreText()
    ensures !IsVolumeName("") && !IsAbsolute("")
  {
  }

  lemma ModesArePlain(mode: string)
    requires mode in MOUNT_MODES
    ensures ':' !in mode
  {
  }

  /** The modes the long form can say. */
  predicate LongModeKeeps(mode: Option<string>) {
    mode.None? || mode.value == "ro" || mode.value == "rw"
  }

  /** An accepted volume has the stated shape; normalised again it loses a mode the long form cannot say. */
  lemma VolumeShape(entry: Yaml, service: string)
    ensures var r := NormalizeVolume(entry, service);
      r.Fine? ==>
        && IsVolumeName(r.value.source) && IsAbsolute(r.value.target)
        && (r.value.mode.Some? ==> r.value.mode.value in MOUNT_MODES)
        && NormalizeVolume(MountYaml(r.value), service)
             == Fine(r.value.(mode := if LongModeKeeps(r.value.mode) then r.value.mode else None))
    ensures var r := NormalizeVolume(entry, service); r.Refused? ==> r == Refused(service, "volumes", entry)
  {
    hide Parts, IsVolumeName, IsAbsolute;
    NamesAndPathsAreText();
    var r := NormalizeVolume(entry, service);
    if r.Fine? {
      MountFields(r.value);
    }
  }

  /** A long entry is accepted exactly when it is a volume without options, from a named source to an absolute target;
      `read_only: true` makes it ro whatever the mode, and of the modes ro and rw are kept. */
  lemma LongVolumeIff(fields: Fields, service: string, m: Mount)
    ensures NormalizeVolume(Map(fields), service) == Fine(m) <==>
      && (GetOrNull(fields, "volume").Map? ==> GetOrNull(fields, "volume") == Map([]))
      && (Get(fields, "type") == None || Get(fields, "type") == Some(Str("volume")))
      && GetOrNull(fields, "source") == Str(m.source) && Get(fields, "target") == Some(Str(m.target))
      && m.source != "" && m.source[0] != '/' && m.source[0] != '.' && m.source[0] != '~'
      && m.target != "" && m.target[0] == '/'
      && m.mode ==
           if GetOrNull(fields, "read_only") == Bool(true) || GetOrNull(fields, "mode") == Str("ro") then Some("ro")
           else if GetOrNull(fields, "mode") == Str("rw") then Some("rw") else None
  {
    hide Get;
  }

  lemma MountFields(m: Mount)
    ensures var f := MountYaml(m).fields;
      && Get(f, "source") == Some(Str(m.source)) && Get(f, "target") == Some(Str(m.target))
      && Get(f, "mode") == Some(if m.mode.Some? then Str(m.mode.value) else Null)
      && Get(f, "read_only").None? && Get(f, "volume").None? && Get(f, "type").None?
  {
    var f := MountYaml(m).fields;
    assert f[1..][0] == f[1] && f[1..][1..] == f[2..] && f[2..][0] == f[2] && f[2..][1..] == [];
    forall name ensures Get(f, name) ==
      if name == "source" then Some(f[0].1) else if name == "target" then Some(f[1].1)
      else if name == "mode" then Some(f[2].1) else None
    {
      assert Get(f[2..][1..], name).None?;
      assert Get(f[2..], name) == if name == "mode" then Some(f[2].1) else None;
      assert Get(f[1..], name) == if name == "target" then Some(f[1].1) else Get(f[2..], name);
    }
  }

  /** A volume escapes the named errors exactly when it is a long one that gets as far as its source and target
      and the first of them that is not acceptable is a non-empty value that is no string. */
  lemma VolumeUncaughtIff(entry: Yaml, service: string)
    ensures NormalizeVolume(entry, service).Uncaught? <==>
      && entry.Map? && PlainLong(entry.fields)
      && Truthy(GetOrNull(entry.fields, "source")) && Truthy(GetOrNull(entry.fields, "target"))
      && (|| !GetOrNull(entry.fields, "source").Str?
          || (IsVolumeName(GetOrNull(entry.fields, "source").s) && !GetOrNull(entry.fields, "target").Str?))
  {
    hide Parts, IsVolumeName, IsAbsolute;
    NamesAndPathsAreText();
  }

  // ---- Service networks ------------------------------------------------------------------------

  /** The names in a list or the keys of a mapping; None when one is no string. */
  function NamesOf(items: seq<Yaml>): Option<seq<string>> {
    if items == [] then Some([])
    else
      var rest := NamesOf(items[1..]);
      if items[0].Str? && rest.Some? then Some([items[0].s] + rest.value) else None
  }

  function KeysOf(fields: Fields): Option<seq<string>> {
    if fields == [] then Some([])
    else
      var rest := KeysOf(fields[1..]);
      if fields[0].0.Named? && rest.Some? then Some([fields[0].0.name] + rest.value) else None
  }

  /** _normalize_service_networks */
  function NormalizeNetworks(entry: Yaml): Option<seq<string>> {
    match entry
    case Str(s) => Some([s])
    case List(items) => NamesOf(items)
    case Map(fields) => KeysOf(fields)
    case _ => None
  }

  function NamesYaml(names: seq<string>): (items: seq<Yaml>)
    ensures |items| == |names| && forall i :: 0 <= i < |names| ==> items[i] == Str(names[i])
  {
    if names == [] then [] else [Str(names[0])] + NamesYaml(names[1..])
  }

  lemma {:induction false} NamesRoundTrip(names: seq<string>)
    ensures NamesOf(NamesYaml(names)) == Some(names)
  {
    if names == [] {
      assert NamesYaml(names) == [];
    } else {
      NamesRoundTrip(names[1..]);
      assert NamesYaml(names)[1..] == NamesYaml(names[1..]);
      assert names == [names[0]] + names[1..];
    }
  }

  // ---- The key allowlist -----------------------------------------------------------------------

  const TOP_KEYS := {"version", "services", "volumes", "networks"}
  const MANAGED_KEYS := {"ports", "volumes", "networks"}
  const PRIVILEGED_KEYS := {"cap_add", "cap_drop", "devices", "sysctls"}
  const BASE_KEYS := {"image", "environment", "command", "entrypoint", "depends_on", "healthcheck", "labels", "restart",
                      "user", "working_dir", "tmpfs", "stop_grace_period", "expose", "init", "platform", "shm_size",
                      "ulimits", "logging"}
  const NEVER_GRANTABLE := {"env_file"}

  /** The service keys in force. */
  function ServiceKeys(strict: bool, extra: set<string>): set<string> {
    BASE_KEYS + (if strict then {} else PRIVILEGED_KEYS) + (extra - NEVER_GRANTABLE) + MANAGED_KEYS
  }

  predicate KeysIn(fields: Fields, allowed: set<string>) {
    forall i :: 0 <= i < |fields| ==> fields[i].0.Named? && fields[i].0.name in allowed
  }

  /** _validate_keys: only mappings are looked into, the rest is refused later. */
  predicate KeysAllowed(fields: Fields, strict: bool, extra: set<string>) {
    && KeysIn(fields, TOP_KEYS)
    && (GetOrNull(fields, "services").Map? ==>
          ServicesAllowed(GetOrNull(fields, "services").fields, ServiceKeys(strict, extra)))
  }

  predicate ServicesAllowed(services: Fields, allowed: set<string>) {
    forall i :: 0 <= i < |services| && services[i].1.Map? ==> KeysIn(services[i].1.fields, allowed)
  }

  /** The allowlist, key by key. */
  lemma KeysAllowedIff(fields: Fields, strict: bool, extra: set<string>)
    ensures KeysAllowed(fields, strict, extra) <==>
      && (forall i :: 0 <= i < |fields| ==>
            fields[i].0.Named? && fields[i].0.name in {"version", "services", "volumes", "networks"})
      && (var services := GetOrNull(fields, "services");
          services.Map? ==>
            forall i, j :: 0 <= i < |services.fields| && services.fields[i].1.Map?
                           && 0 <= j < |services.fields[i].1.fields| ==>
              MayBeGiven(services.fields[i].1.fields[j].0, strict, extra))
  {
    hide Get, ServiceKeys;
    forall name ensures name in ServiceKeys(strict, extra) <==> MayBeGiven(Named(name), strict, extra) {
      KeyMayBeGiven(name, strict, extra);
    }
    var services := GetOrNull(fields, "services");
    if services.Map? {
      forall i | 0 <= i < |services.fields| && services.fields[i].1.Map?
        ensures KeysIn(services.fields[i].1.fields, ServiceKeys(strict, extra)) <==>
          forall j :: 0 <= j < |services.fields[i].1.fields| ==>
            MayBeGiven(services.fields[i].1.fields[j].0, strict, extra)
      {
      }
    }
  }

  /** A key a service may have: env_file never, the privileged ones outside the strict set or by a grant. */
  predicate MayBeGiven(key: Key, strict: bool, extra: set<string>) {
    && key.Named?
    && (|| key.name in {"ports", "volumes", "networks"}
        || key.name in {"image", "environment", "command", "entrypoint", "depends_on", "healthcheck", "labels",
                        "restart", "user", "working_dir", "tmpfs", "stop_grace_period", "expose", "init", "platform",
                        "shm_size", "ulimits", "logging"}
        || (!strict && key.name in {"cap_add", "cap_drop", "devices", "sysctls"})
        || (key.name in extra && key.name != "env_file"))
  }

  lemma KeyMayBeGiven(name: string, strict: bool, extra: set<string>)
    ensures name in ServiceKeys(strict, extra) <==> MayBeGiven(Named(name), strict, extra)
  {
  }

  function FirstOutside(fields: Fields, allowed: set<string>): (k: Option<Key>)
    ensures k.None? <==> KeysIn(fields, allowed)
  {
    if fields == [] then None
    else if !fields[0].0.Named? || fields[0].0.name !in allowed then Some(fields[0].0)
    else
      assert KeysIn(fields, allowed) <==> KeysIn(fields[1..], allowed) by {
        assert forall i :: 0 < i < |fields| ==> fields[i] == fields[1..][i - 1];
      }
      FirstOutside(fields[1..], allowed)
  }

  function FirstIn(services: Fields, allowed: set<string>): (keys: seq<Key>)
    ensures keys == [] <==> ServicesAllowed(services, allowed)
  {
    if services == [] then []
    else
      var key := if services[0].1.Map? then FirstOutside(services[0].1.fields, allowed) else None;
      assert ServicesAllowed(services, allowed) <==> key.None? && ServicesAllowed(services[1..], allowed) by {
        assert forall i :: 0 < i < |services| ==> services[i] == services[1..][i - 1];
      }
      if key.Some? then [services[0].0, key.value] else FirstIn(services[1..], allowed)
  }

  /** What the refusal of a key shows: the first one not allowed, behind its service's. */
  function FirstBadKey(fields: Fields, strict: bool, extra: set<string>): (keys: seq<Key>)
    ensures keys == [] <==> KeysAllowed(fields, strict, extra)
  {
    var top := FirstOutside(fields, TOP_KEYS);
    if top.Some? then [top.value]
    else if GetOrNull(fields, "services").Map?
    then FirstIn(GetOrNull(fields, "services").fields, ServiceKeys(strict, extra)) else []
  }

  function KeysYaml(keys: seq<Key>): Yaml {
    Map(seq(|keys|, i requires 0 <= i < |keys| => (keys[i], Null)))
  }

  function RefusedKey<T>(fields: Fields, strict: bool, extra: set<string>): Outcome<T> {
    Refused("", "key", KeysYaml(FirstBadKey(fields, strict, extra)))
  }

  // ---- One service -----------------------------------------------------------------------------

  datatype Service = Service(ports: Option<seq<Port>>, mounts: Option<seq<Mount>>, networks: Option<seq<string>>)

  const IMPLICIT_NETWORKS := {"default"}

  predicate IsSafeChar(c: char) {
    'a' <= c <= 'z' || 'A' <= c <= 'Z' || '0' <= c <= '9' || c == '.' || c == '_' || c == '-'
  }

  predicate IsSafeName(s: string) {
    s != "" && forall i :: 0 <= i < |s| ==> IsSafeChar(s[i])
  }

  /** `[a-zA-Z0-9._-]+` */
  lemma SafeNameIff(s: string)
    ensures IsSafeName(s) <==>
      && |s| > 0
      && forall i :: 0 <= i < |s| ==>
           || 'a' <= s[i] <= 'z' || 'A' <= s[i] <= 'Z' || '0' <= s[i] <= '9'
           || s[i] == '.' || s[i] == '_' || s[i] == '-'
  {
  }

  function Fail<T, U>(o: Outcome<T>): (r: Outcome<U>)
    requires !o.Fine?
    ensures !r.Fine? && (r.Uncaught? <==> o.Uncaught?)
    ensures r.Refused? ==> r.service == o.service && r.key == o.key && r.shown == o.shown
  {
    if o.Uncaught? then Uncaught else Refused(o.service, o.key, o.shown)
  }

  function ReadPorts(items: seq<Yaml>, service: string): Outcome<seq<Port>> {
    if items == [] then Fine([])
    else
      var first := NormalizePort(items[0], service);
      if !first.Fine? then Fail(first)
      else
        var rest := ReadPorts(items[1..], service);
        if !rest.Fine? then rest else Fine([first.value] + rest.value)
  }

  function ReadMounts(items: seq<Yaml>, service: string): Outcome<seq<Mount>> {
    if items == [] then Fine([])
    else
      var first := NormalizeVolume(items[0], service);
      if !first.Fine? then Fail(first)
      else
        var rest := ReadMounts(items[1..], service);
        if !rest.Fine? then rest else Fine([first.value] + rest.value)
  }

  function PortsYaml(ports: seq<Port>): (items: seq<Yaml>)
    ensures |items| == |ports| && forall i :: 0 <= i < |ports| ==> items[i] == PortYaml(ports[i])
  {
    if ports == [] then [] else [PortYaml(ports[0])] + PortsYaml(ports[1..])
  }

  function MountsYaml(mounts: seq<Mount>): (items: seq<Yaml>)
    ensures |items| == |mounts| && forall i :: 0 <= i < |mounts| ==> items[i] == MountYaml(mounts[i])
  {
    if mounts == [] then [] else [MountYaml(mounts[0])] + MountsYaml(mounts[1..])
  }

  /** No container port twice, as text. */
  predicate DistinctTargets(ports: seq<Port>) {
    forall i, j :: 0 <= i < j < |ports| ==> ports[i].target != ports[j].target
  }

  predicate AllDeclared(names: seq<string>, declared: set<string>) {
    forall i :: 0 <= i < |names| ==> names[i] in declared || names[i] in IMPLICIT_NETWORKS
  }

  function ReadService(name: string, fields: Fields, declared: set<string>): Outcome<Service> {
    var portsY, volumesY, networksY :=
      GetOrNull(fields, "ports"), GetOrNull(fields, "volumes"), GetOrNull(fields, "networks");
    if !portsY.Null? && !portsY.List? then Refused(name, "ports", portsY)
    else
      var ports := if portsY.List? then ReadPorts(portsY.items, name) else Fine([]);
      if !ports.Fine? then Fail(ports)
      else if !volumesY.Null? && !volumesY.List? then Refused(name, "volumes", volumesY)
      else
        var mounts := if volumesY.List? then ReadMounts(volumesY.items, name) else Fine([]);
        if !mounts.Fine? then Fail(mounts)
        else if !DistinctTargets(ports.value) then Refused(name, "ports", Null)  // an entry of strings
        else
          var names := if networksY.Null? then Some([]) else NormalizeNetworks(networksY);
          if names.None? || !AllDeclared(names.value, declared) then Refused(name, "networks", networksY)
          else Fine(Service(if portsY.List? then Some(ports.value) else None,
                            if volumesY.List? then Some(mounts.value) else None,
                            if networksY.Null? then None else names))
  }

  function PutIf(fields: Fields, name: string, value: Option<Yaml>): (r: Fields)
    ensures |r| == |fields| && forall i :: 0 <= i < |fields| ==> r[i].0 == fields[i].0
  {
    if value.Some? then Put(fields, name, value.value) else fields
  }

  function PortsOut(s: Service): Option<Yaml> {
    if s.ports.Some? then Some(List(PortsYaml(s.ports.value))) else None
  }

  function MountsOut(s: Service): Option<Yaml> {
    if s.mounts.Some? then Some(List(MountsYaml(s.mounts.value))) else None
  }

  function NetworksOut(s: Service): Option<Yaml> {
    if s.networks.Some? then Some(List(NamesYaml(s.networks.value))) else None
  }

  /** The service definition with its three blocks rewritten. */
  function WriteService(fields: Fields, s: Service): (r: Fields)
    ensures |r| == |fields| && forall i :: 0 <= i < |fields| ==> r[i].0 == fields[i].0
  {
    PutIf(PutIf(PutIf(fields, "ports", PortsOut(s)), "volumes", MountsOut(s)), "networks", NetworksOut(s))
  }

  /** What an accepted service promises. */
  predicate ServiceShape(s: Service, declared: set<string>) {
    && (s.ports.Some? ==>
          && DistinctTargets(s.ports.value)
          && forall p :: p in s.ports.value ==>
               IsTarget(p.target) && (p.protocol.Some? ==> p.protocol.value in PROTOCOLS))
    && (s.mounts.Some? ==>
          forall m :: m in s.mounts.value ==>
            IsVolumeName(m.source) && IsAbsolute(m.target) && (m.mode.Some? ==> m.mode.value in MOUNT_MODES))
    && (s.networks.Some? ==> AllDeclared(s.networks.value, declared))
  }

  /** That, spelled out. */
  lemma ShapeMeans(s: Service, declared: set<string>)
    requires ServiceShape(s, declared)
    ensures s.ports.Some? ==>
      && (forall i, j :: 0 <= i < j < |s.ports.value| ==> s.ports.value[i].target != s.ports.value[j].target)
      && (forall p :: p in s.ports.value ==>
            && 1 <= |p.target| <= 4300 && (forall i :: 0 <= i < |p.target| ==> '0' <= p.target[i] <= '9')
            && 1 <= Decimal(p.target) <= 65535
            && (p.protocol == None || p.protocol == Some("tcp") || p.protocol == Some("udp")))
    ensures s.mounts.Some? ==> forall m :: m in s.mounts.value ==>
      && m.source != "" && m.source[0] != '/' && m.source[0] != '.' && m.source[0] != '~'
      && m.target != "" && m.target[0] == '/'
      && (m.mode.Some? ==> m.mode.value in {"ro", "rw", "z", "Z", "cached", "delegated", "consistent", "default"})
    ensures s.networks.Some? ==> forall name :: name in s.networks.value ==> name in declared || name == "default"
  {
    if s.ports.Some? {
      forall p | p in s.ports.value
        ensures IsTarget(p.target) && forall i :: 0 <= i < |p.target| ==> '0' <= p.target[i] <= '9'
        ensures p.protocol == None || p.protocol == Some("tcp") || p.protocol == Some("udp")
      {
        assert p.protocol.Some? ==> p.protocol.value in PROTOCOLS;
        assert forall i :: 0 <= i < |p.target| ==> IsDigit(p.target[i]);
      }
    }
  }

  /** The modes a second pass keeps. */
  predicate ModesKeep(s: Service) {
    s.mounts.Some? ==> forall i :: 0 <= i < |s.mounts.value| ==> LongModeKeeps(s.mounts.value[i].mode)
  }

  function Dropped(m: Mount): Mount {
    m.(mode := if LongModeKeeps(m.mode) then m.mode else None)
  }

  function AllDropped(mounts: seq<Mount>): (r: seq<Mount>)
    ensures |r| == |mounts| && forall i :: 0 <= i < |mounts| ==> r[i] == Dropped(mounts[i])
  {
    if mounts == [] then [] else [Dropped(mounts[0])] + AllDropped(mounts[1..])
  }

  /** The service as a second pass reads it. */
  function Reread(s: Service): Service {
    s.(mounts := if s.mounts.Some? then Some(AllDropped(s.mounts.value)) else None)
  }

  lemma {:induction false} PortsReread(items: seq<Yaml>, service: string)
    requires ReadPorts(items, service).Fine?
    ensures var ports := ReadPorts(items, service).value;
      && ReadPorts(PortsYaml(ports), service) == Fine(ports)
      && forall p :: p in ports ==> IsTarget(p.target) && (p.protocol.Some? ==> p.protocol.value in PROTOCOLS)
  {
    hide NormalizePort, PortYaml, IsTarget;
    if items != [] {
      var ports := ReadPorts(items, service).value;
      PortsReread(items[1..], service);
      PortShape(items[0], service);
      assert ports[1..] == ReadPorts(items[1..], service).value;
      assert PortsYaml(ports)[1..] == PortsYaml(ports[1..]);
    }
  }

  lemma {:induction false} MountsReread(items: seq<Yaml>, service: string)
    requires ReadMounts(items, service).Fine?
    ensures var mounts := ReadMounts(items, service).value;
      && ReadMounts(MountsYaml(mounts), service) == Fine(AllDropped(mounts))
      && forall m :: m in mounts ==>
           IsVolumeName(m.source) && IsAbsolute(m.target) && (m.mode.Some? ==> m.mode.value in MOUNT_MODES)
  {
    hide NormalizeVolume, MountYaml, IsVolumeName, IsAbsolute, LongModeKeeps;
    if items != [] {
      var mounts := ReadMounts(items, service).value;
      MountsReread(items[1..], service);
      VolumeShape(items[0], service);
      assert mounts[1..] == ReadMounts(items[1..], service).value;
      assert MountsYaml(mounts)[1..] == MountsYaml(mounts[1..]);
    }
  }

  /** What a block holds once its reading is written back. */
  function Replaced(fields: Fields, name: string, value: Option<Yaml>): Option<Yaml> {
    if value.Some? && Get(fields, name).Some? then value else Get(fields, name)
  }

  lemma GetPutIf(fields: Fields, name: string, value: Option<Yaml>, other: string)
    ensures Get(PutIf(fields, name, value), other) ==
      if other == name then Replaced(fields, name, value) else Get(fields, other)
  {
    hide Get, Put;
    if value.Some? {
      GetPut(fields, name, value.value, other);
    }
  }

  lemma WriteGets(fields: Fields, s: Service)
    ensures var r := WriteService(fields, s);
      && Get(r, "ports") == Replaced(fields, "ports", PortsOut(s))
      && Get(r, "volumes") == Replaced(fields, "volumes", MountsOut(s))
      && Get(r, "networks") == Replaced(fields, "networks", NetworksOut(s))
      && forall other :: other !in MANAGED_KEYS ==> Get(r, other) == Get(fields, other)
  {
    hide Get, Put, PortsOut, MountsOut, NetworksOut;
    var f1 := PutIf(fields, "ports", PortsOut(s));
    var f2 := PutIf(f1, "volumes", MountsOut(s));
    forall other ensures Get(f1, other) == if other == "ports" then Replaced(fields, "ports", PortsOut(s))
      else Get(fields, other)
    {
      GetPutIf(fields, "ports", PortsOut(s), other);
    }
    forall other ensures Get(f2, other) == if other == "volumes" then Replaced(f1, "volumes", MountsOut(s))
      else Get(f1, other)
    {
      GetPutIf(f1, "volumes", MountsOut(s), other);
    }
    forall other ensures Get(WriteService(fields, s), other) ==
      if other == "networks" then Replaced(f2, "networks", NetworksOut(s)) else Get(f2, other)
    {
      GetPutIf(f2, "networks", NetworksOut(s), other);
    }
  }

  /** An accepted service has the stated shape, and read again from what was written it is the same but for the
      modes the long form cannot say. */
  lemma ServiceReread(name: string, fields: Fields, declared: set<string>)
    requires ReadService(name, fields, declared).Fine?
    ensures var s := ReadService(name, fields, declared).value;
      && ServiceShape(s, declared)
      && ReadService(name, WriteService(fields, s), declared) == Fine(Reread(s))
  {
    hide NormalizePort, NormalizeVolume, PortYaml, MountYaml, Get, Put, WriteService, ReadPorts, ReadMounts, IsTarget,
      NamesOf, AllDeclared;
    var s := ReadService(name, fields, declared).value;
    var r := WriteService(fields, s);
    WriteGets(fields, s);
    if s.ports.Some? {
      PortsReread(GetOrNull(fields, "ports").items, name);
    }
    if s.mounts.Some? {
      MountsReread(GetOrNull(fields, "volumes").items, name);
    }
    if s.networks.Some? {
      NamesRoundTrip(s.networks.value);
    }
  }

  lemma {:induction false} DropIsNothingIff(mounts: seq<Mount>)
    ensures (forall i :: 0 <= i < |mounts| ==> LongModeKeeps(mounts[i].mode)) <==>
      MountsYaml(AllDropped(mounts)) == MountsYaml(mounts)
    ensures (forall i :: 0 <= i < |mounts| ==> LongModeKeeps(mounts[i].mode)) <==> AllDropped(mounts) == mounts
  {
    var dropped := AllDropped(mounts);
    if i :| 0 <= i < |mounts| && !LongModeKeeps(mounts[i].mode) {
      assert dropped[i] != mounts[i];
      assert MountsYaml(dropped)[i] == PlainMount(mounts[i]);
      MountFields(mounts[i]);
      MountFields(dropped[i]);
    }
  }

  function PlainMount(m: Mount): Yaml {
    MountYaml(m.(mode := None))
  }

  /** Writing a service twice changes nothing more exactly when its modes are ones the long form can say. */
  lemma RewriteIff(name: string, fields: Fields, declared: set<string>)
    requires ReadService(name, fields, declared).Fine?
    ensures var s := ReadService(name, fields, declared).value; var once := WriteService(fields, s);
      WriteService(once, Reread(s)) == once <==> ModesKeep(s)
  {
    hide NormalizePort, NormalizeVolume, PortYaml, MountYaml, Get, Put, ReadPorts, ReadMounts, IsTarget, NamesOf,
      AllDeclared, WriteService, LongModeKeeps, MountsYaml, PortsYaml, NamesYaml, AllDropped;
    var s := ReadService(name, fields, declared).value;
    var once := WriteService(fields, s);
    var twice := WriteService(once, Reread(s));
    WriteGets(fields, s);
    WriteGets(once, Reread(s));
    if s.mounts.Some? {
      DropIsNothingIff(s.mounts.value);
    }
    if ModesKeep(s) {
      assert Reread(s) == s;
      WriteSame(once, s);
    }
  }

  lemma WriteSame(fields: Fields, s: Service)
    requires PortsOut(s).Some? ==> Get(fields, "ports") == PortsOut(s)
    requires MountsOut(s).Some? ==> Get(fields, "volumes") == MountsOut(s)
    requires NetworksOut(s).Some? ==> Get(fields, "networks") == NetworksOut(s)
    ensures WriteService(fields, s) == fields
  {
    hide Get, Put, PortsOut, MountsOut, NetworksOut;
    if PortsOut(s).Some? {
      PutSame(fields, "ports", PortsOut(s).value);
    }
    if MountsOut(s).Some? {
      PutSame(fields, "volumes", MountsOut(s).value);
    }
    if NetworksOut(s).Some? {
      PutSame(fields, "networks", NetworksOut(s).value);
    }
  }

  // ---- The whole file --------------------------------------------------------------------------

  function StringsIn(items: seq<Yaml>): set<string> {
    set i | 0 <= i < |items| && items[i].Str? :: items[i].s
  }

  function NamesIn(fields: Fields): set<string> {
    set i | 0 <= i < |fields| && fields[i].0.Named? :: fields[i].0.name
  }

  /** The top-level networks; None is neither mapping nor list. */
  function Declared(networks: Yaml): Option<set<string>> {
    if !Truthy(networks) then Some({})
    else match networks
      case List(items) => Some(StringsIn(items))
      case Map(fields) => Some(NamesIn(fields))
      case _ => None
  }

  /** A network is declared by a list that has its name or a mapping that has it for a key. */
  lemma DeclaredIff(networks: Yaml, name: string)
    ensures Declared(networks).Some? <==>
      networks in {Null, Bool(false), Int(0), Float(true), Str("")} || networks.List? || networks.Map?
    ensures Declared(networks).Some? ==>
      (name in Declared(networks).value <==>
         || (networks.List? && Str(name) in networks.items)
         || (networks.Map? && exists i :: 0 <= i < |networks.fields| && networks.fields[i].0 == Named(name)))
  {
    if networks.List? {
      assert forall i :: 0 <= i < |networks.items| && networks.items[i] == Str(name) ==> networks.items[i].Str?;
    }
  }

  predicate NamedServices(services: Fields) {
    forall i :: 0 <= i < |services| ==> services[i].0.Named? && services[i].0.name != ""
  }

  /** The first service key that is no name. */
  function FirstUnnamed(services: Fields): (k: Key)
    requires !NamedServices(services)
    ensures !k.Named? || k.name == ""
  {
    if !services[0].0.Named? || services[0].0.name == "" then services[0].0
    else
      assert !NamedServices(services[1..]) by {
        var i :| 0 <= i < |services| && (!services[i].0.Named? || services[i].0.name == "");
        assert services[1..][i - 1] == services[i];
      }
      FirstUnnamed(services[1..])
  }

  /** One turn of the service loop. */
  function NormalizeService(name: string, def: Yaml, declared: set<string>): Outcome<Yaml> {
    if !IsSafeName(name) then Refused("", "services", Str(name))
    else if !def.Map? then Refused(name, "<service>", def)
    else
      var read := ReadService(name, def.fields, declared);
      if read.Fine? then Fine(Map(WriteService(def.fields, read.value))) else Fail(read)
  }

  function NormalizeServices(services: Fields, declared: set<string>): Outcome<Fields>
    requires NamedServices(services)
  {
    if services == [] then Fine([])
    else
      var first := NormalizeService(services[0].0.name, services[0].1, declared);
      if !first.Fine? then Fail(first)
      else
        assert NamedServices(services[1..]);
        var rest := NormalizeServices(services[1..], declared);
        if !rest.Fine? then rest else Fine([(services[0].0, first.value)] + rest.value)
  }

  /** normalize_compose, as a function of the parsed file. */
  function Normalize(compose: Yaml, strict: bool, extra: set<string>): Outcome<Yaml> {
    if !compose.Map? then Refused("", "compose", compose)
    else if !KeysAllowed(compose.fields, strict, extra) then RefusedKey(compose.fields, strict, extra)
    else
      var services := GetOrNull(compose.fields, "services");
      if !services.Map? || services.fields == [] then Refused("", "services", services)
      else if !NamedServices(services.fields) then Refused("", "services", KeysYaml([FirstUnnamed(services.fields)]))
      else
        var declared := Declared(GetOrNull(compose.fields, "networks"));
        if declared.None? then Refused("", "networks", GetOrNull(compose.fields, "networks"))
        else
          var done := NormalizeServices(services.fields, declared.value);
          if done.Fine? then Fine(Map(Put(compose.fields, "services", Map(done.value)))) else Fail(done)
  }

  /** The i-th service as it was read. */
  function ServiceAt(services: Fields, i: nat, declared: set<string>): Outcome<Service>
    requires i < |services|
  {
    if services[i].0.Named? && services[i].1.Map? then ReadService(services[i].0.name, services[i].1.fields, declared)
    else Refused("", "services", services[i].1)
  }

  /** What accepted services look like. */
  predicate WellShaped(services: Fields, written: Fields, declared: set<string>) {
    && |written| == |services|
    && forall i :: 0 <= i < |services| ==>
         && services[i].0.Named? && IsSafeName(services[i].0.name) && services[i].1.Map?
         && ServiceAt(services, i, declared).Fine?
         && written[i].0 == services[i].0
         && written[i].1 == Map(WriteService(services[i].1.fields, ServiceAt(services, i, declared).value))
         && ServiceShape(ServiceAt(services, i, declared).value, declared)
  }

  lemma {:induction false} ServicesShape(services: Fields, declared: set<string>)
    requires NamedServices(services) && NormalizeServices(services, declared).Fine?
    ensures WellShaped(services, NormalizeServices(services, declared).value, declared)
  {
    hide ReadService, WriteService, ServiceShape, IsSafeName;
    if services != [] {
      var rest := services[1..];
      assert NamedServices(rest);
      ServicesShape(rest, declared);
      ServiceReread(services[0].0.name, services[0].1.fields, declared);
      var written := NormalizeServices(services, declared).value;
      assert written[1..] == NormalizeServices(rest, declared).value;
      forall i | 0 < i < |services|
        ensures rest[i - 1] == services[i] && written[1..][i - 1] == written[i]
        ensures ServiceAt(rest, i - 1, declared) == ServiceAt(services, i, declared)
      {
      }
    }
  }

  lemma {:induction false} WellShapedIsAccepted(services: Fields, written: Fields, declared: set<string>)
    requires NamedServices(services) && WellShaped(services, written, declared)
    ensures NormalizeServices(services, declared) == Fine(written)
  {
    hide ReadService, WriteService, ServiceShape, IsSafeName;
    if services != [] {
      var rest := services[1..];
      assert NamedServices(rest);
      forall i | 0 <= i < |rest|
        ensures rest[i] == services[i + 1] && written[1..][i] == written[i + 1]
        ensures ServiceAt(rest, i, declared) == ServiceAt(services, i + 1, declared)
      {
      }
      WellShapedIsAccepted(rest, written[1..], declared);
      assert written == [written[0]] + written[1..];
      assert services[0] == (services[0].0, services[0].1);
      assert ServiceAt(services, 0, declared).Fine?;
    }
  }

  /** The modes of every service are ones the long form can say. */
  predicate AllModesKeep(services: Fields, declared: set<string>) {
    forall i :: 0 <= i < |services| && ServiceAt(services, i, declared).Fine? ==>
      ModesKeep(ServiceAt(services, i, declared).value)
  }

  /** The services of a second pass. */
  function Rewritten(services: Fields, written: Fields, declared: set<string>): (again: Fields)
    requires WellShaped(services, written, declared)
    ensures |again| == |services|
    ensures forall i :: 0 <= i < |services| ==>
      && again[i].0 == services[i].0
      && again[i].1 == Map(WriteService(written[i].1.fields, Reread(ServiceAt(services, i, declared).value)))
  {
    seq(|services|, i requires 0 <= i < |services| =>
      (services[i].0, Map(WriteService(written[i].1.fields, Reread(ServiceAt(services, i, declared).value)))))
  }

  lemma SecondPass(services: Fields, written: Fields, declared: set<string>)
    requires NamedServices(services) && WellShaped(services, written, declared)
    ensures NamedServices(written)
    ensures NormalizeServices(written, declared) == Fine(Rewritten(services, written, declared))
    ensures Rewritten(services, written, declared) == written <==> AllModesKeep(services, declared)
  {
    hide ReadService, WriteService, ServiceShape, IsSafeName, NormalizeServices, ModesKeep, Reread;
    var again := Rewritten(services, written, declared);
    forall i | 0 <= i < |services|
      ensures ServiceAt(written, i, declared) == Fine(Reread(ServiceAt(services, i, declared).value))
      ensures ServiceShape(Reread(ServiceAt(services, i, declared).value), declared)
      ensures again[i] == written[i] <==> ModesKeep(ServiceAt(services, i, declared).value)
    {
      var name, fields := services[i].0.name, services[i].1.fields;
      ServiceReread(name, fields, declared);
      ServiceReread(name, written[i].1.fields, declared);
      RewriteIff(name, fields, declared);
    }
    WellShapedIsAccepted(written, again, declared);
  }

  /** An accepted file has the stated shape. */
  lemma AcceptedIsShaped(compose: Yaml, strict: bool, extra: set<string>)
    requires Normalize(compose, strict, extra).Fine?
    ensures var out := Normalize(compose, strict, extra).value;
      var services, declared := GetOrNull(compose.fields, "services"), Declared(GetOrNull(compose.fields, "networks"));
      && compose.Map? && services.Map? && services.fields != [] && declared.Some?
      && KeysAllowed(compose.fields, strict, extra)
      && exists written ::
           && out == Map(Put(compose.fields, "services", Map(written)))
           && WellShaped(services.fields, written, declared.value)
  {
    hide NormalizeServices, WellShaped, KeysAllowed, Put, Get, NamedServices, Declared;
    var services, declared := GetOrNull(compose.fields, "services"), Declared(GetOrNull(compose.fields, "networks"));
    ServicesShape(services.fields, declared.value);
  }

  /** No container port twice, as a number. */
  predicate DistinctPorts(ports: seq<Port>) {
    forall i, j :: 0 <= i < j < |ports| && AllDigits(ports[i].target) && AllDigits(ports[j].target) ==>
      Decimal(ports[i].target) != Decimal(ports[j].target)
  }

  /** Two entries that differ only in leading zeros. */
  predicate ZeroTwins(ports: seq<Port>) {
    exists i, j :: 0 <= i < j < |ports|
                   && ports[i].target != ports[j].target && Trim(ports[i].target) == Trim(ports[j].target)
  }

  /** The ports of an accepted service are distinct exactly when no two of its entries differ only in leading
      zeros. */
  lemma DistinctPortsIff(s: Service, declared: set<string>)
    requires ServiceShape(s, declared) && s.ports.Some?
    ensures DistinctPorts(s.ports.value) <==> !ZeroTwins(s.ports.value)
  {
    hide Decimal, Trim;
    var ports := s.ports.value;
    forall i, j | 0 <= i < j < |ports|
      ensures AllDigits(ports[i].target) && AllDigits(ports[j].target)
      ensures Decimal(ports[i].target) == Decimal(ports[j].target) <==> Trim(ports[i].target) == Trim(ports[j].target)
    {
      assert ports[i] in ports && ports[j] in ports;
      SamePortIff(ports[i].target, ports[j].target);
    }
  }

  /** And so for every service of an accepted file. */
  lemma AcceptedPortsIff(compose: Yaml, strict: bool, extra: set<string>, i: nat)
    requires Normalize(compose, strict, extra).Fine?
    requires GetOrNull(compose.fields, "services").Map? && i < |GetOrNull(compose.fields, "services").fields|
    ensures var services, declared := GetOrNull(compose.fields, "services").fields,
        Declared(GetOrNull(compose.fields, "networks"));
      && declared.Some? && ServiceAt(services, i, declared.value).Fine?
      && var ports := ServiceAt(services, i, declared.value).value.ports;
         ports.Some? ==> (DistinctPorts(ports.value) <==> !ZeroTwins(ports.value))
  {
    hide NormalizeServices, KeysAllowed, Put, Get, NamedServices, Declared, ServiceAt, ServiceShape, DistinctPorts,
      ZeroTwins;
    var services, declared := GetOrNull(compose.fields, "services").fields,
      Declared(GetOrNull(compose.fields, "networks")).value;
    ServicesShape(services, declared);
    if ServiceAt(services, i, declared).value.ports.Some? {
      DistinctPortsIff(ServiceAt(services, i, declared).value, declared);
    }
  }

  /** No grant opens env_file, and in the strict set nothing but a grant opens a privileged key. */
  lemma PrivilegedKeysNeedAGrant(compose: Yaml, strict: bool, extra: set<string>, i: nat, j: nat)
    requires Normalize(compose, strict, extra).Fine?
    requires var services := GetOrNull(compose.fields, "services");
      services.Map? && i < |services.fields| && services.fields[i].1.Map? && j < |services.fields[i].1.fields|
    ensures var key := GetOrNull(compose.fields, "services").fields[i].1.fields[j].0;
      && key.Named? && key.name != "env_file"
      && (strict && key.name in PRIVILEGED_KEYS ==> key.name in extra)
      && (key.name in BASE_KEYS + PRIVILEGED_KEYS + MANAGED_KEYS || key.name in extra)
  {
    hide NormalizeServices, Get, Declared, NamedServices, ServiceKeys;
    assert KeysAllowed(compose.fields, strict, extra);
    var services := GetOrNull(compose.fields, "services").fields;
    assert KeysIn(services[i].1.fields, ServiceKeys(strict, extra));
    KeyInForce(services[i].1.fields[j].0.name, strict, extra);
  }

  lemma KeyInForce(name: string, strict: bool, extra: set<string>)
    requires name in ServiceKeys(strict, extra)
    ensures name != "env_file" && (strict && name in PRIVILEGED_KEYS ==> name in extra)
    ensures name in BASE_KEYS + PRIVILEGED_KEYS + MANAGED_KEYS || name in extra
  {
  }

  lemma KeysStay(fields: Fields, services: Fields, written: Fields, strict: bool, extra: set<string>)
    requires KeysAllowed(fields, strict, extra) && GetOrNull(fields, "services") == Map(services)
    requires |written| == |services|
    requires forall i :: 0 <= i < |services| ==>
      services[i].1.Map? && written[i].1.Map? && |written[i].1.fields| == |services[i].1.fields|
      && forall j :: 0 <= j < |services[i].1.fields| ==> written[i].1.fields[j].0 == services[i].1.fields[j].0
    ensures KeysAllowed(Put(fields, "services", Map(written)), strict, extra)
    ensures GetOrNull(Put(fields, "services", Map(written)), "services") == Map(written)
    ensures GetOrNull(Put(fields, "services", Map(written)), "networks") == GetOrNull(fields, "networks")
  {
    hide Put, Get, ServiceKeys;
    GetPut(fields, "services", Map(written), "services");
    GetPut(fields, "services", Map(written), "networks");
  }

  /** Normalising an accepted file again is accepted again, and changes nothing exactly when every mount mode is
      none, ro or rw: the others are dropped on the second pass. */
  lemma NormalizingTwiceIff(compose: Yaml, strict: bool, extra: set<string>)
    requires Normalize(compose, strict, extra).Fine?
    ensures var out := Normalize(compose, strict, extra).value;
      && Normalize(out, strict, extra).Fine?
      && (Normalize(out, strict, extra) == Fine(out) <==>
            AllModesKeep(GetOrNull(compose.fields, "services").fields,
                         Declared(GetOrNull(compose.fields, "networks")).value))
  {
    hide NormalizeServices, KeysAllowed, Put, Get, NamedServices, Declared, AllModesKeep, ReadService, WriteService,
      ServiceShape;
    var services, declared := GetOrNull(compose.fields, "services"), Declared(GetOrNull(compose.fields, "networks"));
    ServicesShape(services.fields, declared.value);
    var written := NormalizeServices(services.fields, declared.value).value;
    KeysStay(compose.fields, services.fields, written, strict, extra);
    SecondPass(services.fields, written, declared.value);
    var once := Put(compose.fields, "services", Map(written));
    var again := Rewritten(services.fields, written, declared.value);
    PutTwice(compose.fields, "services", Map(written), Map(again));
  }

  lemma PutTwice(fields: Fields, name: string, a: Yaml, b: Yaml)
    requires Get(fields, name).Some?
    ensures Put(Put(fields, name, a), name, b) == Put(fields, name, a) <==> a == b
  {
    hide Put, Get;
    GetPut(fields, name, a, name);
    GetPut(Put(fields, name, a), name, b, name);
    if a == b {
      PutSame(Put(fields, name, a), name, b);
    }
  }

  // ---- Exceptions nobody named -----------------------------------------------------------------

  /** A ports list escapes exactly when its first entry that is not accepted does. */
  lemma {:induction false} PortsUncaughtIff(items: seq<Yaml>, service: string)
    ensures ReadPorts(items, service).Uncaught? <==>
      exists i :: 0 <= i < |items| && NormalizePort(items[i], service).Uncaught?
                  && forall j :: 0 <= j < i ==> NormalizePort(items[j], service).Fine?
  {
    hide NormalizePort;
    if items != [] {
      var rest := items[1..];
      PortsUncaughtIff(rest, service);
      if i :| 0 <= i < |rest| && NormalizePort(rest[i], service).Uncaught?
              && forall j :: 0 <= j < i ==> NormalizePort(rest[j], service).Fine? {
        assert items[i + 1] == rest[i];
        assert forall j :: 0 < j < i + 1 ==> items[j] == rest[j - 1];
      }
      if i :| 0 < i < |items| && NormalizePort(items[i], service).Uncaught?
              && forall j :: 0 <= j < i ==> NormalizePort(items[j], service).Fine? {
        assert items[i] == rest[i - 1];
        assert forall j :: 0 <= j < i - 1 ==> rest[j] == items[j + 1];
      }
    }
  }

  lemma {:induction false} MountsUncaughtIff(items: seq<Yaml>, service: string)
    ensures ReadMounts(items, service).Uncaught? <==>
      exists i :: 0 <= i < |items| && NormalizeVolume(items[i], service).Uncaught?
                  && forall j :: 0 <= j < i ==> NormalizeVolume(items[j], service).Fine?
  {
    hide NormalizeVolume;
    if items != [] {
      var rest := items[1..];
      MountsUncaughtIff(rest, service);
      if i :| 0 <= i < |rest| && NormalizeVolume(rest[i], service).Uncaught?
              && forall j :: 0 <= j < i ==> NormalizeVolume(rest[j], service).Fine? {
        assert items[i + 1] == rest[i];
        assert forall j :: 0 < j < i + 1 ==> items[j] == rest[j - 1];
      }
      if i :| 0 < i < |items| && NormalizeVolume(items[i], service).Uncaught?
              && forall j :: 0 <= j < i ==> NormalizeVolume(items[j], service).Fine? {
        assert items[i] == rest[i - 1];
        assert forall j :: 0 <= j < i - 1 ==> rest[j] == items[j + 1];
      }
    }
  }

  /** A service escapes exactly when it gets as far as a ports list that does, or with its ports accepted as far
      as a volumes list that does. */
  lemma ServiceUncaughtIff(name: string, fields: Fields, declared: set<string>)
    ensures var ports, volumes := GetOrNull(fields, "ports"), GetOrNull(fields, "volumes");
      ReadService(name, fields, declared).Uncaught? <==>
        || (ports.List? && ReadPorts(ports.items, name).Uncaught?)
        || ((ports.Null? || (ports.List? && ReadPorts(ports.items, name).Fine?))
            && volumes.List? && ReadMounts(volumes.items, name).Uncaught?)
  {
    hide ReadPorts, ReadMounts, Get, DistinctTargets, AllDeclared, NormalizeNetworks;
  }

  lemma {:induction false} ServicesUncaughtIff(services: Fields, declared: set<string>)
    requires NamedServices(services)
    ensures NormalizeServices(services, declared).Uncaught? <==>
      exists i :: 0 <= i < |services| && NormalizeService(services[i].0.name, services[i].1, declared).Uncaught?
                  && forall j :: 0 <= j < i ==> NormalizeService(services[j].0.name, services[j].1, declared).Fine?
  {
    hide NormalizeService;
    if services != [] {
      var rest := services[1..];
      assert NamedServices(rest);
      ServicesUncaughtIff(rest, declared);
      if i :| 0 <= i < |rest| && NormalizeService(rest[i].0.name, rest[i].1, declared).Uncaught?
              && forall j :: 0 <= j < i ==> NormalizeService(rest[j].0.name, rest[j].1, declared).Fine? {
        assert services[i + 1] == rest[i];
        assert forall j :: 0 < j < i + 1 ==> services[j] == rest[j - 1];
      }
      if i :| 0 < i < |services| && NormalizeService(services[i].0.name, services[i].1, declared).Uncaught?
              && forall j :: 0 <= j < i ==> NormalizeService(services[j].0.name, services[j].1, declared).Fine? {
        assert services[i] == rest[i - 1];
        assert forall j :: 0 <= j < i - 1 ==> rest[j] == services[j + 1];
      }
    }
  }

  /** A refusal is lost as well when it shows an integer that cannot be printed, wherever in the entry that is. */
  lemma RefusalThatCannotBePrinted(n: nat, service: string)
    requires |Digits(n)| > 4300
    ensures var entry := Map([(Named("target"), Str("x")), (Named("published"), Int(n))]);
      NormalizePort(entry, service) == Refused(service, "ports", entry) && Escapes(NormalizePort(entry, service))
  {
    hide Digits;
    var fields := [(Named("target"), Str("x")), (Named("published"), Int(n))];
    assert Get(fields, "target") == Some(Str("x"));
    assert !IsDigit("x"[0]) && !IsOddDigit("x"[0]);
    assert Unprintable(fields[1].1);
  }

  /** The file as a whole escapes exactly when its refusal cannot be printed, or it gets to its services, and the first
      of them that is not accepted escapes. */
  lemma ComposeUncaughtIff(compose: Yaml, strict: bool, extra: set<string>)
    ensures Escapes(Normalize(compose, strict, extra)) <==>
      || (Normalize(compose, strict, extra).Refused? && Unprintable(Normalize(compose, strict, extra).shown))
      || (&& compose.Map? && KeysAllowed(compose.fields, strict, extra)
          && GetOrNull(compose.fields, "services").Map? && NamedServices(GetOrNull(compose.fields, "services").fields)
          && Declared(GetOrNull(compose.fields, "networks")).Some?
          && var services, declared := GetOrNull(compose.fields, "services").fields,
               Declared(GetOrNull(compose.fields, "networks")).value;
             exists i :: 0 <= i < |services|
                         && NormalizeService(services[i].0.name, services[i].1, declared).Uncaught?
                         && forall j :: 0 <= j < i ==>
                              NormalizeService(services[j].0.name, services[j].1, declared).Fine?)
  {
    hide NormalizeServices, NormalizeService, KeysAllowed, Get, Unprintable, FirstBadKey, FirstUnnamed;
    if compose.Map? {
      var services, declared := GetOrNull(compose.fields, "services"), Declared(GetOrNull(compose.fields, "networks"));
      if services.Map? && NamedServices(services.fields) && declared.Some? {
        ServicesUncaughtIff(services.fields, declared.value);
      }
    }
  }

  // ---- The pass itself -------------------------------------------------------------------------

  function Prepend<T>(done: seq<T>, rest: Outcome<seq<T>>): Outcome<seq<T>> {
    if rest.Fine? then Fine(done + rest.value) else rest
  }

  lemma PrependNothing<T>(rest: Outcome<seq<T>>)
    ensures Prepend([], rest) == rest
  {
    if rest.Fine? {
      assert [] + rest.value == rest.value;
    }
  }

  method NormalizePorts(items: seq<Yaml>, service: string) returns (r: Outcome<seq<Port>>)
    ensures r == ReadPorts(items, service)
  {
    hide NormalizePort;
    var done: seq<Port> := [];
    assert items[0..] == items;
    PrependNothing(ReadPorts(items, service));
    for i := 0 to |items|
      invariant ReadPorts(items, service) == Prepend(done, ReadPorts(items[i..], service))
    {
      assert items[i..][1..] == items[i + 1..];
      var p := NormalizePort(items[i], service);
      if !p.Fine? {
        return Fail(p);
      }
      assert forall more: seq<Port> :: done + ([p.value] + more) == done + [p.value] + more;
      done := done + [p.value];
    }
    assert items[|items|..] == [] && done + [] == done;
    return Fine(done);
  }

  method NormalizeVolumes(items: seq<Yaml>, service: string) returns (r: Outcome<seq<Mount>>)
    ensures r == ReadMounts(items, service)
  {
    hide NormalizeVolume;
    var done: seq<Mount> := [];
    assert items[0..] == items;
    PrependNothing(ReadMounts(items, service));
    for i := 0 to |items|
      invariant ReadMounts(items, service) == Prepend(done, ReadMounts(items[i..], service))
    {
      assert items[i..][1..] == items[i + 1..];
      var m := NormalizeVolume(items[i], service);
      if !m.Fine? {
        return Fail(m);
      }
      assert forall more: seq<Mount> :: done + ([m.value] + more) == done + [m.value] + more;
      done := done + [m.value];
    }
    assert items[|items|..] == [] && done + [] == done;
    return Fine(done);
  }

  /** The `seen` loop. */
  method FindDuplicate(ports: seq<Port>) returns (duplicate: bool)
    ensures duplicate <==> !DistinctTargets(ports)
  {
    var seen: set<string> := {};
    for i := 0 to |ports|
      invariant seen == set j | 0 <= j < i :: ports[j].target
      invariant forall j, k :: 0 <= j < k < i ==> ports[j].target != ports[k].target
    {
      if ports[i].target in seen {
        return true;
      }
      seen := seen + {ports[i].target};
    }
    return false;
  }

  /** The body of the service loop, block after block. */
  method NormalizeDefinition(name: string, def: Yaml, declared: set<string>) returns (r: Outcome<Yaml>)
    ensures r == NormalizeService(name, def, declared)
  {
    hide ReadPorts, ReadMounts, Get, Put, DistinctTargets, AllDeclared, NormalizeNetworks;
    if !IsSafeName(name) {
      return Refused("", "services", Str(name));
    }
    if !def.Map? {
      return Refused(name, "<service>", def);
    }
    var service := Service(None, None, None);
    var entries := GetOrNull(def.fields, "ports");
    NothingToRead(name);
    var ports: seq<Port> := [];
    if !entries.Null? {
      if !entries.List? {
        return Refused(name, "ports", entries);
      }
      var read := NormalizePorts(entries.items, name);
      if !read.Fine? {
        return Fail(read);
      }
      ports := read.value;
      service := service.(ports := Some(ports));
    }
    entries := GetOrNull(def.fields, "volumes");
    if !entries.Null? {
      if !entries.List? {
        return Refused(name, "volumes", entries);
      }
      var mounts := NormalizeVolumes(entries.items, name);
      if !mounts.Fine? {
        return Fail(mounts);
      }
      service := service.(mounts := Some(mounts.value));
    }
    var duplicate := FindDuplicate(ports);
    if duplicate {
      return Refused(name, "ports", Null);
    }
    entries := GetOrNull(def.fields, "networks");
    if !entries.Null? {
      var names := NormalizeNetworks(entries);
      if names.None? || !AllDeclared(names.value, declared) {
        return Refused(name, "networks", entries);
      }
      service := service.(networks := names);
    }
    return Fine(Map(WriteService(def.fields, service)));
  }

  lemma NothingToRead(name: string)
    ensures DistinctTargets([]) && forall declared :: AllDeclared([], declared)
  {
  }

  /** normalize_compose */
  method NormalizeCompose(compose: Yaml, strict: bool, extra: set<string>) returns (r: Outcome<Yaml>)
    ensures r == Normalize(compose, strict, extra)
  {
    hide NormalizeService, KeysAllowed, Put, Get;
    if !compose.Map? {
      return Refused("", "compose", compose);
    }
    if !KeysAllowed(compose.fields, strict, extra) {
      return RefusedKey(compose.fields, strict, extra);
    }
    var services := GetOrNull(compose.fields, "services");
    if !services.Map? || services.fields == [] {
      return Refused("", "services", services);
    }
    if !NamedServices(services.fields) {
      return Refused("", "services", KeysYaml([FirstUnnamed(services.fields)]));
    }
    var declared := Declared(GetOrNull(compose.fields, "networks"));
    if declared.None? {
      return Refused("", "networks", GetOrNull(compose.fields, "networks"));
    }
    var done: Fields := [];
    assert services.fields[0..] == services.fields;
    PrependNothing(NormalizeServices(services.fields, declared.value));
    for i := 0 to |services.fields|
      invariant NamedServices(services.fields[i..])
      invariant NormalizeServices(services.fields, declared.value)
        == Prepend(done, NormalizeServices(services.fields[i..], declared.value))
    {
      var (key, def) := services.fields[i];
      assert services.fields[i..][0] == (key, def) && services.fields[i..][1..] == services.fields[i + 1..];
      var out := NormalizeDefinition(key.name, def, declared.value);
      if !out.Fine? {
        return Fail(out);
      }
      assert forall more: Fields :: done + ([(key, out.value)] + more) == done + [(key, out.value)] + more;
      done := done + [(key, out.value)];
    }
    assert services.fields[|services.fields|..] == [] && done + [] == done;
    return Fine(Map(Put(compose.fields, "services", Map(done))));
  }
}
