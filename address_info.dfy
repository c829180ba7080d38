/**
 * BLE address-type classification from the two most significant bits of the
 * most significant address byte (Bluetooth Core Specification, Vol 6, Part B,
 * section 1.3 "Device address"): 01 resolvable private, 11 static random,
 * 10 reserved, and 00 either a public address or a non-resolvable private one,
 * told apart by a lifetime and manufacturer heuristic.
 */
module AddressInfo {
  import opened Wrappers
  import Devices

  datatype BleAddressType = PUBLIC | STATIC_RANDOM | RESOLVABLE_PRIVATE | NON_RESOLVABLE_PRIVATE | INVALID

  datatype ExtendedAddressInfo = ExtendedAddressInfo(address: string, addressType: BleAddressType)

  /** An address seen for longer than this many hours is considered static. */
  const HOURS_TO_BE_CONSIDERED_STATIC: int := 12
  const STATIC_LIFETIME_MS: int := HOURS_TO_BE_CONSIDERED_STATIC * 60 * 60 * 1000

  const INT_MIN: int := -0x8000_0000
  const INT_MAX: int := 0x7FFF_FFFF

  // ---------------------------------------------------------------------------
  // String.split(":") and String.toIntOrNull(16)
  // ---------------------------------------------------------------------------

  /** Kotlin's `split(sep)`: empty fields are kept, so the result is never empty. */
  function Split(s: string, sep: char): (r: seq<string>)
    ensures |r| >= 1
  {
    if |s| == 0 then [""]
    else if s[0] == sep then [""] + Split(s[1..], sep)
    else
      var rest := Split(s[1..], sep);
      [[s[0]] + rest[0]] + rest[1..]
  }

  /** A field free of the separator followed by the separator is split off as the first field. */
  lemma {:induction false} SplitField(p: string, sep: char, rest: string)
    requires sep !in p
    ensures Split(p + [sep] + rest, sep) == [p] + Split(rest, sep)
    decreases |p|
  {
    if |p| == 0 {
      assert p + [sep] + rest == [sep] + rest;
      assert ([sep] + rest)[1..] == rest;
    } else {
      SplitField(p[1..], sep, rest);
      assert (p + [sep] + rest)[1..] == p[1..] + [sep] + rest;
      assert [p[0]] + p[1..] == p;
    }
  }

  function HexDigit(c: char): Option<int>
  {
    if '0' <= c <= '9' then Some(c as int - '0' as int)
    else if 'a' <= c <= 'f' then Some(c as int - 'a' as int + 10)
    else if 'A' <= c <= 'F' then Some(c as int - 'A' as int + 10)
    else None
  }

  /** The value of a non-empty run of hexadecimal digits, or None if some character is not one. */
  function HexValue(s: string): (r: Option<nat>)
    requires |s| > 0
    ensures r.Some? <==> forall i :: 0 <= i < |s| ==> HexDigit(s[i]).Some?
  {
    var d := HexDigit(s[|s| - 1]);
    if d.None? then None
    else if |s| == 1 then Some(d.value)
    else
      var hi := HexValue(s[..|s| - 1]);
      if hi.None? then None else Some(hi.value * 16 + d.value)
  }

  /**
   * `String.toIntOrNull(16)` over ASCII digits: an optional sign, at least one
   * hex digit, and a value within the 32-bit Int range; anything else is null.
   */
  function ParseHexInt(s: string): (r: Option<int>)
    ensures r.Some? ==> INT_MIN <= r.value <= INT_MAX
    ensures r.Some? ==> |s| > 0 && (s[0] == '-' ==> r.value <= 0) && (s[0] != '-' ==> r.value >= 0)
    ensures r.Some? ==>
      var start := if s[0] == '-' || s[0] == '+' then 1 else 0;
      start < |s| && forall i :: start <= i < |s| ==> HexDigit(s[i]).Some?
  {
    if |s| == 0 then None
    else if s[0] == '-' || s[0] == '+' then
      if |s| == 1 then None
      else
        var v := HexValue(s[1..]);
        if v.None? then None
        else
          var n: int := if s[0] == '-' then 0 - (v.value as int) else v.value;
          if INT_MIN <= n <= INT_MAX then Some(n) else None
    else
      var v := HexValue(s);
      if v.None? || v.value > INT_MAX then None else Some(v.value)
  }

  /** The lower-case hexadecimal digit for `d`. */
  function HexChar(d: int): (c: char)
    requires 0 <= d < 16
    ensures HexDigit(c) == Some(d)
  {
    if d < 10 then ('0' as int + d) as char else ('a' as int + d - 10) as char
  }

  /** `n.toString(16)` for a non-negative `n`: its hexadecimal digits, most significant first. */
  function HexString(n: nat): (r: string)
    ensures |r| >= 1 && forall i :: 0 <= i < |r| ==> HexDigit(r[i]).Some?
    decreases n
  {
    if n < 16 then [HexChar(n)] else HexString(n / 16) + [HexChar(n % 16)]
  }

  lemma {:induction false} HexValueOfHexString(n: nat)
    ensures HexValue(HexString(n)) == Some(n)
    decreases n
  {
    if n >= 16 {
      var s := HexString(n);
      HexValueOfHexString(n / 16);
      assert s[..|s| - 1] == HexString(n / 16);
    }
  }

  /**
   * `toIntOrNull(16)` inverts `toString(16)` on the whole Int range: the
   * digits of `n`, with a minus sign when negative and optionally a plus
   * sign otherwise, parse back to `n`.
   */
  lemma ParseHexIntRoundTrip(n: int)
    requires INT_MIN <= n <= INT_MAX
    ensures n < 0 ==> ParseHexInt("-" + HexString(-n)) == Some(n)
    ensures n >= 0 ==> ParseHexInt(HexString(n)) == Some(n) && ParseHexInt("+" + HexString(n)) == Some(n)
  {
    var digits := HexString(if n < 0 then -n else n);
    HexValueOfHexString(if n < 0 then -n else n);
    assert HexDigit(digits[0]).Some?;
    assert ("-" + digits)[1..] == digits && ("+" + digits)[1..] == digits;
  }

  /** The positions of the present values, in increasing order. */
  function SomeIndices(os: seq<Option<int>>): seq<int>
  {
    if os == [] then [] else (if os[0].Some? then [0] else []) + Shifted(SomeIndices(os[1..]))
  }

  /** Each present value's position is listed exactly once, in increasing order, and nothing else is. */
  lemma {:induction false} SomeIndicesSpec(os: seq<Option<int>>)
    ensures IndicesOfSomes(os, SomeIndices(os))
    decreases |os|
  {
    if os != [] {
      SomeIndicesSpec(os[1..]);
      ConsIndices(os, SomeIndices(os[1..]), SomeIndices(os));
    }
  }

  /** `idx` lists, in increasing order, exactly the positions of the present values of `os`. */
  ghost predicate IndicesOfSomes(os: seq<Option<int>>, idx: seq<int>)
  {
    && (forall i :: 0 <= i < |idx| ==> 0 <= idx[i] < |os| && os[idx[i]].Some?)
    && (forall i, j :: 0 <= i < j < |idx| ==> idx[i] < idx[j])
    && (forall j :: 0 <= j < |os| && os[j].Some? ==> j in idx)
  }

  /** The positions for `os[1..]`, moved one on, with 0 in front when `os[0]` is present. */
  lemma ConsIndices(os: seq<Option<int>>, rest: seq<int>, idx: seq<int>)
    requires os != [] && IndicesOfSomes(os[1..], rest)
    requires idx == (if os[0].Some? then [0] else []) + Shifted(rest)
    ensures IndicesOfSomes(os, idx)
  {
    ConsIndicesInRange(os, rest, idx);
    assert forall i :: 0 <= i < |rest| ==> 0 <= rest[i] by {
      forall i | 0 <= i < |rest| ensures 0 <= rest[i] {
        assert 0 <= rest[i] < |os[1..]|;
      }
    }
    ConsIndicesIncreasing(os, rest, idx);
    ConsIndicesComplete(os, rest, idx);
  }

  lemma ConsIndicesInRange(os: seq<Option<int>>, rest: seq<int>, idx: seq<int>)
    requires os != [] && IndicesOfSomes(os[1..], rest)
    requires idx == (if os[0].Some? then [0] else []) + Shifted(rest)
    ensures forall i :: 0 <= i < |idx| ==> 0 <= idx[i] < |os| && os[idx[i]].Some?
  {
    var off := if os[0].Some? then 1 else 0;
    forall i | 0 <= i < |idx| ensures 0 <= idx[i] < |os| && os[idx[i]].Some? {
      if i >= off {
        assert idx[i] == rest[i - off] + 1;
        assert os[1..][rest[i - off]] == os[rest[i - off] + 1];
      }
    }
  }

  lemma ConsIndicesIncreasing(os: seq<Option<int>>, rest: seq<int>, idx: seq<int>)
    requires os != []
    requires forall i :: 0 <= i < |rest| ==> 0 <= rest[i]
    requires forall i, j :: 0 <= i < j < |rest| ==> rest[i] < rest[j]
    requires idx == (if os[0].Some? then [0] else []) + Shifted(rest)
    ensures forall i, j :: 0 <= i < j < |idx| ==> idx[i] < idx[j]
  {
    var sh := Shifted(rest);
    if os[0].Some? {
      forall i, j | 0 <= i < j < |idx| ensures idx[i] < idx[j] {
        assert idx[j] == sh[j - 1];
        if i > 0 {
          assert idx[i] == sh[i - 1];
        }
      }
    } else {
      assert idx == sh;
    }
  }

  lemma ConsIndicesComplete(os: seq<Option<int>>, rest: seq<int>, idx: seq<int>)
    requires os != [] && IndicesOfSomes(os[1..], rest)
    requires idx == (if os[0].Some? then [0] else []) + Shifted(rest)
    ensures forall j :: 0 <= j < |os| && os[j].Some? ==> j in idx
  {
    forall j | 0 <= j < |os| && os[j].Some? ensures j in idx {
      if j == 0 {
        assert idx[0] == 0;
      } else {
        assert os[1..][j - 1] == os[j];
        ShiftedKeepsMember(if os[0].Some? then [0] else [], rest, j - 1);
      }
    }
  }

  /** A position of `rest`, moved one on, is among the shifted positions. */
  lemma ShiftedKeepsMember(front: seq<int>, rest: seq<int>, m: int)
    requires m in rest
    ensures m + 1 in front + Shifted(rest)
  {
    var k :| 0 <= k < |rest| && rest[k] == m;
    assert (front + Shifted(rest))[|front| + k] == m + 1;
  }

  /** Every position one further on. */
  function Shifted(idx: seq<int>): (r: seq<int>)
    ensures |r| == |idx| && forall i :: 0 <= i < |idx| ==> r[i] == idx[i] + 1
  {
    seq(|idx|, i requires 0 <= i < |idx| => idx[i] + 1)
  }

  /** `filterNotNull`: the present values, in order. */
  function Somes(os: seq<Option<int>>): seq<int>
  {
    if os == [] then [] else (if os[0].Some? then [os[0].value] else []) + Somes(os[1..])
  }

  /** The present values sit, one for one, at the positions `SomeIndices` lists. */
  lemma {:induction false} SomesSpec(os: seq<Option<int>>)
    ensures ValuesAt(os, SomeIndices(os), Somes(os))
    decreases |os|
  {
    if os != [] {
      SomesSpec(os[1..]);
      ConsSomes(os, SomeIndices(os[1..]), Somes(os[1..]), SomeIndices(os), Somes(os));
    }
  }

  /** `r` holds the values of `os` at the positions `idx`, one for one. */
  ghost predicate ValuesAt(os: seq<Option<int>>, idx: seq<int>, r: seq<int>)
  {
    && |r| == |idx|
    && forall i :: 0 <= i < |r| ==> 0 <= idx[i] < |os| && Some(r[i]) == os[idx[i]]
  }

  /** The values for `os[1..]`, with `os[0]`'s in front when it is present, sit at the consed positions. */
  lemma ConsSomes(os: seq<Option<int>>, ri: seq<int>, rest: seq<int>, idx: seq<int>, r: seq<int>)
    requires os != [] && ValuesAt(os[1..], ri, rest)
    requires idx == (if os[0].Some? then [0] else []) + Shifted(ri)
    requires r == (if os[0].Some? then [os[0].value] else []) + rest
    ensures ValuesAt(os, idx, r)
  {
    var off := if os[0].Some? then 1 else 0;
    forall i | 0 <= i < |r| ensures 0 <= idx[i] < |os| && Some(r[i]) == os[idx[i]] {
      if i >= off {
        assert r[i] == rest[i - off];
        assert idx[i] == ri[i - off] + 1;
        assert os[1..][ri[i - off]] == os[ri[i - off] + 1];
      }
    }
  }

  /** `parts.map { it.toIntOrNull(16) }`. */
  function ParseEach(parts: seq<string>): seq<Option<int>>
  {
    seq(|parts|, i requires 0 <= i < |parts| => ParseHexInt(parts[i]))
  }

  /**
   * `parts.mapNotNull { it.toIntOrNull(16) }`: the values of exactly the
   * fields that parse, in the order of the fields.
   */
  function ParsedFields(parts: seq<string>): (r: seq<int>)
    ensures var idx := SomeIndices(ParseEach(parts));
      && |r| == |idx|
      && (forall i :: 0 <= i < |r| ==> 0 <= idx[i] < |parts| && Some(r[i]) == ParseHexInt(parts[idx[i]]))
      && (forall i, j :: 0 <= i < j < |idx| ==> idx[i] < idx[j])
      && (forall j :: 0 <= j < |parts| && ParseHexInt(parts[j]).Some? ==> j in idx)
  {
    var os := ParseEach(parts);
    SomeIndicesSpec(os);
    SomesSpec(os);
    Somes(os)
  }

  function AddressBytes(address: string): seq<int>
  {
    ParsedFields(Split(address, ':'))
  }

  // ---------------------------------------------------------------------------
  // Classification
  // ---------------------------------------------------------------------------

  /** `(msb shr 6) and 0b11` on a two's-complement Int: the two top bits of the low byte. */
  function TopBits(msb: int): (t: int)
    ensures 0 <= t < 4
  {
    (msb / 64) % 4
  }

  /** Case-insensitive substring test on ASCII letters. */
  predicate ContainsIgnoreCase(s: string, part: string)
  {
    exists i | 0 <= i <= |s| - |part| :: MatchesAtIgnoreCase(s, part, i)
  }

  predicate MatchesAtIgnoreCase(s: string, part: string, i: int)
    requires 0 <= i <= |s| - |part|
  {
    Lower(s[i..i + |part|]) == Lower(part)
  }

  function LowerChar(c: char): char
  {
    if 'A' <= c <= 'Z' then (c as int - 'A' as int + 'a' as int) as char else c
  }

  /** ASCII lower-casing, character by character. */
  function Lower(s: string): (r: string)
    ensures |r| == |s|
    ensures forall i :: 0 <= i < |s| ==> r[i] == LowerChar(s[i])
  {
    if s == [] then [] else [LowerChar(s[0])] + Lower(s[1..])
  }

  /**
   * `MANUFACTURERS_WITH_PRIVATE_ADDRESSES`: every company identifier whose
   * registered name mentions Apple or Microsoft.
   */
  function PrivateAddressManufacturers(companies: map<int, string>): (ids: set<int>)
    ensures ids <= companies.Keys
    ensures forall id :: id in ids <==>
      (id in companies
       && (ContainsIgnoreCase(companies[id], "apple") || ContainsIgnoreCase(companies[id], "microsoft")))
  {
    set id | id in companies
      && (ContainsIgnoreCase(companies[id], "apple") || ContainsIgnoreCase(companies[id], "microsoft"))
  }

  /**
   * `isPublicAddress`: known for more than 12 hours, or not from a manufacturer
   * that rotates addresses and with bits 5 and 4 of the top byte clear.
   */
  function IsPublicAddress(msb: int, lifetime: int, manufacturerInfo: Option<Devices.ManufacturerInfo>,
                           privateManufacturers: set<int>): (r: bool)
    ensures lifetime > STATIC_LIFETIME_MS ==> r
    ensures lifetime <= STATIC_LIFETIME_MS ==>
      (r <==> (manufacturerInfo.None? || manufacturerInfo.value.id !in privateManufacturers)
              && (msb / 16) % 4 == 0)
  {
    lifetime > STATIC_LIFETIME_MS
    || (!(manufacturerInfo.Some? && manufacturerInfo.value.id in privateManufacturers)
        && (msb / 16) % 4 == 0)
  }

  /** `getBleAddressType`. */
  function GetBleAddressType(address: string, lifetime: int, manufacturerInfo: Option<Devices.ManufacturerInfo>,
                             privateManufacturers: set<int>): (r: BleAddressType)
    ensures |AddressBytes(address)| != 6 ==> r == INVALID
    ensures |AddressBytes(address)| == 6 ==>
      var top := TopBits(AddressBytes(address)[0]);
      && (r == RESOLVABLE_PRIVATE <==> top == 1)
      && (r == STATIC_RANDOM <==> top == 3)
      && (r == INVALID <==> top == 2)
      && (r in {PUBLIC, NON_RESOLVABLE_PRIVATE} <==> top == 0)
      && (top == 0 && lifetime > STATIC_LIFETIME_MS ==> r == PUBLIC)
      && (top == 0 ==> (r == PUBLIC <==> IsPublicAddress(AddressBytes(address)[0], lifetime, manufacturerInfo,
                                                          privateManufacturers)))
  {
    var bytes := AddressBytes(address);
    if |bytes| != 6 then INVALID
    else
      var msb := bytes[0];
      var top := TopBits(msb);
      if top == 0 then
        (if IsPublicAddress(msb, lifetime, manufacturerInfo, privateManufacturers) then PUBLIC
         else NON_RESOLVABLE_PRIVATE)
      else if top == 1 then RESOLVABLE_PRIVATE
      else if top == 3 then STATIC_RANDOM
      else INVALID
  }

  /** `BuildExtendedAddressInfoInteractor.execute`: the address is kept as given. */
  function BuildExtendedAddressInfo(address: string, lifetime: int,
                                    manufacturerInfo: Option<Devices.ManufacturerInfo>,
                                    privateManufacturers: set<int>): (r: ExtendedAddressInfo)
    ensures r.address == address
    ensures r.addressType == GetBleAddressType(address, lifetime, manufacturerInfo, privateManufacturers)
  {
    ExtendedAddressInfo(address, GetBleAddressType(address, lifetime, manufacturerInfo, privateManufacturers))
  }

  // ---------------------------------------------------------------------------
  // Canonical addresses "XX:XX:XX:XX:XX:XX"
  // ---------------------------------------------------------------------------

  predicate IsHexChar(c: char)
  {
    HexDigit(c).Some?
  }

  /** Two hexadecimal digits. */
  predicate IsOctet(p: string)
  {
    |p| == 2 && IsHexChar(p[0]) && IsHexChar(p[1])
  }

  function OctetValue(p: string): (v: int)
    requires IsOctet(p)
    ensures 0 <= v < 256
  {
    HexDigit(p[0]).value * 16 + HexDigit(p[1]).value
  }

  lemma OctetParses(p: string)
    requires IsOctet(p)
    ensures ParseHexInt(p) == Some(OctetValue(p))
  {
    assert p[..|p| - 1] == [p[0]];
    assert HexValue([p[0]]) == Some(HexDigit(p[0]).value);
    assert HexValue(p) == Some(OctetValue(p));
  }

  function Join(parts: seq<string>): string
    requires |parts| >= 1
  {
    if |parts| == 1 then parts[0] else parts[0] + [':'] + Join(parts[1..])
  }

  lemma {:induction false} SplitJoin(parts: seq<string>)
    requires |parts| >= 1
    requires forall i :: 0 <= i < |parts| ==> ':' !in parts[i]
    ensures Split(Join(parts), ':') == parts
    decreases |parts|
  {
    if |parts| == 1 {
      SplitNoSeparator(parts[0]);
    } else {
      SplitField(parts[0], ':', Join(parts[1..]));
      SplitJoin(parts[1..]);
    }
  }

  lemma {:induction false} SplitNoSeparator(p: string)
    requires ':' !in p
    ensures Split(p, ':') == [p]
    decreases |p|
  {
    if |p| > 0 {
      SplitNoSeparator(p[1..]);
      assert [p[0]] + p[1..] == p;
    }
  }

  /** With every value present, `filterNotNull` drops nothing. */
  lemma {:induction false} AllSomes(os: seq<Option<int>>)
    requires forall i :: 0 <= i < |os| ==> os[i].Some?
    ensures Somes(os) == seq(|os|, i requires 0 <= i < |os| => os[i].value)
    decreases |os|
  {
    if os != [] {
      AllSomes(os[1..]);
    }
  }

  lemma OctetsParse(parts: seq<string>)
    requires forall i :: 0 <= i < |parts| ==> IsOctet(parts[i])
    ensures ParsedFields(parts) == seq(|parts|, i requires 0 <= i < |parts| => OctetValue(parts[i]))
  {
    var os := ParseEach(parts);
    forall i | 0 <= i < |parts| ensures os[i] == Some(OctetValue(parts[i])) {
      OctetParses(parts[i]);
    }
    AllSomes(os);
  }

  /** A canonical address yields its six octet values, in order. */
  lemma CanonicalAddressBytes(parts: seq<string>)
    requires |parts| == 6 && forall i :: 0 <= i < 6 ==> IsOctet(parts[i])
    ensures |AddressBytes(Join(parts))| == 6 && AddressBytes(Join(parts))[0] == OctetValue(parts[0])
  {
    forall i | 0 <= i < 6 ensures ':' !in parts[i] {
      assert IsOctet(parts[i]);
    }
    SplitJoin(parts);
    OctetsParse(parts);
  }

  /** The two top bits of a byte, as ranges of its value. */
  lemma TopBitsOfByte(msb: int)
    requires 0 <= msb < 256
    ensures msb >= 0xC0 <==> TopBits(msb) == 3
    ensures 0x80 <= msb < 0xC0 <==> TopBits(msb) == 2
    ensures 0x40 <= msb < 0x80 <==> TopBits(msb) == 1
    ensures msb < 0x40 <==> TopBits(msb) == 0
  {
    assert 0 <= msb / 64 < 4;
  }

  /**
   * For a well-formed address of six two-digit hex octets, the type is decided
   * by the two top bits of the first octet exactly as the Core Specification
   * lays them out.
   */
  lemma CanonicalAddressType(parts: seq<string>, lifetime: int,
                             manufacturerInfo: Option<Devices.ManufacturerInfo>, privateManufacturers: set<int>)
    requires |parts| == 6 && forall i :: 0 <= i < 6 ==> IsOctet(parts[i])
    ensures var msb := OctetValue(parts[0]);
      var r := GetBleAddressType(Join(parts), lifetime, manufacturerInfo, privateManufacturers);
      && (msb >= 0xC0 ==> r == STATIC_RANDOM)
      && (0x80 <= msb < 0xC0 ==> r == INVALID)
      && (0x40 <= msb < 0x80 ==> r == RESOLVABLE_PRIVATE)
      && (msb < 0x40 ==> r == if IsPublicAddress(msb, lifetime, manufacturerInfo, privateManufacturers)
                              then PUBLIC else NON_RESOLVABLE_PRIVATE)
  {
    CanonicalAddressBytes(parts);
    TopBitsOfByte(OctetValue(parts[0]));
  }
}
