/**
 Conversions between the string forms used on the service-based interface and the octets used on NGAP:
 PLMN identities (section 9.3.3.5 of TS 38.413), tracking area codes, S-NSSAIs and lists of them.
 */
module Codecs {
  import opened Sequences

  // ----- digits and hexadecimal characters

  predicate IsDigit(c: char) { '0' <= c <= '9' }

  function DigitOf(c: char): (d: nat)
    requires IsDigit(c)
    ensures d <= 9
  {
    c as int - '0' as int
  }

  function DigitChar(d: nat): (c: char)
    requires d <= 9
    ensures IsDigit(c) && DigitOf(c) == d
  {
    ('0' as int + d) as char
  }

  predicate IsHex(c: char) { IsDigit(c) || 'a' <= c <= 'f' || 'A' <= c <= 'F' }

  predicate IsLowerHex(c: char) { IsDigit(c) || 'a' <= c <= 'f' }

  function Lower(c: char): char {
    if 'A' <= c <= 'F' then (c as int + 32) as char else c
  }

  function HexValue(c: char): (v: nat)
    requires IsHex(c)
    ensures v < 16
  {
    if IsDigit(c) then DigitOf(c)
    else if 'a' <= c then c as int - 'a' as int + 10
    else c as int - 'A' as int + 10
  }

  function HexChar(v: nat): (c: char)
    requires v < 16
    ensures IsLowerHex(c) && HexValue(c) == v
  {
    if v <= 9 then DigitChar(v) else ('a' as int + (v - 10)) as char
  }

  // ----- PLMN identities

  type Mcc = s: string | |s| == 3 && forall i :: 0 <= i < |s| ==> IsDigit(s[i]) witness "000"
  type Mnc = s: string | 2 <= |s| <= 3 && forall i :: 0 <= i < |s| ==> IsDigit(s[i]) witness "00"

  datatype PlmnId = PlmnId(mcc: Mcc, mnc: Mnc)

  datatype Octets = Octets(o1: byte, o2: byte, o3: byte)

  function Pack(high: nat, low: nat): (b: byte)
    requires high < 16 && low < 16
    ensures b / 16 == high && b % 16 == low
  {
    high * 16 + low
  }

  function EncodePlmn(p: PlmnId): Octets {
    var mcc, mnc := p.mcc, p.mnc;
    Octets(
      Pack(DigitOf(mcc[1]), DigitOf(mcc[0])),
      if |mnc| == 2 then Pack(0xF, DigitOf(mcc[2])) else Pack(DigitOf(mnc[0]), DigitOf(mcc[2])),
      if |mnc| == 2 then Pack(DigitOf(mnc[1]), DigitOf(mnc[0])) else Pack(DigitOf(mnc[2]), DigitOf(mnc[1])))
  }

  function DecodePlmn(o: Octets): Option<PlmnId> {
    var mcc1, mcc2, mcc3 := o.o1 % 16, o.o1 / 16, o.o2 % 16;
    var mnc1, mnc2, mnc3 := o.o3 / 16, o.o3 % 16, o.o2 / 16;
    if mnc1 > 9 || mnc2 > 9 || mcc1 > 9 || mcc2 > 9 || mcc3 > 9 then None
    else
      var mcc := [DigitChar(mcc1), DigitChar(mcc2), DigitChar(mcc3)];
      var mnc := if mnc3 >= 0xA then [DigitChar(mnc2), DigitChar(mnc1)]
                 else [DigitChar(mnc3), DigitChar(mnc2), DigitChar(mnc1)];
      Some(PlmnId(mcc, mnc))
  }

  /** Any nibble from A to F in the filler position stands for the filler F. */
  function NormaliseFiller(o: Octets): Octets {
    if o.o2 / 16 >= 0xA then o.(o2 := Pack(0xF, o.o2 % 16)) else o
  }

  lemma DigitRoundTrip(c: char)
    requires IsDigit(c)
    ensures DigitChar(DigitOf(c)) == c
  {}

  /** Decoding undoes encoding, for two- and three-digit network codes. */
  lemma DecodeEncodePlmn(p: PlmnId)
    ensures DecodePlmn(EncodePlmn(p)) == Some(p)
  {
    var o, mcc, mnc := EncodePlmn(p), p.mcc, p.mnc;
    assert o.o1 % 16 == DigitOf(mcc[0]) && o.o1 / 16 == DigitOf(mcc[1]) && o.o2 % 16 == DigitOf(mcc[2]);
    var low := if |mnc| == 2 then 0 else 1;
    assert o.o3 % 16 == DigitOf(mnc[low]) && o.o3 / 16 == DigitOf(mnc[low + 1]);
    assert o.o2 / 16 == if |mnc| == 2 then 0xF else DigitOf(mnc[0]);
    DecodeDigits(o, mcc, mnc, low);
  }

  lemma DecodeDigits(o: Octets, mcc: Mcc, mnc: Mnc, low: nat)
    requires low == |mnc| - 2
    requires o.o1 % 16 == DigitOf(mcc[0]) && o.o1 / 16 == DigitOf(mcc[1]) && o.o2 % 16 == DigitOf(mcc[2])
    requires o.o3 % 16 == DigitOf(mnc[low]) && o.o3 / 16 == DigitOf(mnc[low + 1])
    requires o.o2 / 16 == if |mnc| == 2 then 0xF else DigitOf(mnc[0])
    ensures DecodePlmn(o) == Some(PlmnId(mcc, mnc))
  {
    DigitRoundTrip(mcc[0]);
    DigitRoundTrip(mcc[1]);
    DigitRoundTrip(mcc[2]);
    DigitRoundTrip(mnc[0]);
    DigitRoundTrip(mnc[low]);
    DigitRoundTrip(mnc[low + 1]);
    assert mcc == [mcc[0], mcc[1], mcc[2]];
    if |mnc| == 2 {
      assert mnc == [mnc[0], mnc[1]];
    } else {
      assert mnc == [mnc[0], mnc[1], mnc[2]];
    }
  }

  /** Re-encoding what decodes changes nothing but a filler nibble, which becomes F. */
  lemma EncodeDecodePlmn(o: Octets)
    requires DecodePlmn(o).Some?
    ensures EncodePlmn(DecodePlmn(o).value) == NormaliseFiller(o)
  {
    var p := DecodePlmn(o).value;
    assert o.o1 == (o.o1 / 16) * 16 + o.o1 % 16;
    assert o.o2 == (o.o2 / 16) * 16 + o.o2 % 16;
    assert o.o3 == (o.o3 / 16) * 16 + o.o3 % 16;
  }

  /** Two identities decode alike exactly when they agree up to the filler, so decoding to a given PLMN is
      the same as being its encoding up to the filler. */
  lemma DecodesTo(o: Octets, p: PlmnId)
    requires DecodePlmn(o).Some?
    ensures DecodePlmn(o) == Some(p) <==> NormaliseFiller(o) == EncodePlmn(p)
  {
    EncodeDecodePlmn(o);
    DecodeEncodePlmn(p);
    if NormaliseFiller(o) == EncodePlmn(p) {
      DecodeEncodePlmn(DecodePlmn(o).value);
    }
  }

  /** The half octets in the order in which digits are sent, low half first. */
  function Nibbles(o: Octets): seq<nat> {
    [o.o1 % 16, o.o1 / 16, o.o2 % 16, o.o2 / 16, o.o3 % 16, o.o3 / 16]
  }

  function Digits(s: string): (d: seq<nat>)
    requires forall i :: 0 <= i < |s| ==> IsDigit(s[i])
    ensures |d| == |s| && forall i :: 0 <= i < |s| ==> d[i] == s[i] as int - '0' as int
  {
    if s == [] then [] else [DigitOf(s[0])] + Digits(s[1..])
  }

  /** The layout of section 9.3.3.5 of TS 38.413: country code, a filler F if the network code has two digits,
      network code. */
  lemma PlmnLayout(p: PlmnId)
    ensures Nibbles(EncodePlmn(p)) == Digits(p.mcc) + (if |p.mnc| == 2 then [0xF] else []) + Digits(p.mnc)
  {
    var o, mcc, mnc := EncodePlmn(p), Digits(p.mcc), Digits(p.mnc);
    assert mcc == [mcc[0], mcc[1], mcc[2]];
    if |p.mnc| == 2 {
      assert mnc == [mnc[0], mnc[1]];
      assert Nibbles(o) == [mcc[0], mcc[1], mcc[2], 0xF, mnc[0], mnc[1]];
    } else {
      assert mnc == [mnc[0], mnc[1], mnc[2]];
      assert Nibbles(o) == [mcc[0], mcc[1], mcc[2], mnc[0], mnc[1], mnc[2]];
    }
  }

  /** convert_mcc_mnc_to_plmn_id, which fills a three-byte array. */
  method ConvertMccMncToPlmnId(mcc: Mcc, mnc: Mnc) returns (plmn: Octets)
    ensures plmn == EncodePlmn(PlmnId(mcc, mnc))
    ensures DecodePlmn(plmn) == Some(PlmnId(mcc, mnc))
  {
    var bytes := new byte[3](_ => 0);
    bytes[0] := DigitOf(mcc[1]) * 16 + DigitOf(mcc[0]);
    if |mnc| == 2 {
      bytes[1] := 0xF0 + DigitOf(mcc[2]);
    } else {
      bytes[1] := DigitOf(mnc[0]) * 16 + DigitOf(mcc[2]);
    }
    if |mnc| == 2 {
      bytes[2] := DigitOf(mnc[1]) * 16 + DigitOf(mnc[0]);
    } else {
      bytes[2] := DigitOf(mnc[2]) * 16 + DigitOf(mnc[1]);
    }
    plmn := Octets(bytes[0], bytes[1], bytes[2]);
    DecodeEncodePlmn(PlmnId(mcc, mnc));
  }

  // ----- three octets as six hexadecimal characters: tracking area codes and slice differentiators

  type Hex6 = s: string | |s| == 6 && forall i :: 0 <= i < |s| ==> IsHex(s[i]) witness "000000"

  function HexString(o: Octets): Hex6 {
    [HexChar(o.o1 / 16), HexChar(o.o1 % 16), HexChar(o.o2 / 16), HexChar(o.o2 % 16),
     HexChar(o.o3 / 16), HexChar(o.o3 % 16)]
  }

  function HexDecode(s: Hex6): Octets {
    Octets(Pack(HexValue(s[0]), HexValue(s[1])), Pack(HexValue(s[2]), HexValue(s[3])),
           Pack(HexValue(s[4]), HexValue(s[5])))
  }

  function LowerHex(s: Hex6): Hex6 {
    [Lower(s[0]), Lower(s[1]), Lower(s[2]), Lower(s[3]), Lower(s[4]), Lower(s[5])]
  }

  predicate IsLowerHex6(s: string) { |s| == 6 && forall i :: 0 <= i < |s| ==> IsLowerHex(s[i]) }

  lemma HexCharRoundTrip(c: char)
    requires IsHex(c)
    ensures HexChar(HexValue(c)) == Lower(c)
  {}

  lemma DecodeHexString(o: Octets)
    ensures HexDecode(HexString(o)) == o && IsLowerHex6(HexString(o))
  {
    assert o.o1 == (o.o1 / 16) * 16 + o.o1 % 16;
    assert o.o2 == (o.o2 / 16) * 16 + o.o2 % 16;
    assert o.o3 == (o.o3 / 16) * 16 + o.o3 % 16;
  }

  /** Going to octets and back gives the original up to letter case. */
  lemma HexStringDecode(s: Hex6)
    ensures HexString(HexDecode(s)) == LowerHex(s)
    ensures IsLowerHex6(s) ==> LowerHex(s) == s
  {
    var t := HexString(HexDecode(s));
    assert forall i :: 0 <= i < 6 ==> t[i] == HexChar(HexValue(s[i]));
    forall i | 0 <= i < 6 ensures t[i] == LowerHex(s)[i] { HexCharRoundTrip(s[i]); }
  }

  /** A string is the hexadecimal form of given octets exactly when it is lower-case and decodes to them. */
  lemma IsHexStringOf(s: string, o: Octets)
    ensures s == HexString(o) <==> IsLowerHex6(s) && HexDecode(s) == o
  {
    DecodeHexString(o);
    if IsLowerHex6(s) {
      HexStringDecode(s);
    }
  }

  /** The number a hexadecimal string denotes. */
  function HexNumber(s: string): nat
    requires forall i :: 0 <= i < |s| ==> IsHex(s[i])
  {
    if s == [] then 0 else HexNumber(s[..|s| - 1]) * 16 + HexValue(s[|s| - 1])
  }

  lemma HexNumberSix(s: Hex6)
    ensures HexNumber(s) ==
      ((((HexValue(s[0]) * 16 + HexValue(s[1])) * 16 + HexValue(s[2])) * 16 + HexValue(s[3])) * 16 + HexValue(s[4])) * 16 + HexValue(s[5])
  {
    var a, b, c, d, e := s[..5], s[..4], s[..3], s[..2], s[..1];
    assert a[..4] == b && b[..3] == c && c[..2] == d && d[..1] == e && e[..0] == [];
    assert HexNumber(e) == HexValue(s[0]);
    assert HexNumber(d) == HexNumber(e) * 16 + HexValue(s[1]);
    assert HexNumber(c) == HexNumber(d) * 16 + HexValue(s[2]);
    assert HexNumber(b) == HexNumber(c) * 16 + HexValue(s[3]);
    assert HexNumber(a) == HexNumber(b) * 16 + HexValue(s[4]);
    assert HexNumber(s) == HexNumber(a) * 16 + HexValue(s[5]);
  }

  /** String and octets denote the same number, first octet first. */
  lemma HexNumberOf(s: Hex6)
    ensures var o := HexDecode(s); HexNumber(s) == o.o1 * 65536 + o.o2 * 256 + o.o3
  {
    HexNumberSix(s);
    var o := HexDecode(s);
    assert o.o1 == HexValue(s[0]) * 16 + HexValue(s[1]);
    assert o.o2 == HexValue(s[2]) * 16 + HexValue(s[3]);
    assert o.o3 == HexValue(s[4]) * 16 + HexValue(s[5]);
  }

  // ----- S-NSSAIs

  datatype SbiSnssai = SbiSnssai(sst: byte, sd: Option<Hex6>)
  datatype NgapSnssai = NgapSnssai(sst: byte, sd: Option<Octets>)

  function ToNgapSnssai(x: SbiSnssai): NgapSnssai {
    NgapSnssai(x.sst, match x.sd case Some(sd) => Some(HexDecode(sd)) case None => None)
  }

  function ToSbiSnssai(x: NgapSnssai): SbiSnssai {
    SbiSnssai(x.sst, match x.sd case Some(sd) => Some(HexString(sd)) case None => None)
  }

  function LowerSnssai(x: SbiSnssai): SbiSnssai {
    x.(sd := match x.sd case Some(sd) => Some(LowerHex(sd)) case None => None)
  }

  lemma SnssaiRoundTrips(x: SbiSnssai, y: NgapSnssai)
    ensures ToSbiSnssai(ToNgapSnssai(x)) == LowerSnssai(x)
    ensures ToNgapSnssai(ToSbiSnssai(y)) == y
  {
    if x.sd.Some? { HexStringDecode(x.sd.value); }
    if y.sd.Some? { DecodeHexString(y.sd.value); }
  }

  // ----- non-empty lists

  datatype NonEmpty<+T> = NonEmpty(head: T, tail: seq<T>) {
    function Items(): seq<T> { [head] + tail }
  }

  function MapSeq<T, U>(f: T -> U, xs: seq<T>): (ys: seq<U>)
    ensures |ys| == |xs| && forall i :: 0 <= i < |xs| ==> ys[i] == f(xs[i])
  {
    if xs == [] then [] else [f(xs[0])] + MapSeq(f, xs[1..])
  }

  function TransformNonempty<T, U>(value: NonEmpty<T>, f: T -> U): NonEmpty<U> {
    NonEmpty(f(value.head), MapSeq(f, value.tail))
  }

  lemma TransformItems<T, U>(value: NonEmpty<T>, f: T -> U)
    ensures |TransformNonempty(value, f).Items()| == |value.Items()|
    ensures forall i :: 0 <= i < |value.Items()| ==> TransformNonempty(value, f).Items()[i] == f(value.Items()[i])
  {}

  // ----- the PLMN support list

  datatype ConfigPlmnSupport = ConfigPlmnSupport(plmnId: PlmnId, snssais: NonEmpty<SbiSnssai>)
  datatype NgapPlmnSupport = NgapPlmnSupport(plmn: Octets, slices: NonEmpty<NgapSnssai>)

  function ToNgapSlices(slices: NonEmpty<SbiSnssai>): NonEmpty<NgapSnssai> {
    TransformNonempty(slices, ToNgapSnssai)
  }

  function ToNgapSupport(item: ConfigPlmnSupport): NgapPlmnSupport {
    NgapPlmnSupport(EncodePlmn(item.plmnId), ToNgapSlices(item.snssais))
  }

  function ToNgapSupportList(items: NonEmpty<ConfigPlmnSupport>): NonEmpty<NgapPlmnSupport> {
    TransformNonempty(items, ToNgapSupport)
  }

  /** The converted list keeps the length and order of both levels, and reading each PLMN and each slice
      back gives the configured one, slices up to letter case: nothing is lost, added or swapped. */
  lemma SupportListRoundTrip(items: NonEmpty<ConfigPlmnSupport>, i: nat)
    requires i < |items.Items()|
    ensures |ToNgapSupportList(items).Items()| == |items.Items()|
    ensures var sent, item := ToNgapSupportList(items).Items()[i], items.Items()[i];
      && DecodePlmn(sent.plmn) == Some(item.plmnId)
      && |sent.slices.Items()| == |item.snssais.Items()|
      && forall j :: 0 <= j < |item.snssais.Items()| ==>
           ToSbiSnssai(sent.slices.Items()[j]) == LowerSnssai(item.snssais.Items()[j])
  {
    TransformItems(items, ToNgapSupport);
    var item := items.Items()[i];
    DecodeEncodePlmn(item.plmnId);
    TransformItems(item.snssais, ToNgapSnssai);
    var slices := item.snssais.Items();
    forall j | 0 <= j < |slices|
      ensures ToSbiSnssai(ToNgapSlices(item.snssais).Items()[j]) == LowerSnssai(slices[j])
    {
      SnssaiRoundTrips(slices[j], ToNgapSnssai(slices[j]));
    }
  }
}
