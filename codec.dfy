/**
 * The text a Network record is persisted as. encoding/json is not part of
 * this model; in its place is a self-delimiting encoding with the two
 * properties the persistence code depends on: a record reads back as
 * itself, and a record cut short anywhere does not read back at all.
 * Every field is written as its length in decimal, ':', then its characters.
 */
module RecordCodec {
  import opened Wrappers
  import opened Text
  import opened NetworkRecords

  /** One length-prefixed field. */
  function Field(s: string): string
  {
    NatDigits(|s|) + ":" + s
  }

  /**
   * Reads one field off the front of `s`, having seen the digits `s[..k]`
   * of its length so far: the field's characters and what follows them.
   */
  function ScanField(s: string, k: nat): Option<(string, string)>
    requires k <= |s| && AllDigits(s[..k])
    decreases |s| - k
  {
    if k == |s| then None
    else if IsDigit(s[k]) then
      assert s[..k + 1] == s[..k] + [s[k]];
      ScanField(s, k + 1)
    else if s[k] != ':' || k == 0 then None
    else
      var n := ParseNat(s[..k]);
      if |s| - k - 1 < n then None else Some((s[k + 1..k + 1 + n], s[k + 1 + n..]))
  }

  function ReadField(s: string): Option<(string, string)>
  {
    ScanField(s, 0)
  }

  /** An address's bytes as characters. */
  function Chars(a: seq<byte>): (t: string)
    ensures |t| == |a|
  {
    seq(|a|, i requires 0 <= i < |a| => a[i] as int as char)
  }

  /** Four characters below 256 read as an address; anything else does not. */
  function Address(t: string): Option<IPv4>
  {
    if |t| == 4 && forall i :: 0 <= i < 4 ==> t[i] as int < 256
    then Some(seq(4, i requires 0 <= i < 4 => t[i] as int as byte))
    else None
  }

  /** The range is "-" when absent (JSON null), else '+' and its address and mask as fields. */
  function RangeText(r: Option<IPNet>): string
  {
    match r
    case None => "-"
    case Some(n) => "+" + Field(Chars(n.ip)) + Field(Chars(n.mask))
  }

  function ReadRange(s: string): Option<(Option<IPNet>, string)>
  {
    if s == [] then None
    else if s[0] == '-' then Some((None, s[1..]))
    else if s[0] != '+' then None
    else match ReadField(s[1..])
      case None => None
      case Some((ipText, afterIp)) =>
        match ReadField(afterIp)
        case None => None
        case Some((maskText, rest)) =>
          match (Address(ipText), Address(maskText))
          case (Some(ip), Some(mask)) => Some((Some(IPNet(ip, mask)), rest))
          case _ => None
  }

  /** The three fields of a record, wrapped as one field so that its end is marked. */
  function Encode(nw: Network): string
  {
    Field(Field(nw.name) + RangeText(nw.ipRange) + Field(nw.driver))
  }

  /** Reads a whole record; anything left over, or missing, is an error. */
  function Decode(s: string): Option<Network>
  {
    match ReadField(s)
    case None => None
    case Some((payload, trailing)) =>
      if trailing != [] then None
      else match ReadField(payload)
        case None => None
        case Some((name, afterName)) =>
          match ReadRange(afterName)
          case None => None
          case Some((range, afterRange)) =>
            match ReadField(afterRange)
            case None => None
            case Some((driver, rest)) =>
              if rest != [] then None else Some(Network(name, range, driver))
  }

  /** Scanning on through more digits reaches the first non-digit. */
  lemma {:induction false} ScanPastDigits(s: string, k: nat, m: nat)
    requires k <= m < |s| && AllDigits(s[..m]) && !IsDigit(s[m])
    ensures ScanField(s, k) == ScanField(s, m)
    decreases m - k
  {
    if k < m {
      assert s[..k + 1] == s[..m][..k + 1];
      assert IsDigit(s[..m][k]);
      ScanPastDigits(s, k + 1, m);
    }
  }

  /** A text of digits alone holds no field. */
  lemma {:induction false} ScanOnlyDigits(s: string, k: nat)
    requires k <= |s| && AllDigits(s)
    ensures ScanField(s, k) == None
    decreases |s| - k
  {
    if k < |s| {
      assert s[..k + 1] == s[..k] + [s[k]];
      ScanOnlyDigits(s, k + 1);
    }
  }

  /** A field reads back as its characters, leaving what follows it untouched. */
  lemma ReadFieldOfField(s: string, rest: string)
    ensures ReadField(Field(s) + rest) == Some((s, rest))
  {
    var d := NatDigits(|s|);
    var t := Field(s) + rest;
    assert t == d + (":" + s + rest);
    assert t[..|d|] == d;
    ScanPastDigits(t, 0, |d|);
    ParseNatDigits(|s|);
    assert t[|d| + 1..|d| + 1 + |s|] == s;
    assert t[|d| + 1 + |s|..] == rest;
  }

  /** A field cut short anywhere does not read. */
  lemma ReadFieldRejectsPrefix(s: string, k: nat)
    requires k < |Field(s)|
    ensures ReadField(Field(s)[..k]) == None
  {
    var d := NatDigits(|s|);
    var p := Field(s)[..k];
    if k <= |d| {
      assert p == d[..k];
      ScanOnlyDigits(p, 0);
    } else {
      assert p == d + (":" + s[..k - |d| - 1]);
      assert p[..|d|] == d;
      ScanPastDigits(p, 0, |d|);
      ParseNatDigits(|s|);
    }
  }

  lemma AddressOfChars(a: IPv4)
    ensures Address(Chars(a)) == Some(a)
  {
    var t := Chars(a);
    assert forall i :: 0 <= i < 4 ==> t[i] as int == a[i] as int;
    assert seq(4, i requires 0 <= i < 4 => t[i] as int as byte) == a;
  }

  lemma ReadRangeOfRange(r: Option<IPNet>, rest: string)
    ensures ReadRange(RangeText(r) + rest) == Some((r, rest))
  {
    match r
    case None =>
      assert (RangeText(r) + rest)[1..] == rest;
    case Some(n) =>
      ReadRangeOfPresent(n, rest);
  }

  lemma ReadRangeOfPresent(n: IPNet, rest: string)
    ensures ReadRange(RangeText(Some(n)) + rest) == Some((Some(n), rest))
  {
    var ipText, maskText := Chars(n.ip), Chars(n.mask);
    var afterIp := Field(maskText) + rest;
    var t := RangeText(Some(n)) + rest;
    assert t == "+" + (Field(ipText) + afterIp);
    assert t[1..] == Field(ipText) + afterIp;
    ReadFieldOfField(ipText, afterIp);
    ReadFieldOfField(maskText, rest);
    AddressOfChars(n.ip);
    AddressOfChars(n.mask);
    ReadRangeStep(t, ipText, afterIp, maskText, rest);
  }

  /** A '+' followed by two fields that are addresses reads as that range. */
  lemma ReadRangeStep(s: string, ipText: string, afterIp: string, maskText: string, rest: string)
    requires s != [] && s[0] == '+'
    requires ReadField(s[1..]) == Some((ipText, afterIp)) && ReadField(afterIp) == Some((maskText, rest))
    requires Address(ipText).Some? && Address(maskText).Some?
    ensures ReadRange(s) == Some((Some(IPNet(Address(ipText).value, Address(maskText).value)), rest))
  {
  }

  /** What is written reads back as the same record. */
  lemma DecodeEncode(nw: Network)
    ensures Decode(Encode(nw)) == Some(nw)
  {
    var afterRange := Field(nw.driver);
    var afterName := RangeText(nw.ipRange) + afterRange;
    var payload := Field(nw.name) + afterName;
    assert Encode(nw) == Field(payload) + [];
    ReadFieldOfField(payload, []);
    assert payload == Field(nw.name) + RangeText(nw.ipRange) + Field(nw.driver);
    ReadFieldOfField(nw.name, afterName);
    ReadRangeOfRange(nw.ipRange, afterRange);
    assert afterRange == Field(nw.driver) + [];
    ReadFieldOfField(nw.driver, []);
  }

  /** A record cut short anywhere, as a bounded read would, does not read back. */
  lemma DecodeRejectsTruncated(nw: Network, k: nat)
    requires k < |Encode(nw)|
    ensures Decode(Encode(nw)[..k]) == None
  {
    ReadFieldRejectsPrefix(Field(nw.name) + RangeText(nw.ipRange) + Field(nw.driver), k);
  }
}
