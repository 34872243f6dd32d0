/** System operations: a balance change carried as text in a header's extra data. */
module SysOps {
  import opened Blocks

  const PREFIX := "sysop:"
  const SET_BALANCE := "setBalance"
  const FIELD_COUNT := 4
  const ADDRESS_DIGITS: nat := 40
  const VALUE_DIGITS: nat := 64

  /** An address is below 16^40: twenty bytes. */
  datatype SysOp = SysOp(kind: string, address: Address, value: int)

  datatype ParseError = NotSysOp | Malformed | UnknownKind

  function Pow16(w: nat): (p: nat)
    ensures p > 0
  {
    if w == 0 then 1 else 16 * Pow16(w - 1)
  }

  // --- hexadecimal ---

  function Digit(d: nat, upper: bool): char
    requires d < 16
  {
    if d < 10 then ('0' as int + d) as char
    else if upper then ('A' as int + d - 10) as char
    else ('a' as int + d - 10) as char
  }

  function Nibble(c: char): (r: Option<nat>)
    ensures r.Some? ==> r.value < 16
  {
    if '0' <= c <= '9' then Some(c as int - '0' as int)
    else if 'a' <= c <= 'f' then Some(c as int - 'a' as int + 10)
    else if 'A' <= c <= 'F' then Some(c as int - 'A' as int + 10)
    else None
  }

  /** Minimal-width lower-case digits. */
  function Hex(n: nat): (s: string)
    ensures s != ""
  {
    if n < 16 then [Digit(n, false)] else Hex(n / 16) + [Digit(n % 16, false)]
  }

  /** Exactly `width` digits, the case of each given by `upper`. */
  function Padded(n: nat, width: nat, upper: nat -> bool): (s: string)
    ensures |s| == width
  {
    if width == 0 then "" else Padded(n / 16, width - 1, upper) + [Digit(n % 16, upper(width - 1))]
  }

  function Decode(s: string): Option<nat> {
    if s == "" then Some(0)
    else
      var high, low := Decode(s[..|s| - 1]), Nibble(s[|s| - 1]);
      if high.Some? && low.Some? then Some(16 * high.value + low.value) else None
  }

  predicate HasHexPrefix(s: string) {
    |s| >= 2 && s[0] == '0' && (s[1] == 'x' || s[1] == 'X')
  }

  // --- the address and the quantity ---

  /** `checksum(a)(i)` says whether digit i of address a is upper case. */
  function AddressHex(a: Address, checksum: Address -> nat -> bool): string {
    "0x" + Padded(a, ADDRESS_DIGITS, checksum(a))
  }

  function ParseAddress(s: string): Option<Address> {
    var digits := if HasHexPrefix(s) then s[2..] else s;
    if |digits| == ADDRESS_DIGITS then Decode(digits) else None
  }

  function EncodeBig(v: int): string {
    if v < 0 then "-0x" + Hex(-v) else "0x" + Hex(v)
  }

  function DecodeBig(s: string): Option<nat> {
    if !HasHexPrefix(s) then None
    else
      var digits := s[2..];
      if digits == "" || (|digits| > 1 && digits[0] == '0') || |digits| > VALUE_DIGITS then None else Decode(digits)
  }

  // --- fields ---

  function Split(s: string): (r: seq<string>)
    ensures |r| > 0
  {
    if s == "" then [""]
    else
      var rest := Split(s[1..]);
      if s[0] == ':' then [""] + rest else [[s[0]] + rest[0]] + rest[1..]
  }

  // --- the codec ---

  function Encode(op: SysOp, checksum: Address -> nat -> bool): string {
    PREFIX + op.kind + ":" + AddressHex(op.address, checksum) + ":" + EncodeBig(op.value)
  }

  function Parse(s: string): Result<SysOp, ParseError> {
    if !(PREFIX <= s) then Err(NotSysOp)
    else
      var fields := Split(s);
      if |fields| != FIELD_COUNT then Err(Malformed)
      else if fields[1] != SET_BALANCE then Err(UnknownKind)
      else
        match (ParseAddress(fields[2]), DecodeBig(fields[3]))
        case (Some(address), Some(value)) => Ok(SysOp(SET_BALANCE, address, value))
        case _ => Err(Malformed)
  }

  /** What `ApplySysOp` agrees to carry out. */
  predicate Applicable(op: SysOp) {
    op.kind == SET_BALANCE && 0 <= op.value < Pow16(VALUE_DIGITS)
  }

  // --- facts ---

  lemma DigitRoundTrip(d: nat, upper: bool)
    requires d < 16
    ensures Nibble(Digit(d, upper)) == Some(d) && Digit(d, upper) != ':'
    ensures Digit(d, upper) == '0' <==> d == 0
  {
  }

  lemma {:induction false} HexDecodes(n: nat)
    ensures Decode(Hex(n)) == Some(n) && ':' !in Hex(n)
    ensures Hex(n)[0] == '0' ==> n == 0
  {
    DigitRoundTrip(n % 16, false);
    if n < 16 {
      assert Hex(n)[..0] == "";
    } else {
      HexDecodes(n / 16);
      assert Hex(n)[..|Hex(n)| - 1] == Hex(n / 16);
    }
  }

  /** A number fits in w digits exactly when it is below 16^w. */
  lemma {:induction false} HexWidth(n: nat, w: nat)
    requires w > 0
    ensures |Hex(n)| <= w <==> n < Pow16(w)
  {
    if n >= 16 {
      if w == 1 {
        assert |Hex(n / 16)| >= 1;
        assert Pow16(1) == 16 * Pow16(0);
      } else {
        HexWidth(n / 16, w - 1);
      }
    } else {
      assert Pow16(w) == 16 * Pow16(w - 1);
    }
  }

  lemma {:induction false} PaddedDecodes(n: nat, width: nat, upper: nat -> bool)
    requires n < Pow16(width)
    ensures Decode(Padded(n, width, upper)) == Some(n) && ':' !in Padded(n, width, upper)
  {
    if width > 0 {
      PaddedDecodes(n / 16, width - 1, upper);
      DigitRoundTrip(n % 16, upper(width - 1));
      assert Padded(n, width, upper)[..width - 1] == Padded(n / 16, width - 1, upper);
    }
  }

  lemma {:induction false} DecodedFits(s: string)
    requires Decode(s).Some?
    ensures Decode(s).value < Pow16(|s|)
  {
    if s != "" {
      DecodedFits(s[..|s| - 1]);
    }
  }

  lemma {:induction false} FieldsWiden(w: nat, v: nat)
    requires w <= v
    ensures Pow16(w) <= Pow16(v)
  {
    if w < v {
      FieldsWiden(w, v - 1);
    }
  }

  lemma {:induction false} SplitAtColon(a: string, b: string)
    requires ':' !in a
    ensures Split(a + ":" + b) == [a] + Split(b)
  {
    var s := a + ":" + b;
    if a == "" {
      assert s[1..] == b;
    } else {
      assert s[1..] == a[1..] + ":" + b && [s[0]] + a[1..] == a;
      SplitAtColon(a[1..], b);
    }
  }

  lemma {:induction false} SplitWhole(a: string)
    requires ':' !in a
    ensures Split(a) == [a]
  {
    if a != "" {
      SplitWhole(a[1..]);
      assert [a[0]] + a[1..] == a;
    }
  }

  lemma AddressRoundTrip(a: Address, checksum: Address -> nat -> bool)
    requires a < Pow16(ADDRESS_DIGITS)
    ensures ParseAddress(AddressHex(a, checksum)) == Some(a) && ':' !in AddressHex(a, checksum)
  {
    PaddedDecodes(a, ADDRESS_DIGITS, checksum(a));
    assert AddressHex(a, checksum)[2..] == Padded(a, ADDRESS_DIGITS, checksum(a));
  }

  lemma QuantityRoundTrip(v: nat)
    ensures ':' !in "0x" + Hex(v)
    ensures DecodeBig("0x" + Hex(v)) == (if v < Pow16(VALUE_DIGITS) then Some(v) else None)
  {
    hide Pow16, Decode, Hex;
    HexDecodes(v);
    HexWidth(v, VALUE_DIGITS);
    SmallHex();
    var s := "0x" + Hex(v);
    assert s[2..] == Hex(v) && HasHexPrefix(s);
  }

  /** Zero is written with one digit. */
  lemma SmallHex()
    ensures |Hex(0)| == 1
  {
  }

  lemma BigRoundTrip(v: int)
    ensures ':' !in EncodeBig(v)
    ensures DecodeBig(EncodeBig(v)) == (if 0 <= v < Pow16(VALUE_DIGITS) then Some(v) else None)
  {
    hide Pow16, Decode, Hex;
    if v >= 0 {
      QuantityRoundTrip(v);
    } else {
      HexDecodes(-v);
      assert EncodeBig(v)[0] == '-';
    }
  }

  lemma SplitFour(w: string, x: string, y: string, z: string)
    requires ':' !in w && ':' !in x && ':' !in y && ':' !in z
    ensures Split(w + ":" + x + ":" + y + ":" + z) == [w, x, y, z]
  {
    hide Split;
    SplitWhole(z);
    SplitAtColon(y, z);
    SplitAtColon(x, y + ":" + z);
    SplitAtColon(w, x + ":" + (y + ":" + z));
    assert w + ":" + x + ":" + y + ":" + z == w + ":" + (x + ":" + (y + ":" + z));
  }

  /** The fields of an encoded setBalance are the four that went in. */
  lemma EncodedFields(op: SysOp, checksum: Address -> nat -> bool)
    requires op.kind == SET_BALANCE && op.address < Pow16(ADDRESS_DIGITS)
    ensures Split(Encode(op, checksum)) ==
            ["sysop", SET_BALANCE, AddressHex(op.address, checksum), EncodeBig(op.value)]
    ensures PREFIX <= Encode(op, checksum)
  {
    hide Split, AddressHex, EncodeBig, Pow16;
    var a, v := AddressHex(op.address, checksum), EncodeBig(op.value);
    AddressRoundTrip(op.address, checksum);
    BigRoundTrip(op.value);
    var word := "sysop";
    assert ':' !in word && ':' !in SET_BALANCE;
    SplitFour(word, SET_BALANCE, a, v);
    assert PREFIX == word + ":";
  }

  /** An operation survives encoding exactly when `ApplySysOp` would carry it out. */
  lemma RoundTrip(op: SysOp, checksum: Address -> nat -> bool)
    requires op.address < Pow16(ADDRESS_DIGITS)
    ensures Parse(Encode(op, checksum)) == Ok(op) <==> Applicable(op)
  {
    hide Split, AddressHex, EncodeBig, ParseAddress, DecodeBig, Pow16;
    if op.kind == SET_BALANCE {
      EncodedFields(op, checksum);
      AddressRoundTrip(op.address, checksum);
      BigRoundTrip(op.value);
    }
  }

  /** Whatever parses can be carried out, so replay never refuses it. */
  lemma ParsedIsApplicable(s: string)
    requires Parse(s).Ok?
    ensures Applicable(Parse(s).value) && Parse(s).value.address < Pow16(ADDRESS_DIGITS)
  {
    hide Split, Decode, Pow16;
    var fields := Split(s);
    var a := if HasHexPrefix(fields[2]) then fields[2][2..] else fields[2];
    DecodedFits(a);
    DecodedFits(fields[3][2..]);
    FieldsWiden(|fields[3][2..]|, VALUE_DIGITS);
  }

  // --- what is accepted ---

  /** The same hexadecimal digits, in either letter case. */
  predicate SameDigits(s: string, t: string) {
    |s| == |t| && forall i :: 0 <= i < |s| ==> Nibble(s[i]).Some? && Nibble(s[i]) == Nibble(t[i])
  }

  function LowerCase(): nat -> bool {
    i => false
  }

  /** An address as text: full width, with or without a prefix, in any letter case. */
  predicate SpellsAddress(s: string, n: nat, p: string, a: string) {
    p in {"", "0x", "0X"} && s == p + a && SameDigits(a, Padded(n, ADDRESS_DIGITS, LowerCase()))
  }

  /** A value as text: with a prefix, in as few digits as it takes, in any letter case. */
  predicate SpellsValue(s: string, n: nat, x: string, v: string) {
    x in {"0x", "0X"} && s == x + v && SameDigits(v, Hex(n))
  }

  /** The text of an operation. */
  ghost predicate Spells(s: string, op: SysOp, address: string, value: string) {
    && op.value >= 0 && s == "sysop:" + SET_BALANCE + ":" + address + ":" + value
    && (exists p, a :: SpellsAddress(address, op.address, p, a)) && exists x, v :: SpellsValue(value, op.value, x, v)
  }

  lemma {:induction false} SameDecode(s: string, t: string)
    requires SameDigits(s, t)
    ensures Decode(s) == Decode(t) && ':' !in s
  {
    if s != "" {
      assert SameDigits(s[..|s| - 1], t[..|t| - 1]);
      SameDecode(s[..|s| - 1], t[..|t| - 1]);
      assert s == s[..|s| - 1] + [s[|s| - 1]];
    }
  }

  lemma {:induction false} DecodePads(s: string)
    requires Decode(s).Some?
    ensures SameDigits(s, Padded(Decode(s).value, |s|, LowerCase()))
  {
    if s != "" {
      DecodePads(s[..|s| - 1]);
      var low := Nibble(s[|s| - 1]).value;
      DigitRoundTrip(low, false);
      assert Decode(s).value / 16 == Decode(s[..|s| - 1]).value && Decode(s).value % 16 == low;
    }
  }

  lemma {:induction false} DecodeHexes(s: string)
    requires s != "" && (|s| == 1 || s[0] != '0') && Decode(s).Some?
    ensures SameDigits(s, Hex(Decode(s).value))
  {
    var before, low := s[..|s| - 1], Nibble(s[|s| - 1]).value;
    DigitRoundTrip(low, false);
    assert Decode("") == Some(0);
    if |s| > 1 {
      DecodeHexes(before);
      var high := Decode(before).value;
      if high == 0 {
        SmallHex();
      }
      assert Decode(s).value / 16 == high && Decode(s).value % 16 == low;
    } else {
      assert before == "";
    }
  }

  function Join(fields: seq<string>): string
    requires |fields| > 0
  {
    if |fields| == 1 then fields[0] else fields[0] + ":" + Join(fields[1..])
  }

  lemma {:induction false} SplitJoins(s: string)
    ensures Join(Split(s)) == s && forall i :: 0 <= i < |Split(s)| ==> ':' !in Split(s)[i]
  {
    if s != "" {
      var rest := Split(s[1..]);
      SplitJoins(s[1..]);
      if s[0] == ':' {
        assert ([""] + rest)[1..] == rest;
      } else {
        var fields := [[s[0]] + rest[0]] + rest[1..];
        assert fields[1..] == rest[1..];
        assert Join(fields) == [s[0]] + Join(rest);
      }
    }
  }

  lemma JoinFour(f: seq<string>)
    requires |f| == FIELD_COUNT
    ensures Join(f) == f[0] + ":" + f[1] + ":" + f[2] + ":" + f[3]
  {
    assert f[1..][1..] == f[2..] && f[2..][1..] == f[3..];
    assert Join(f[2..]) == f[2] + ":" + f[3];
  }

  lemma AddressReads(s: string, n: nat, p: string, a: string)
    requires SpellsAddress(s, n, p, a) && n < Pow16(ADDRESS_DIGITS)
    ensures ParseAddress(s) == Some(n)
  {
    hide Decode, Pow16, Padded;
    SameDecode(a, Padded(n, ADDRESS_DIGITS, LowerCase()));
    PaddedDecodes(n, ADDRESS_DIGITS, LowerCase());
    assert Nibble(a[1]).Some?;
    if p == "" {
      assert s == a;
    } else {
      assert s[2..] == a;
    }
  }

  lemma AddressText(s: string, n: nat)
    ensures ParseAddress(s) == Some(n) <==> n < Pow16(ADDRESS_DIGITS) && exists p, a :: SpellsAddress(s, n, p, a)
    ensures ParseAddress(s) == Some(n) ==> ':' !in s
  {
    hide Decode, Pow16, Padded;
    forall p, a | SpellsAddress(s, n, p, a) && n < Pow16(ADDRESS_DIGITS) ensures ParseAddress(s) == Some(n) {
      AddressReads(s, n, p, a);
    }
    if ParseAddress(s) == Some(n) {
      var p, a := if HasHexPrefix(s) then s[..2] else "", if HasHexPrefix(s) then s[2..] else s;
      DecodePads(a);
      DecodedFits(a);
      assert p == "" || p == "0x" || p == "0X";
      assert SpellsAddress(s, n, p, a);
      SameDecode(a, Padded(n, ADDRESS_DIGITS, LowerCase()));
    }
  }

  lemma QuantityReads(s: string, n: nat, x: string, v: string)
    requires SpellsValue(s, n, x, v) && n < Pow16(VALUE_DIGITS)
    ensures DecodeBig(s) == Some(n)
  {
    hide Decode, Pow16, Hex;
    SameDecode(v, Hex(n));
    HexDecodes(n);
    HexWidth(n, VALUE_DIGITS);
    SmallHex();
    HexLeads(n);
    assert s[2..] == v && Nibble(v[0]) == Nibble(Hex(n)[0]);
  }

  lemma QuantityText(s: string, n: nat)
    ensures DecodeBig(s) == Some(n) <==> n < Pow16(VALUE_DIGITS) && exists x, v :: SpellsValue(s, n, x, v)
    ensures DecodeBig(s) == Some(n) ==> ':' !in s
  {
    hide Decode, Pow16, Hex;
    forall x, v | SpellsValue(s, n, x, v) && n < Pow16(VALUE_DIGITS) ensures DecodeBig(s) == Some(n) {
      QuantityReads(s, n, x, v);
    }
    if DecodeBig(s) == Some(n) {
      var x, v := s[..2], s[2..];
      DecodeHexes(v);
      HexWidth(n, VALUE_DIGITS);
      assert x == "0x" || x == "0X";
      assert SpellsValue(s, n, x, v);
      SameDecode(v, Hex(n));
    }
  }

  lemma {:induction false} HexLeads(n: nat)
    ensures Nibble(Hex(n)[0]) == Some(0) ==> n == 0
  {
    DigitRoundTrip(n % 16, false);
    if n >= 16 {
      HexLeads(n / 16);
    }
  }

  /** Parsing cuts a text into its four fields, or finds that it is not of four. */
  lemma FourFields(s: string, address: string, value: string)
    requires ':' !in address && ':' !in value
    ensures PREFIX <= s && Split(s) == ["sysop", SET_BALANCE, address, value] <==>
            s == "sysop:" + SET_BALANCE + ":" + address + ":" + value
  {
    hide Split;
    var word, text := "sysop", "sysop:" + SET_BALANCE + ":" + address + ":" + value;
    assert ':' !in word && ':' !in SET_BALANCE;
    SplitFour(word, SET_BALANCE, address, value);
    assert text == word + ":" + SET_BALANCE + ":" + address + ":" + value && PREFIX <= text;
    if Split(s) == [word, SET_BALANCE, address, value] {
      SplitJoins(s);
      JoinFour(Split(s));
    }
  }

  lemma FirstField(s: string)
    requires PREFIX <= s
    ensures Split(s)[0] == "sysop"
  {
    hide Split;
    var word, rest := "sysop", s[|PREFIX|..];
    assert ':' !in word && s == word + ":" + rest;
    SplitAtColon(word, rest);
  }

  /** The text of an operation that can be carried out, and nothing else, is
      accepted as that operation. */
  lemma ParsesExactly(s: string, op: SysOp)
    ensures Parse(s) == Ok(op) <==>
            && Applicable(op) && op.address < Pow16(ADDRESS_DIGITS)
            && exists address, value :: Spells(s, op, address, value)
    ensures Parse(s) == Err(NotSysOp) <==> !("sysop:" <= s)
  {
    hide Split, ParseAddress, DecodeBig, Pow16, SpellsAddress, SpellsValue;
    forall address, value | Spells(s, op, address, value) && Applicable(op) && op.address < Pow16(ADDRESS_DIGITS)
      ensures Parse(s) == Ok(op)
    {
      AddressText(address, op.address);
      QuantityText(value, op.value);
      FourFields(s, address, value);
    }
    if Parse(s) == Ok(op) {
      var f := Split(s);
      AddressText(f[2], op.address);
      QuantityText(f[3], op.value);
      FirstField(s);
      assert f == ["sysop", SET_BALANCE, f[2], f[3]];
      FourFields(s, f[2], f[3]);
      assert Spells(s, op, f[2], f[3]);
    }
  }
}
