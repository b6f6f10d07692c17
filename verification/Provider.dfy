/** Provider value objects: phone numbers, device tokens and mail addresses.
    A string is a sequence of runes; its size in bytes is that of its UTF-8 form. */
module Provider {
  import opened Prelude

  const MIN_PHONE_DIGITS := 7
  const MAX_PHONE_DIGITS := 15
  const MIN_DEVICE_TOKEN_LENGTH := 10

  /** Decisions taken by libraries outside this model: which runes beyond Latin-1
      are decimal digits, and which texts the mail parser and the checks on its
      result let through. */
  datatype Tables = Tables(otherDigit: char -> bool, mailbox: string -> bool)

  function RuneBytes(r: char): nat {
    if r < '\U{80}' then 1 else if r < '\U{800}' then 2 else if r < '\U{10000}' then 3 else 4
  }

  function Bytes(s: string): nat {
    if s == "" then 0 else RuneBytes(s[0]) + Bytes(s[1..])
  }

  predicate IsDigit(tables: Tables, r: char) {
    if r <= '\U{FF}' then '0' <= r <= '9' else tables.otherDigit(r)
  }

  predicate IsFormatting(r: char) {
    r == ' ' || r == '-' || r == '(' || r == ')'
  }

  // ----------------------------------------------------------- phone numbers

  function Stripped(s: string): string {
    if s == "" then "" else (if IsFormatting(s[0]) then "" else [s[0]]) + Stripped(s[1..])
  }

  /** A stripped number the system takes: "+" and then 7 to 15 bytes of digits. */
  predicate PhoneShaped(tables: Tables, s: string) {
    && s != "" && s[0] == '+'
    && (forall r :: r in s[1..] ==> IsDigit(tables, r))
    && MIN_PHONE_DIGITS <= Bytes(s[1..]) <= MAX_PHONE_DIGITS
  }

  /** What a phone number is accepted as, if it is. */
  function Phone(tables: Tables, number: string): Option<string> {
    if PhoneShaped(tables, Stripped(number)) then Some(Stripped(number)) else None
  }

  method NormalizePhoneNumber(number: string) returns (builder: string)
    ensures builder == Stripped(number)
  {
    builder := "";
    for i := 0 to |number|
      invariant builder == Stripped(number[..i])
    {
      StrippedConcat(number[..i], [number[i]]);
      assert number[..i + 1] == number[..i] + [number[i]];
      if !IsFormatting(number[i]) {
        builder := builder + [number[i]];
      }
    }
    assert number[..|number|] == number;
  }

  method ByteLength(s: string) returns (n: nat)
    ensures n == Bytes(s)
  {
    n := 0;
    for i := 0 to |s|
      invariant n == Bytes(s[..i])
    {
      assert s[..i + 1] == s[..i] + [s[i]];
      BytesConcat(s[..i], [s[i]]);
      n := n + RuneBytes(s[i]);
    }
    assert s[..|s|] == s;
  }

  method NewPhoneNumber(tables: Tables, number: string) returns (phone: Option<string>)
    ensures phone == Phone(tables, number)
  {
    if number == "" { return None; }
    var normalized := NormalizePhoneNumber(number);
    if !("+" <= normalized) { return None; }
    var digits := normalized[1..];
    for i := 0 to |digits|
      invariant forall r :: r in digits[..i] ==> IsDigit(tables, r)
    {
      if !IsDigit(tables, digits[i]) {
        assert digits[i] in digits;
        return None;
      }
    }
    assert digits[..|digits|] == digits;
    var n := ByteLength(digits);
    if n < MIN_PHONE_DIGITS || n > MAX_PHONE_DIGITS { return None; }
    return Some(normalized);
  }

  lemma {:induction false} StrippedConcat(a: string, b: string)
    ensures Stripped(a + b) == Stripped(a) + Stripped(b)
  {
    if a == "" {
      assert a + b == b;
    } else {
      assert (a + b)[1..] == a[1..] + b;
      StrippedConcat(a[1..], b);
    }
  }

  /** A space, a dash and a parenthesis go; any other rune stays. */
  lemma StrippedRune(r: char)
    ensures Stripped([r]) == if r == ' ' || r == '-' || r == '(' || r == ')' then "" else [r]
  {
    assert [r][1..] == "";
  }

  /** Sizes in UTF-8. */
  lemma BytesOfRune(r: char)
    ensures Bytes([r]) == if r < '\U{80}' then 1 else if r < '\U{800}' then 2 else if r < '\U{10000}' then 3 else 4
  {
    assert [r][1..] == "";
  }

  lemma {:induction false} BytesConcat(a: string, b: string)
    ensures Bytes(a + b) == Bytes(a) + Bytes(b)
  {
    if a == "" {
      assert a + b == b;
    } else {
      assert (a + b)[1..] == a[1..] + b;
      BytesConcat(a[1..], b);
    }
  }

  /** Stripping removes exactly the formatting runes. */
  lemma {:induction false} StrippedRunes(s: string)
    ensures forall r :: r in Stripped(s) <==> r in s && !IsFormatting(r)
    ensures (forall r :: r in s ==> !IsFormatting(r)) ==> Stripped(s) == s
    ensures (forall r :: r in s ==> IsFormatting(r)) ==> Stripped(s) == ""
  {
    if s != "" {
      StrippedRunes(s[1..]);
      assert s == [s[0]] + s[1..];
    }
  }

  lemma StrippingIsIdempotent(s: string)
    ensures Stripped(Stripped(s)) == Stripped(s)
  {
    StrippedRunes(s);
    StrippedRunes(Stripped(s));
  }

  /** Formatting runes may be put in or taken out anywhere: neither acceptance
      nor the result changes. */
  lemma FormattingIsIrrelevant(tables: Tables, a: string, f: string, b: string)
    requires forall r :: r in f ==> IsFormatting(r)
    ensures Phone(tables, a + f + b) == Phone(tables, a + b)
  {
    StrippedConcat(a + f, b);
    StrippedConcat(a, f);
    StrippedConcat(a, b);
    StrippedRunes(f);
    assert Stripped(a) + "" == Stripped(a);
  }

  /** An accepted number is its own normal form. */
  lemma AcceptedReparses(tables: Tables, s: string)
    requires Phone(tables, s).Some?
    ensures Phone(tables, Phone(tables, s).value) == Phone(tables, s)
  {
    StrippingIsIdempotent(s);
  }

  /** What is accepted, and as what: after stripping, a plus sign and 7 to 15 bytes of
      digits, which up to Latin-1 are the ASCII ones. */
  lemma AcceptedExactly(tables: Tables, s: string)
    ensures var v := Stripped(s);
      Phone(tables, s) ==
        if v != "" && v[0] == '+' && 7 <= Bytes(v[1..]) <= 15
           && (forall r :: r in v[1..] ==> '0' <= r <= '9' || (r > '\U{FF}' && tables.otherDigit(r))) then Some(v)
        else None
  {
  }

  /** The form of clause 6.1 of ITU-T E.164 the comments promise: 7 to 15 digits. */
  predicate E164(s: string) {
    && 7 + 1 <= |s| <= 15 + 1 && s[0] == '+'
    && forall r :: r in s[1..] ==> '0' <= r <= '9'
  }

  predicate Ascii(s: string) {
    forall r :: r in s ==> r < '\U{80}'
  }

  lemma {:induction false} ByteBounds(s: string)
    ensures |s| <= Bytes(s) <= 4 * |s|
    ensures Ascii(s) ==> Bytes(s) == |s|
  {
    if s != "" {
      assert s[0] in s;
      assert forall r :: r in s[1..] ==> r in s;
      ByteBounds(s[1..]);
    }
  }

  /** An accepted number never has more than 15 digits. */
  lemma AtMostFifteenDigits(tables: Tables, s: string)
    requires Phone(tables, s).Some?
    ensures var v := Phone(tables, s).value; v[0] == '+' && 2 <= |v| - 1 <= 15
  {
    ByteBounds(Stripped(s)[1..]);
  }

  /** The promised form is what is accepted exactly when the number, without its
      formatting, is plain ASCII. */
  lemma AcceptedAsE164(tables: Tables, s: string)
    ensures E164(Stripped(s)) <==> Phone(tables, s).Some? && Ascii(s)
  {
    StrippedRunes(s);
    var v := Stripped(s);
    if E164(v) {
      forall r | r in s ensures r < '\U{80}' {
        if !IsFormatting(r) {
          assert r in v;
          var i :| 0 <= i < |v| && v[i] == r;
          if i > 0 { assert r == v[1..][i - 1] && r in v[1..]; }
        }
      }
      assert Ascii(v[1..]) by { forall r | r in v[1..] ensures r < '\U{80}' { assert r in v; } }
      ByteBounds(v[1..]);
    }
    if Phone(tables, s).Some? && Ascii(s) {
      assert Ascii(v[1..]) by { forall r | r in v[1..] ensures r < '\U{80}' { assert r in v; assert r in s; } }
      ByteBounds(v[1..]);
    }
  }

  lemma {:induction false} TwoByteRunes(s: string)
    requires forall r :: r in s ==> '\U{80}' <= r < '\U{800}'
    ensures Bytes(s) == 2 * |s|
  {
    if s != "" {
      assert s[0] in s;
      assert forall r :: r in s[1..] ==> r in s;
      TwoByteRunes(s[1..]);
    }
  }

  /** The length test counts bytes: four to seven digits of two bytes each are
      accepted, although the promised form wants at least seven digits in ASCII. */
  lemma ShortNumbersAccepted(tables: Tables, d: string)
    requires 4 <= |d| <= 7
    requires forall r :: r in d ==> '\U{100}' <= r < '\U{800}' && tables.otherDigit(r)
    ensures Phone(tables, "+" + d) == Some("+" + d) && !E164("+" + d)
  {
    var s := "+" + d;
    assert s[1..] == d && s[0] == '+';
    forall r | r in s ensures !IsFormatting(r) {
      if r != '+' { assert r in d; }
    }
    StrippedRunes(s);
    TwoByteRunes(d);
    assert d[0] in d;
  }

  /** For instance, a number of four Arabic-Indic digits. */
  lemma FourDigitsAccepted(tables: Tables)
    requires forall r :: '\U{660}' <= r <= '\U{669}' ==> tables.otherDigit(r)
    ensures Phone(tables, "+\U{661}\U{662}\U{663}\U{664}").Some?
  {
    var d := "\U{661}\U{662}\U{663}\U{664}";
    assert "+\U{661}\U{662}\U{663}\U{664}" == "+" + d;
    ShortNumbersAccepted(tables, d);
  }

  // ------------------------------------------- device tokens, mail addresses

  /** White space as the Unicode property defines it. */
  predicate IsSpace(r: char) {
    || '\t' <= r <= '\r' || r == ' ' || r == '\U{85}' || r == '\U{A0}' || r == '\U{1680}'
    || '\U{2000}' <= r <= '\U{200A}' || r == '\U{2028}' || r == '\U{2029}'
    || r == '\U{202F}' || r == '\U{205F}' || r == '\U{3000}'
  }

  function TrimLeft(s: string): string {
    if s != "" && IsSpace(s[0]) then TrimLeft(s[1..]) else s
  }

  function TrimRight(s: string): string {
    if s != "" && IsSpace(s[|s| - 1]) then TrimRight(s[..|s| - 1]) else s
  }

  predicate DeviceTokenOk(token: string) {
    Bytes(TrimRight(TrimLeft(token))) >= MIN_DEVICE_TOKEN_LENGTH
  }

  predicate AllSpace(s: string) {
    forall r :: r in s ==> IsSpace(r)
  }

  lemma AsciiSpaces(r: char)
    ensures r < '\U{80}' ==> (IsSpace(r) <==> r in "\t\n\U{0B}\U{0C}\r ")
  {
  }

  lemma {:induction false} TrimLeftDrops(a: string, s: string)
    requires AllSpace(a) && (s == "" || !IsSpace(s[0]))
    ensures TrimLeft(a + s) == s
  {
    if a == "" {
      assert a + s == s;
    } else {
      assert a[0] in a && forall r :: r in a[1..] ==> r in a;
      assert (a + s)[0] == a[0] && (a + s)[1..] == a[1..] + s;
      TrimLeftDrops(a[1..], s);
    }
  }

  lemma {:induction false} TrimRightDrops(s: string, b: string)
    requires AllSpace(b) && (s == "" || !IsSpace(s[|s| - 1]))
    ensures TrimRight(s + b) == s
    decreases |b|
  {
    if b == "" {
      assert s + b == s;
    } else {
      var n := |b| - 1;
      assert b[n] in b && forall r :: r in b[..n] ==> r in b;
      assert (s + b)[|s| + n] == b[n] && (s + b)[..|s| + n] == s + b[..n];
      TrimRightDrops(s, b[..n]);
    }
  }

  /** A device token is good if what is left without the white space around it has at
      least ten bytes. */
  lemma TokenNeedsTenBytes(a: string, core: string, b: string)
    requires AllSpace(a) && AllSpace(b)
    requires core != "" && !IsSpace(core[0]) && !IsSpace(core[|core| - 1])
    ensures DeviceTokenOk(a + core + b) <==> Bytes(core) >= 10
    ensures !DeviceTokenOk(a)
  {
    assert a + core + b == a + (core + b) && (core + b)[0] == core[0];
    TrimLeftDrops(a, core + b);
    TrimRightDrops(core, b);
    assert a + "" == a;
    TrimLeftDrops(a, "");
  }

  predicate EmailOk(tables: Tables, email: string) {
    email != "" && ' ' !in email && tables.mailbox(email)
  }
}
