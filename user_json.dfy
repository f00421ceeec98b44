/** The signed-in user record and its text form in browser storage.
    The session service writes `JSON.stringify(user)` under the `user` key
    and reads it back with `JSON.parse`. This module writes the JSON text
    exactly as `JSON.stringify` does for this record, reads the same shape
    back, and proves that reading what was written gives the record again. */
module UserJson {
  import opened Common

  /** The user profile the authentication endpoint returns. */
  datatype User = User(id: nat, name: string, email: string, joinDate: string)

  // ---------------------------------------------------------------------
  // Writing

  function HexDigit(d: nat): (c: char)
    requires d < 16
    ensures HexValue(c) == Some(d)
  {
    if d < 10 then (('0' as int) + d) as char else (('a' as int) + d - 10) as char
  }

  /** One character of a JSON string literal: `"` and `\` and the control
      characters are escaped (the five short forms, else `\u00XX`). */
  function EscapeChar(c: char): string {
    var n := c as int;
    if c == '"' then "\\\""
    else if c == '\\' then "\\\\"
    else if n == 0x08 then "\\b"
    else if n == 0x09 then "\\t"
    else if n == 0x0A then "\\n"
    else if n == 0x0C then "\\f"
    else if n == 0x0D then "\\r"
    else if n < 0x20 then "\\u00" + [HexDigit(n / 16), HexDigit(n % 16)]
    else [c]
  }

  function Escape(s: string): string {
    if s == [] then [] else EscapeChar(s[0]) + Escape(s[1..])
  }

  /** `JSON.stringify` of a string. */
  function Quote(s: string): string {
    "\"" + Escape(s) + "\""
  }

  /** `JSON.stringify(user)`: keys in the order the record is built. */
  function Stringify(u: User): string {
    "{\"id\":" + (NatToString(u.id) +
    (",\"name\":" + (Quote(u.name) +
    (",\"email\":" + (Quote(u.email) +
    (",\"joinDate\":" + (Quote(u.joinDate) + "}")))))))
  }

  // ---------------------------------------------------------------------
  // Reading

  function HexValue(c: char): Option<nat> {
    if '0' <= c <= '9' then Some(c as int - '0' as int)
    else if 'a' <= c <= 'f' then Some(c as int - 'a' as int + 10)
    else if 'A' <= c <= 'F' then Some(c as int - 'A' as int + 10)
    else None
  }

  /** The value of four hexadecimal digits. */
  function Hex4(h: string): (r: Option<nat>)
    requires |h| == 4
    ensures r.Some? ==> r.value < 0x10000
  {
    var a :- HexValue(h[0]);
    var b :- HexValue(h[1]);
    var c :- HexValue(h[2]);
    var d :- HexValue(h[3]);
    if a < 16 && b < 16 && c < 16 && d < 16 then Some(((a * 16 + b) * 16 + c) * 16 + d) else None
  }

  /** The character a one-letter escape stands for. */
  function SimpleEscape(e: char): Option<char> {
    if e == '"' then Some('"')
    else if e == '\\' then Some('\\')
    else if e == '/' then Some('/')
    else if e == 'b' then Some(8 as char)
    else if e == 't' then Some(9 as char)
    else if e == 'n' then Some(10 as char)
    else if e == 'f' then Some(12 as char)
    else if e == 'r' then Some(13 as char)
    else None
  }

  function Cons(c: char, r: Option<(string, string)>): Option<(string, string)> {
    match r
    case None => None
    case Some(p) => Some(([c] + p.0, p.1))
  }

  /** Reads the body of a string literal up to its closing quote; returns
      the decoded text and what follows the quote. */
  function ParseStringBody(s: string): Option<(string, string)>
    decreases |s|
  {
    if s == [] then None
    else if s[0] == '"' then Some(([], s[1..]))
    else if s[0] == '\\' then
      if |s| < 2 then None
      else if s[1] == 'u' then
        if |s| < 6 then None
        else
          match Hex4(s[2..6])
          case None => None
          case Some(n) =>
            if 0xD800 <= n < 0xE000 then None
            else Cons(n as char, ParseStringBody(s[6..]))
      else
        match SimpleEscape(s[1])
        case None => None
        case Some(c) => Cons(c, ParseStringBody(s[2..]))
    else if (s[0] as int) < 0x20 then None
    else Cons(s[0], ParseStringBody(s[1..]))
  }

  function ParseString(s: string): Option<(string, string)> {
    if s != [] && s[0] == '"' then ParseStringBody(s[1..]) else None
  }

  predicate IsDigit(c: char) {
    '0' <= c <= '9'
  }

  /** The number of leading decimal digits. */
  function LeadingDigits(s: string): (k: nat)
    ensures k <= |s|
    ensures forall i :: 0 <= i < k ==> IsDigit(s[i])
    ensures k == |s| || !IsDigit(s[k])
  {
    if s != [] && IsDigit(s[0]) then 1 + LeadingDigits(s[1..]) else 0
  }

  /** The value of a string of decimal digits. */
  function DecimalValue(ds: string): nat
    requires forall i :: 0 <= i < |ds| ==> IsDigit(ds[i])
  {
    if ds == [] then 0
    else
      assert IsDigit(ds[|ds| - 1]);
      DecimalValue(ds[..|ds| - 1]) * 10 + (ds[|ds| - 1] as int - '0' as int)
  }

  /** A JSON integer without sign, fraction or exponent; a leading zero is
      allowed only on its own. */
  function ParseNat(s: string): Option<(nat, string)> {
    var k := LeadingDigits(s);
    if k == 0 || (k > 1 && s[0] == '0') then None
    else Some((DecimalValue(s[..k]), s[k..]))
  }

  function Expect(lit: string, s: string): Option<string> {
    if lit <= s then Some(s[|lit|..]) else None
  }

  /** `JSON.parse` of a stored user: the text must be one object with the
      four keys in the order `Stringify` writes them. */
  function Parse(s: string): Option<User> {
    var r1 :- Expect("{\"id\":", s);
    var p1 :- ParseNat(r1);
    var r2 :- Expect(",\"name\":", p1.1);
    var p2 :- ParseString(r2);
    var r3 :- Expect(",\"email\":", p2.1);
    var p3 :- ParseString(r3);
    var r4 :- Expect(",\"joinDate\":", p3.1);
    var p4 :- ParseString(r4);
    if p4.1 == "}" then Some(User(p1.0, p2.0, p3.0, p4.0)) else None
  }

  // ---------------------------------------------------------------------
  // Round trip

  lemma ExpectPrefix(lit: string, t: string)
    ensures Expect(lit, lit + t) == Some(t)
  {
    assert lit <= lit + t;
    assert (lit + t)[|lit|..] == t;
  }

  lemma HexPair(n: nat)
    requires n < 0x20
    ensures Hex4("00" + [HexDigit(n / 16), HexDigit(n % 16)]) == Some(n)
  {
  }

  /** Reading one escaped character and then the rest. */
  lemma EscapeCharParse(c: char, t: string)
    ensures ParseStringBody(EscapeChar(c) + t) == Cons(c, ParseStringBody(t))
  {
    var n := c as int;
    var s := EscapeChar(c) + t;
    if c == '"' || c == '\\' || n == 0x08 || n == 0x09 || n == 0x0A || n == 0x0C || n == 0x0D {
      assert s[2..] == t;
    } else if n < 0x20 {
      var h := [HexDigit(n / 16), HexDigit(n % 16)];
      assert s[2..6] == "00" + h;
      HexPair(n);
      assert s[6..] == t;
      assert (n as char) == c;
    } else {
      assert s[1..] == t;
    }
  }

  lemma {:induction false} EscapeParse(x: string, t: string)
    ensures ParseStringBody(Escape(x) + "\"" + t) == Some((x, t))
  {
    if x == [] {
      assert Escape(x) + "\"" + t == "\"" + t;
      assert ("\"" + t)[1..] == t;
    } else {
      var tail := Escape(x[1..]) + "\"" + t;
      assert Escape(x) + "\"" + t == EscapeChar(x[0]) + tail;
      EscapeCharParse(x[0], tail);
      EscapeParse(x[1..], t);
      assert [x[0]] + x[1..] == x;
    }
  }

  lemma QuoteParse(x: string, t: string)
    ensures ParseString(Quote(x) + t) == Some((x, t))
  {
    assert Quote(x) + t == "\"" + (Escape(x) + "\"" + t);
    EscapeParse(x, t);
  }

  lemma {:induction false} DecimalOfNatToString(n: nat)
    ensures DecimalValue(NatToString(n)) == n
    decreases n
  {
    var ds := NatToString(n);
    if n >= 10 {
      DecimalOfNatToString(n / 10);
      assert ds[..|ds| - 1] == NatToString(n / 10);
    }
  }

  lemma {:induction false} LeadingDigitsOf(ds: string, t: string)
    requires forall i :: 0 <= i < |ds| ==> IsDigit(ds[i])
    requires t == [] || !IsDigit(t[0])
    ensures LeadingDigits(ds + t) == |ds|
  {
    if ds != [] {
      assert (ds + t)[1..] == ds[1..] + t;
      LeadingDigitsOf(ds[1..], t);
    }
  }

  lemma {:induction false} NatToStringFirst(n: nat)
    ensures n >= 10 ==> NatToString(n)[0] != '0'
    decreases n
  {
    if n >= 10 {
      NatToStringFirst(n / 10);
      assert NatToString(n)[0] == NatToString(n / 10)[0];
    }
  }

  lemma NatParse(n: nat, t: string)
    requires t == [] || !IsDigit(t[0])
    ensures ParseNat(NatToString(n) + t) == Some((n, t))
  {
    var ds := NatToString(n);
    LeadingDigitsOf(ds, t);
    DecimalOfNatToString(n);
    NatToStringFirst(n);
    assert (ds + t)[..|ds|] == ds;
    assert (ds + t)[|ds|..] == t;
  }

  /** What `login`/`signup` write under the `user` key, `checkAuth` reads back unchanged. */
  lemma ParseStringify(u: User)
    ensures Parse(Stringify(u)) == Some(u)
  {
    var t4 := Quote(u.joinDate) + "}";
    var t3 := Quote(u.email) + (",\"joinDate\":" + t4);
    var t2 := Quote(u.name) + (",\"email\":" + t3);
    var t1 := NatToString(u.id) + (",\"name\":" + t2);
    ExpectPrefix("{\"id\":", t1);
    NatParse(u.id, ",\"name\":" + t2);
    ExpectPrefix(",\"name\":", t2);
    QuoteParse(u.name, ",\"email\":" + t3);
    ExpectPrefix(",\"email\":", t3);
    QuoteParse(u.email, ",\"joinDate\":" + t4);
    ExpectPrefix(",\"joinDate\":", t4);
    QuoteParse(u.joinDate, "}");
  }
}
