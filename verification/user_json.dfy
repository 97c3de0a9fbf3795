/** `JSON.stringify` and `JSON.parse` for the session identity, which the session keeps in
    storage as text. Only the one object layout the client writes is read back. */
module UserJson {
  import opened Options
  import opened Text
  import opened ClubTypes

  /** A JSON string body: `"` and `\` are escaped with a backslash. */
  function Escape(s: string): (r: string)
    ensures |r| >= |s|
  {
    if s == [] then [] else EscapeChar(s[0]) + Escape(s[1..])
  }

  /** Reads a string body up to its closing quote; a backslash takes the next character as is. */
  function ReadString(s: string): Option<(string, string)>
  {
    if s == [] then None
    else if s[0] == '"' then Some(([], s[1..]))
    else if s[0] == '\\' then
      if |s| < 2 then None
      else match ReadString(s[2..])
        case None => None
        case Some(p) => Some(([s[1]] + p.0, p.1))
    else match ReadString(s[1..])
      case None => None
      case Some(p) => Some(([s[0]] + p.0, p.1))
  }

  /** Reads the longest run of decimal digits; no digit at all is a syntax error. */
  function ReadNat(s: string): Option<(nat, string)>
  {
    var n := RunLength(s, 10);
    if n == 0 then None else Some((RadixValue(s[..n], 10), s[n..]))
  }

  function ReadBool(s: string): Option<(bool, string)>
  {
    if |s| >= 4 && s[..4] == "true" then Some((true, s[4..]))
    else if |s| >= 5 && s[..5] == "false" then Some((false, s[5..]))
    else None
  }

  /** The text after `lit`, if `s` starts with it. */
  function Expect(lit: string, s: string): Option<string>
  {
    if |lit| <= |s| && s[..|lit|] == lit then Some(s[|lit|..]) else None
  }

  const KeyId := "{\"id\":"
  const KeyNombre := ",\"nombre\":\""
  const KeyEmail := ",\"email\":\""
  const KeyRol := ",\"rol\":\""
  const KeyActivo := ",\"activo\":"
  const Quote := "\""
  const Close := "}"

  function BoolText(b: bool): string { if b then "true" else "false" }

  /** `JSON.stringify(user)`: `{"id":…,"nombre":"…","email":"…","rol":"…","activo":…}`. */
  function Encode(u: Identity): string
  {
    KeyId + (NatToString(u.id) + (KeyNombre + (Escape(u.nombre) + (Quote + (KeyEmail + (Escape(u.email)
    + (Quote + (KeyRol + (Escape(u.rol) + (Quote + (KeyActivo + (BoolText(u.activo) + Close))))))))))))
  }

  /** Reads back the layout `Encode` writes, one stage per field in key order; any other text
      gives `None`. */
  function Decode(s: string): Option<Identity>
  {
    match Expect(KeyId, s)
    case None => None
    case Some(s1) =>
      match ReadNat(s1)
      case None => None
      case Some(id) => DecodeNombre(id.0, id.1)
  }

  function DecodeNombre(id: nat, s: string): Option<Identity>
  {
    match Expect(KeyNombre, s)
    case None => None
    case Some(s2) =>
      match ReadString(s2)
      case None => None
      case Some(nombre) => DecodeEmail(id, nombre.0, nombre.1)
  }

  function DecodeEmail(id: nat, nombre: string, s: string): Option<Identity>
  {
    match Expect(KeyEmail, s)
    case None => None
    case Some(s3) =>
      match ReadString(s3)
      case None => None
      case Some(email) => DecodeRol(id, nombre, email.0, email.1)
  }

  function DecodeRol(id: nat, nombre: string, email: string, s: string): Option<Identity>
  {
    match Expect(KeyRol, s)
    case None => None
    case Some(s4) =>
      match ReadString(s4)
      case None => None
      case Some(rol) => DecodeActivo(id, nombre, email, rol.0, rol.1)
  }

  function DecodeActivo(id: nat, nombre: string, email: string, rol: string, s: string): Option<Identity>
  {
    match Expect(KeyActivo, s)
    case None => None
    case Some(s5) =>
      match ReadBool(s5)
      case None => None
      case Some(activo) =>
        if activo.1 == Close then Some(Identity(id, nombre, email, rol, activo.0)) else None
  }

  lemma ExpectPrefix(lit: string, rest: string)
    ensures Expect(lit, lit + rest) == Some(rest)
  {
    assert (lit + rest)[..|lit|] == lit;
    assert (lit + rest)[|lit|..] == rest;
  }

  /** The escaped form of one character. */
  function EscapeChar(c: char): string
  {
    if c == '"' || c == '\\' then ['\\', c] else [c]
  }

  /** Reading past one escaped character puts that character in front of what follows. */
  lemma ReadAfterChar(c: char, x: string)
    requires ReadString(x).Some?
    ensures ReadString(EscapeChar(c) + x) == Some(([c] + ReadString(x).value.0, ReadString(x).value.1))
  {
    var s := EscapeChar(c) + x;
    if c == '"' || c == '\\' {
      assert s[0] == '\\' && s[1] == c && s[2..] == x;
    } else {
      assert s[0] == c && s[1..] == x;
    }
  }

  /** Reading an escaped body followed by its closing quote gives the original text back. */
  lemma {:induction false} ReadEscaped(t: string, rest: string)
    ensures ReadString(Escape(t) + Quote + rest) == Some((t, rest))
  {
    if t == [] {
      assert Escape(t) + Quote + rest == ['"'] + rest;
    } else {
      var x := Escape(t[1..]) + Quote + rest;
      ReadEscaped(t[1..], rest);
      assert Escape(t) + Quote + rest == EscapeChar(t[0]) + x;
      ReadAfterChar(t[0], x);
      assert [t[0]] + t[1..] == t;
    }
  }

  lemma RunStopsAtNonDigit(d: string, rest: string)
    requires AllDigits(d)
    requires rest == [] || !IsDigit(rest[0])
    ensures RunLength(d + rest, 10) == |d|
  {
    if d == [] {
      assert d + rest == rest;
    } else {
      assert (d + rest)[1..] == d[1..] + rest;
      assert AllDigits(d[1..]);
      RunStopsAtNonDigit(d[1..], rest);
    }
  }

  lemma ReadNatOf(n: nat, rest: string)
    requires rest == [] || !IsDigit(rest[0])
    ensures ReadNat(NatToString(n) + rest) == Some((n, rest))
  {
    var d := NatToString(n);
    RunStopsAtNonDigit(d, rest);
    assert (d + rest)[..|d|] == d;
    assert (d + rest)[|d|..] == rest;
    DecimalValue(d);
    NatToStringValue(n);
  }

  lemma ReadBoolOf(b: bool, rest: string)
    ensures ReadBool(BoolText(b) + rest) == Some((b, rest))
  {
    var s := BoolText(b) + rest;
    if b {
      assert s[..4] == "true" && s[4..] == rest;
    } else {
      assert s[..4] != "true" by { assert s[0] == 'f'; }
      assert s[..5] == "false" && s[5..] == rest;
    }
  }

  /** The text `Encode` writes after the identity's id. */
  function TailAfterId(u: Identity): string
  {
    KeyNombre + (Escape(u.nombre) + (Quote + TailAfterNombre(u)))
  }

  function TailAfterNombre(u: Identity): string
  {
    KeyEmail + (Escape(u.email) + (Quote + TailAfterEmail(u)))
  }

  function TailAfterEmail(u: Identity): string
  {
    KeyRol + (Escape(u.rol) + (Quote + TailAfterRol(u)))
  }

  function TailAfterRol(u: Identity): string
  {
    KeyActivo + (BoolText(u.activo) + Close)
  }

  lemma DecodeActivoOf(u: Identity)
    ensures DecodeActivo(u.id, u.nombre, u.email, u.rol, TailAfterRol(u)) == Some(u)
  {
    ExpectPrefix(KeyActivo, BoolText(u.activo) + Close);
    ReadBoolOf(u.activo, Close);
  }

  /** A key followed by an escaped string body and its closing quote reads back as the body. */
  lemma ExpectThenRead(key: string, x: string, rest: string)
    ensures Expect(key, key + (Escape(x) + (Quote + rest))) == Some(Escape(x) + (Quote + rest))
    ensures ReadString(Escape(x) + (Quote + rest)) == Some((x, rest))
  {
    ExpectPrefix(key, Escape(x) + (Quote + rest));
    assert Escape(x) + (Quote + rest) == Escape(x) + Quote + rest;
    ReadEscaped(x, rest);
  }

  lemma DecodeRolOf(u: Identity)
    ensures DecodeRol(u.id, u.nombre, u.email, TailAfterEmail(u)) == Some(u)
  {
    ExpectThenRead(KeyRol, u.rol, TailAfterRol(u));
    DecodeActivoOf(u);
  }

  lemma DecodeEmailOf(u: Identity)
    ensures DecodeEmail(u.id, u.nombre, TailAfterNombre(u)) == Some(u)
  {
    ExpectThenRead(KeyEmail, u.email, TailAfterEmail(u));
    DecodeRolOf(u);
  }

  lemma DecodeNombreOf(u: Identity)
    ensures DecodeNombre(u.id, TailAfterId(u)) == Some(u)
  {
    ExpectThenRead(KeyNombre, u.nombre, TailAfterNombre(u));
    DecodeEmailOf(u);
  }

  /** `JSON.parse(JSON.stringify(user))` gives the same identity back. */
  lemma DecodeEncode(u: Identity)
    ensures Decode(Encode(u)) == Some(u)
  {
    var t := TailAfterId(u);
    assert Encode(u) == KeyId + (NatToString(u.id) + t);
    ExpectPrefix(KeyId, NatToString(u.id) + t);
    ReadNatOf(u.id, t);
    DecodeNombreOf(u);
  }

  /** The stored text is never empty, so `savedUser ? … : null` always parses it. */
  lemma EncodeNonEmpty(u: Identity)
    ensures Encode(u) != ""
  {
    assert Encode(u)[0] == '{';
  }
}
