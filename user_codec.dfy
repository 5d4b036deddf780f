/** How the signed-in user is written under "@user". The application uses
    `JSON.stringify` and `JSON.parse`; this model puts in their place a
    comma-separated encoding with backslash escapes that has the property the
    restore path relies on: parsing what was written gives back the same
    user, and only encodings of users parse. */
module UserCodec {
  import opened Wrappers
  import opened Records

  predicate Special(c: char) { c == '\\' || c == ',' }

  /** Each '\' and ',' is preceded by a '\'. */
  function Escape(s: string): (r: string)
    ensures |r| >= |s|
  {
    if s == [] then [] else (if Special(s[0]) then ['\\', s[0]] else [s[0]]) + Escape(s[1..])
  }

  /** A field followed by the rest of the input after its separator, or by
      nothing when the input ended. */
  function Framed(field: string, rest: Option<string>): string {
    Escape(field) + match rest { case None => "" case Some(r) => "," + r }
  }

  /** Reads one escaped field up to an unescaped ',' or the end of the input;
      a '\' that does not escape '\' or ',' is malformed. */
  function TakeField(s: string): Option<(string, Option<string>)>
  {
    if s == [] then Some(([], None))
    else if s[0] == ',' then Some(([], Some(s[1..])))
    else if s[0] == '\\' then
      if |s| >= 2 && Special(s[1]) then
        match TakeField(s[2..])
        case None => None
        case Some(p) => Some(([s[1]] + p.0, p.1))
      else None
    else
      match TakeField(s[1..])
      case None => None
      case Some(p) => Some(([s[0]] + p.0, p.1))
  }

  function Encode(u: AuthUser): string {
    Escape(u.nome) + "," + Escape(u.email) + "," + Escape(u.role)
  }

  /** `JSON.parse`: None stands for the exception a malformed value raises. */
  function Decode(s: string): Option<AuthUser> {
    match TakeField(s)
    case Some((nome, Some(r1))) =>
      (match TakeField(r1)
       case Some((email, Some(r2))) =>
         (match TakeField(r2)
          case Some((role, None)) => Some(AuthUser(nome, email, role))
          case _ => None)
       case _ => None)
    case _ => None
  }

  lemma {:induction false} TakeFramed(field: string, rest: Option<string>)
    ensures TakeField(Framed(field, rest)) == Some((field, rest))
  {
    var tail := match rest { case None => "" case Some(r) => "," + r };
    if field == [] {
      assert Framed(field, rest) == tail;
    } else {
      var c := field[0];
      var head := if Special(c) then ['\\', c] else [c];
      assert Escape(field) == head + Escape(field[1..]);
      assert Framed(field, rest) == head + Framed(field[1..], rest);
      TakeFramed(field[1..], rest);
      assert [c] + field[1..] == field;
      var f := Framed(field, rest);
      if Special(c) {
        assert f[0] == '\\' && f[1] == c;
        assert f[2..] == Framed(field[1..], rest);
      } else {
        assert f[0] == c;
        assert f[1..] == Framed(field[1..], rest);
      }
    }
  }

  lemma {:induction false} TakeFieldFramed(s: string, field: string, rest: Option<string>)
    requires TakeField(s) == Some((field, rest))
    ensures s == Framed(field, rest)
  {
    if s == [] {
    } else if s[0] == ',' {
    } else if s[0] == '\\' {
      var p := TakeField(s[2..]).value;
      TakeFieldFramed(s[2..], p.0, p.1);
      assert field == [s[1]] + p.0;
      assert Escape(field) == ['\\', s[1]] + Escape(p.0);
    } else {
      var p := TakeField(s[1..]).value;
      TakeFieldFramed(s[1..], p.0, p.1);
      assert field == [s[0]] + p.0;
      assert Escape(field) == [s[0]] + Escape(p.0);
    }
  }

  /** Writing a user and reading it back gives the same user. */
  lemma DecodeEncode(u: AuthUser)
    ensures Decode(Encode(u)) == Some(u)
  {
    var r2 := Escape(u.role);
    var r1 := Escape(u.email) + "," + r2;
    assert Framed(u.role, None) == r2;
    assert Framed(u.email, Some(r2)) == r1;
    assert Framed(u.nome, Some(r1)) == Encode(u);
    TakeFramed(u.nome, Some(r1));
    TakeFramed(u.email, Some(r2));
    TakeFramed(u.role, None);
  }

  /** Only the encodings of users parse, each to the user it encodes. */
  lemma EncodeDecode(s: string, u: AuthUser)
    requires Decode(s) == Some(u)
    ensures Encode(u) == s
  {
    var p1 := TakeField(s).value;
    TakeFieldFramed(s, p1.0, p1.1);
    var r1 := p1.1.value;
    var p2 := TakeField(r1).value;
    TakeFieldFramed(r1, p2.0, p2.1);
    var r2 := p2.1.value;
    var p3 := TakeField(r2).value;
    TakeFieldFramed(r2, p3.0, p3.1);
  }

  lemma EncodeInjective(u: AuthUser, v: AuthUser)
    requires Encode(u) == Encode(v)
    ensures u == v
  {
    DecodeEncode(u);
    DecodeEncode(v);
  }

  /** An encoding is never the empty string, so a stored user is truthy. */
  lemma EncodeNonEmpty(u: AuthUser)
    ensures Encode(u) != ""
  {
  }
}
