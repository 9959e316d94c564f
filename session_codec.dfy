/** The session object as the store sees it, and its text form in the
    `session` column (what `JSON.stringify` writes and `JSON.parse` reads
    back), restricted to the two fields the store derives columns from. */
module SessionCodec {
  import opened Wrappers
  import opened Decimal

  /** The session cookie; `expires` is its expiry date in epoch seconds. */
  datatype Cookie = Cookie(expires: int)

  /** What the authentication layer keeps in the session; `user` is absent
      when nobody is logged in. */
  datatype Passport = Passport(user: Option<int>)

  datatype Session = Session(cookie: Cookie, passport: Option<Passport>)

  const CookieOpen: string := "{\"cookie\":{\"expires\":"
  const NoPassportTail: string := "}}"
  const EmptyPassportTail: string := "},\"passport\":{}}"
  const UserOpen: string := "},\"passport\":{\"user\":"
  const UserClose: string := "}}}"

  /** The text after the cookie's expiry: closes the cookie, then writes the
      passport object if the session has one (an absent `user` is omitted,
      as `JSON.stringify` omits undefined properties). */
  function PassportTail(p: Option<Passport>): (t: string)
    ensures |t| > 0 && t[0] == '}'
  {
    match p
    case None => NoPassportTail
    case Some(Passport(None)) => EmptyPassportTail
    case Some(Passport(Some(u))) => UserOpen + (ShowInt(u) + UserClose)
  }

  /** The JSON text of a session, e.g. {"cookie":{"expires":60},"passport":{"user":7}}. */
  function Serialize(s: Session): (text: string)
    ensures |text| > |CookieOpen| && text[..|CookieOpen|] == CookieOpen
  {
    CookieOpen + (ShowInt(s.cookie.expires) + PassportTail(s.passport))
  }

  function ParseTail(t: string): Option<Option<Passport>> {
    if t == NoPassportTail then Some(None)
    else if t == EmptyPassportTail then Some(Some(Passport(None)))
    else if |t| >= |UserOpen| && t[..|UserOpen|] == UserOpen then
      match ReadInt(t[|UserOpen|..])
      case Some((u, rest)) => if rest == UserClose then Some(Some(Passport(Some(u)))) else None
      case None => None
    else None
  }

  /** The session a text denotes; None for any text that is not of the
      shape Serialize writes (where `JSON.parse` would throw or yield an
      object without these fields). */
  function Parse(text: string): Option<Session> {
    if |text| < |CookieOpen| || text[..|CookieOpen|] != CookieOpen then None
    else
      match ReadInt(text[|CookieOpen|..])
      case None => None
      case Some((e, tail)) =>
        match ParseTail(tail)
        case None => None
        case Some(p) => Some(Session(Cookie(e), p))
  }

  lemma ParsePassportTail(p: Option<Passport>)
    ensures ParseTail(PassportTail(p)) == Some(p)
  {
    if p.Some? && p.value.user.Some? {
      var u := p.value.user.value;
      var t := PassportTail(p);
      assert t[..|UserOpen|] == UserOpen;
      assert t[|UserOpen|..] == ShowInt(u) + UserClose;
      ReadShowInt(u, UserClose);
    }
  }

  /** The text written for a session parses back to that same session. */
  lemma ParseSerialize(s: Session)
    ensures Parse(Serialize(s)) == Some(s)
  {
    var text := Serialize(s);
    var tail := PassportTail(s.passport);
    assert text[|CookieOpen|..] == ShowInt(s.cookie.expires) + tail;
    ReadShowInt(s.cookie.expires, tail);
    ParsePassportTail(s.passport);
  }
}
