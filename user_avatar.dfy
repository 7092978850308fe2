/** The round avatar: the user's photo, or a DiceBear drawing seeded with the name,
    and the name's first letter as the text fallback. */
module UserAvatar {
  import opened Common
  import opened Domain

  const DefaultName := "User"
  const DiceBearPrefix := "https://api.dicebear.com/9.x/notionists/svg?seed="

  /** Characters `encodeURIComponent` leaves alone. */
  predicate Unreserved(c: char) {
    ('A' <= c <= 'Z') || ('a' <= c <= 'z') || ('0' <= c <= '9')
    || c == '-' || c == '_' || c == '.' || c == '!' || c == '~' || c == '*' || c == '\'' || c == '(' || c == ')'
  }

  function HexDigit(d: nat): (c: char)
    requires d < 16
    ensures ('0' <= c <= '9') || ('A' <= c <= 'F')
  {
    if d < 10 then ('0' as int + d) as char else ('A' as int + d - 10) as char
  }

  /** `%XX` for one byte, in upper-case hexadecimal. */
  function PercentByte(b: nat): (s: string)
    requires b < 256
    ensures |s| == 3 && s[0] == '%'
    ensures forall i :: 1 <= i < 3 ==> ('0' <= s[i] <= '9') || ('A' <= s[i] <= 'F')
  {
    ['%', HexDigit(b / 16), HexDigit(b % 16)]
  }

  /** The UTF-8 bytes of a Unicode scalar value. */
  function Utf8(n: nat): (bytes: seq<nat>)
    requires n < 0x11_0000
    ensures 1 <= |bytes| <= 4
    ensures forall i :: 0 <= i < |bytes| ==> bytes[i] < 256
  {
    if n < 0x80 then [n]
    else if n < 0x800 then [0xC0 + n / 64, 0x80 + n % 64]
    else if n < 0x1_0000 then [0xE0 + n / 4096, 0x80 + (n / 64) % 64, 0x80 + n % 64]
    else [0xF0 + n / 262144, 0x80 + (n / 4096) % 64, 0x80 + (n / 64) % 64, 0x80 + n % 64]
  }

  function PercentBytes(bytes: seq<nat>): (s: string)
    requires forall i :: 0 <= i < |bytes| ==> bytes[i] < 256
    ensures |s| == 3 * |bytes|
    ensures forall i :: 0 <= i < |s| ==> s[i] == '%' || ('0' <= s[i] <= '9') || ('A' <= s[i] <= 'F')
  {
    if bytes == [] then "" else PercentByte(bytes[0]) + PercentBytes(bytes[1..])
  }

  /** A character the encoding may produce: an unreserved one or '%'. */
  predicate Encoded(c: char) {
    Unreserved(c) || c == '%'
  }

  /** `encodeURIComponent(s)`. */
  function EncodeComponent(s: string): (r: string)
    ensures |r| >= |s|
    ensures forall i :: 0 <= i < |r| ==> Encoded(r[i])
  {
    if s == "" then ""
    else
      var c := s[0];
      var head := if Unreserved(c) then [c] else PercentBytes(Utf8(c as nat));
      head + EncodeComponent(s[1..])
  }

  /** A name of unreserved characters is its own encoding. */
  lemma {:induction false} EncodePlain(s: string)
    requires forall i :: 0 <= i < |s| ==> Unreserved(s[i])
    ensures EncodeComponent(s) == s
  {
    if s != "" {
      EncodePlain(s[1..]);
      assert [s[0]] + s[1..] == s;
    }
  }

  /** The encoding never holds a character that would end the seed parameter or the URL. */
  lemma EncodedStaysInParam(s: string)
    ensures var e := EncodeComponent(s); '&' !in e && '#' !in e && '=' !in e && '+' !in e && ' ' !in e
  {
    var e := EncodeComponent(s);
    forall i | 0 <= i < |e| ensures e[i] != '&' && e[i] != '#' && e[i] != '=' && e[i] != '+' && e[i] != ' ' {
      assert Encoded(e[i]);
    }
  }

  /** What the avatar renders for a user. */
  datatype AvatarView = AvatarView(imageUrl: string, alt: string, fallback: string)

  function DisplayName(u: User): (name: string)
    ensures name != ""
    ensures u.name != "" ==> name == u.name
    ensures u.name == "" ==> name == DefaultName
  {
    OrElse(u.name, DefaultName)
  }

  /** No user renders nothing; otherwise the photo or the drawing, and the initial. */
  function Avatar(user: Option<User>): (v: Option<AvatarView>)
    ensures v.None? <==> user.None?
    ensures v.Some? ==> v.value.alt == DisplayName(user.value)
    ensures v.Some? && user.value.profileImage != "" ==> v.value.imageUrl == user.value.profileImage
    ensures v.Some? && user.value.profileImage == "" ==>
      v.value.imageUrl == DiceBearPrefix + EncodeComponent(DisplayName(user.value))
    ensures v.Some? ==> v.value.fallback == [UpperChar(DisplayName(user.value)[0])]
  {
    match user
    case None => None
    case Some(u) =>
      var name := DisplayName(u);
      Some(AvatarView(OrElse(u.profileImage, DiceBearPrefix + EncodeComponent(name)), name, [UpperChar(name[0])]))
  }

  /** A user without a name is drawn from the seed "User" and shows "U". */
  lemma NamelessAvatar(u: User)
    requires u.name == "" && u.profileImage == ""
    ensures Avatar(Some(u)) == Some(AvatarView(DiceBearPrefix + DefaultName, DefaultName, "U"))
  {
    EncodePlain(DefaultName);
  }
}
