/** The pure parts of the authentication service: the role hierarchy check
    and the hexadecimal form of a session token. The random bytes are an
    input; password hashing and the database calls are not modelled. */
module AuthService {
  import opened Wrappers
  import opened GeoTypes

  newtype byte = x: int | 0 <= x < 256

  /** `roleHierarchy` */
  function RoleLevel(r: UserRole): (n: nat)
  {
    match r
    case RoleUser => 1
    case RoleAdmin => 2
    case RoleSuperAdmin => 3
  }

  /** `hasPermission(userRole, requiredRole)` */
  function HasPermission(userRole: UserRole, requiredRole: UserRole): (ok: bool)
    ensures ok <==> (userRole == requiredRole || userRole == RoleSuperAdmin ||
                     (userRole == RoleAdmin && requiredRole == RoleUser))
  {
    RoleLevel(userRole) >= RoleLevel(requiredRole)
  }

  /** The check is the total order USER < ADMIN < SUPER_ADMIN: reflexive,
      transitive, total and antisymmetric; SUPER_ADMIN passes every
      requirement and USER passes only a USER requirement. */
  lemma PermissionOrder(a: UserRole, b: UserRole, c: UserRole)
    ensures HasPermission(a, a)
    ensures HasPermission(a, b) && HasPermission(b, c) ==> HasPermission(a, c)
    ensures HasPermission(a, b) || HasPermission(b, a)
    ensures HasPermission(a, b) && HasPermission(b, a) ==> a == b
    ensures HasPermission(RoleSuperAdmin, a)
    ensures HasPermission(RoleUser, a) <==> a == RoleUser
    ensures HasPermission(a, RoleUser)
  {
  }

  const HexDigits := "0123456789abcdef"

  /** One lowercase hexadecimal digit. */
  function HexDigit(d: int): (c: char)
    requires 0 <= d < 16
    ensures c in HexDigits
  {
    HexDigits[d]
  }

  /** `byte.toString(16).padStart(2, '0')`: exactly two digits, the high
      one `0` for bytes below 16. */
  function ByteToHex(b: byte): (s: string)
    ensures |s| == 2 && s[0] in HexDigits && s[1] in HexDigits
    ensures b < 16 ==> s[0] == '0'
  {
    [HexDigit(b as int / 16), HexDigit(b as int % 16)]
  }

  /** `Array.from(bytes, ByteToHex).join('')` */
  function HexEncode(bytes: seq<byte>): (s: string)
    ensures |s| == 2 * |bytes|
    ensures forall k :: 0 <= k < |s| ==> s[k] in HexDigits
  {
    if bytes == [] then [] else ByteToHex(bytes[0]) + HexEncode(bytes[1..])
  }

  /** `generateToken`, given the 32 bytes `crypto.getRandomValues` fills
      the array with. */
  function GenerateToken(randomBytes: seq<byte>): (token: string)
    requires |randomBytes| == 32
    ensures |token| == 64
    ensures forall k :: 0 <= k < |token| ==> token[k] in HexDigits
  {
    HexEncode(randomBytes)
  }

  /** The value of a lowercase hexadecimal digit. */
  function HexValue(c: char): (d: Option<int>)
    ensures d.Some? <==> c in HexDigits
    ensures d.Some? ==> 0 <= d.value < 16 && HexDigits[d.value] == c
  {
    if '0' <= c <= '9' then Some(c as int - '0' as int)
    else if 'a' <= c <= 'f' then Some(c as int - 'a' as int + 10)
    else None
  }

  /** Reading a token back, two digits per byte. */
  function HexDecode(s: string): (r: Option<seq<byte>>)
    ensures r.Some? ==> 2 * |r.value| == |s|
    decreases |s|
  {
    if s == [] then Some([])
    else if |s| == 1 then None
    else
      var hi, lo := HexValue(s[0]), HexValue(s[1]);
      if hi.None? || lo.None? then None
      else
        var rest := HexDecode(s[2..]);
        if rest.None? then None else Some([(hi.value * 16 + lo.value) as byte] + rest.value)
  }

  lemma HexValueOfDigit(d: int)
    requires 0 <= d < 16
    ensures HexValue(HexDigit(d)) == Some(d)
  {
    var c := HexDigit(d);
    assert HexDigits[d] == c;
    if d < 10 {
      assert c as int == '0' as int + d;
    } else {
      assert c as int == 'a' as int + d - 10;
    }
  }

  /** The two digits of a byte read back as that byte. */
  lemma ByteRoundTrip(b: byte)
    ensures var s := ByteToHex(b);
      HexValue(s[0]) == Some(b as int / 16) && HexValue(s[1]) == Some(b as int % 16)
    ensures (b as int / 16) * 16 + b as int % 16 == b as int
  {
    HexValueOfDigit(b as int / 16);
    HexValueOfDigit(b as int % 16);
  }

  /** Decoding the encoding gives the bytes back. */
  lemma {:induction false} HexRoundTrip(bytes: seq<byte>)
    ensures HexDecode(HexEncode(bytes)) == Some(bytes)
  {
    if bytes != [] {
      var b := bytes[0];
      var s := HexEncode(bytes);
      var h := ByteToHex(b);
      assert s == h + HexEncode(bytes[1..]);
      ByteRoundTrip(b);
      assert s[0] == h[0] && s[1] == h[1];
      assert s[2..] == HexEncode(bytes[1..]);
      HexRoundTrip(bytes[1..]);
      assert bytes == [b] + bytes[1..];
    }
  }

  /** Distinct byte sequences give distinct tokens. */
  lemma HexInjective(a: seq<byte>, b: seq<byte>)
    ensures HexEncode(a) == HexEncode(b) ==> a == b
  {
    HexRoundTrip(a);
    HexRoundTrip(b);
  }
}
