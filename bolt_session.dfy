/** The authenticated session of bolt/session.go: a cache in front of an
    authenticator, and the 8-byte big-endian key encoder `itob`.

    This file belongs to the per-user-authenticator design; the session is
    modelled on its own, with the authenticator (wtf.Authenticator, whose
    implementation is not part of this model) as a function from token to
    the pair it returns. */
module BoltSession {
  import opened Wrappers
  import opened Errors

  /** A wtf.User; only its identity matters here. */
  datatype User = User(id: int)

  /** What `Authenticator.Authenticate(token)` returns: a possibly nil user
      and a possibly nil error. */
  datatype AuthReply = AuthReply(user: Option<User>, err: Option<Err>)

  class Session {
    const authenticator: string -> AuthReply
    var authToken: string
    /** The cached user; None is a nil `*wtf.User`. */
    var user: Option<User>

    constructor (authenticator: string -> AuthReply)
      ensures this.authenticator == authenticator
      ensures authToken == "" && user == None
    {
      this.authenticator := authenticator;
      authToken := "";
      user := None;
    }

    /** SetAuthToken records the token; a user already cached stays cached. */
    method SetAuthToken(token: string)
      modifies this`authToken
      ensures authToken == token
    {
      authToken := token;
    }

    /** Authenticate returns the cached user if there is one; otherwise it
        asks the authenticator about the current token and caches the user
        it names, unless it reports an error. */
    method Authenticate() returns (u: Option<User>, err: Option<Err>)
      modifies this`user
      ensures old(user).Some? ==> u == old(user) && err == None && user == old(user)
      ensures old(user).None? && authenticator(authToken).err.Some? ==>
        u == None && err == authenticator(authToken).err && user == None
      ensures old(user).None? && authenticator(authToken).err.None? ==>
        u == authenticator(authToken).user && err == None && user == u
    {
      if user.Some? {
        return user, None;
      }
      var reply := authenticator(authToken);
      if reply.err.Some? {
        return None, reply.err;
      }
      user := reply.user;
      return reply.user, None;
    }
  }

  /** Once a call has returned a user, every later call returns that user,
      whatever the token is set to in between. */
  method AuthenticateIsCached(s: Session, token: string) returns (first: Option<User>, second: Option<User>, err: Option<Err>)
    modifies s
    ensures first.Some? ==> second == first && err == None
  {
    var e1;
    first, e1 := s.Authenticate();
    s.SetAuthToken(token);
    second, err := s.Authenticate();
  }

  type byte = x: int | 0 <= x < 256

  const MinInt64: int := -0x8000_0000_0000_0000
  const MaxInt64: int := 0x7fff_ffff_ffff_ffff

  function Pow256(n: nat): (p: nat)
    ensures p > 0
  {
    if n == 0 then 1 else 256 * Pow256(n - 1)
  }

  lemma Pow256Eight()
    ensures Pow256(8) == 0x1_0000_0000_0000_0000
  {
  }

  /** `uint64(v)` for a 64-bit Go int: two's complement, i.e. v modulo 2^64. */
  function ToUint64(v: int): (u: nat)
    requires MinInt64 <= v <= MaxInt64
    ensures u < Pow256(8)
    ensures 0 <= v ==> u == v
    ensures v < 0 ==> u == v + Pow256(8)
  {
    Pow256Eight();
    v % Pow256(8)
  }

  /** The last n bytes of u, most significant first. */
  function BigEndian(u: nat, n: nat): (b: seq<byte>)
    ensures |b| == n
  {
    if n == 0 then [] else BigEndian(u / 256, n - 1) + [u % 256]
  }

  /** Reads bytes as an unsigned big-endian number (binary.BigEndian.Uint64
      for eight bytes). */
  function ReadBigEndian(b: seq<byte>): nat {
    if |b| == 0 then 0 else ReadBigEndian(b[..|b| - 1]) * 256 + b[|b| - 1]
  }

  lemma MulLe(x: int, y: int, d: nat)
    requires x <= y
    ensures x * d <= y * d
  {
  }

  lemma MulDistrib(x: int, y: int, d: int)
    ensures (x + y) * d == x * d + y * d
  {
  }

  lemma MulAssoc(x: int, y: int, z: int)
    ensures (x * y) * z == x * (y * z)
  {
  }

  /** Division is determined by quotient and remainder. */
  lemma DivMulAdd(u: nat, q: nat, r: nat, d: nat)
    requires d > 0 && r < d && u == q * d + r
    ensures u / d == q && u % d == r
  {
    var q', r' := u / d, u % d;
    assert u == q' * d + r';
    if q' > q {
      MulLe(q + 1, q', d);
      MulDistrib(q, 1, d);
    } else if q > q' {
      MulLe(q' + 1, q, d);
      MulDistrib(q', 1, d);
    }
  }

  /** u = q1 * a + r1 with q1 = q2 * b + r2, regrouped around a * b. */
  lemma Regroup(q1: nat, r1: nat, q2: nat, r2: nat, a: nat, b: nat)
    requires r1 < a && r2 < b && q1 == q2 * b + r2
    ensures q1 * a + r1 == q2 * (a * b) + (r2 * a + r1)
    ensures r2 * a + r1 < a * b
  {
    MulDistrib(q2 * b, r2, a);
    MulAssoc(q2, b, a);
    MulLe(r2, b - 1, a);
    MulDistrib(b, -1, a);
  }

  lemma DivDiv(u: nat, a: nat, b: nat)
    requires a > 0 && b > 0
    ensures u / a / b == u / (a * b)
    ensures (u / a % b) * a + u % a == u % (a * b)
  {
    var q1, r1 := u / a, u % a;
    var q2, r2 := q1 / b, q1 % b;
    Regroup(q1, r1, q2, r2, a, b);
    DivMulAdd(u, q2, r2 * a + r1, a * b);
  }

  /** Byte i of the encoding is `(u >> (8 * (n - 1 - i))) & 0xFF`. */
  lemma {:induction false} BigEndianByte(u: nat, n: nat, i: nat)
    requires i < n
    ensures BigEndian(u, n)[i] == u / Pow256(n - 1 - i) % 256
  {
    if i < n - 1 {
      BigEndianByte(u / 256, n - 1, i);
      DivDiv(u, 256, Pow256(n - 1 - 1 - i));
    }
  }

  /** Reading the encoding back gives u modulo 256^n. */
  lemma {:induction false} ReadBigEndianInverse(u: nat, n: nat)
    ensures ReadBigEndian(BigEndian(u, n)) == u % Pow256(n)
  {
    if n > 0 {
      var b := BigEndian(u, n);
      assert b[..n - 1] == BigEndian(u / 256, n - 1);
      ReadBigEndianInverse(u / 256, n - 1);
      DivDiv(u, 256, Pow256(n - 1));
    }
  }

  lemma ItobMatchesBigEndian(u: nat, b: seq<byte>)
    requires |b| == 8
    requires b[0] == u / Pow256(7) % 256 && b[1] == u / Pow256(6) % 256
    requires b[2] == u / Pow256(5) % 256 && b[3] == u / Pow256(4) % 256
    requires b[4] == u / Pow256(3) % 256 && b[5] == u / Pow256(2) % 256
    requires b[6] == u / Pow256(1) % 256 && b[7] == u / Pow256(0) % 256
    ensures b == BigEndian(u, 8)
  {
    var e := BigEndian(u, 8);
    BigEndianByte(u, 8, 0); BigEndianByte(u, 8, 1); BigEndianByte(u, 8, 2); BigEndianByte(u, 8, 3);
    BigEndianByte(u, 8, 4); BigEndianByte(u, 8, 5); BigEndianByte(u, 8, 6); BigEndianByte(u, 8, 7);
    assert forall i | 0 <= i < 8 :: b[i] == e[i];
  }

  /** itob returns the 8-byte big-endian encoding of uint64(v). */
  method Itob(v: int) returns (b: array<byte>)
    requires MinInt64 <= v <= MaxInt64
    ensures fresh(b) && b.Length == 8
    ensures b[..] == BigEndian(ToUint64(v), 8)
    ensures ReadBigEndian(b[..]) == ToUint64(v)
  {
    var u := ToUint64(v);
    b := new byte[8];
    // binary.BigEndian.PutUint64: byte(u >> 56), byte(u >> 48), ..., byte(u)
    b[0] := u / Pow256(7) % 256;
    b[1] := u / Pow256(6) % 256;
    b[2] := u / Pow256(5) % 256;
    b[3] := u / Pow256(4) % 256;
    b[4] := u / Pow256(3) % 256;
    b[5] := u / Pow256(2) % 256;
    b[6] := u / Pow256(1) % 256;
    b[7] := u / Pow256(0) % 256;
    ItobMatchesBigEndian(u, b[..]);
    ReadBigEndianInverse(u, 8);
    DivMulAdd(u, 0, u, Pow256(8));
  }
}
