/** The error taxonomy of package wtf (errors.go). */
module Errors {
  import opened Wrappers

  /** A Go `error` value, as the code compares it with `==`.
      A wtf.Error is a string type, so two of them are equal exactly when their
      strings are; any other error (from BoltDB, the codec, encoding/json or
      net/http) never equals a wtf.Error. */
  datatype Err =
    | WtfError(text: string)
    | Other(text: string)

  /** The six sentinel errors declared at errors.go:4-15. */
  datatype Sentinel = Unauthorized | Internal | DialRequired | DialNotFound | DialExists | DialIDRequired

  /** The string each sentinel is declared with. */
  function Message(s: Sentinel): (m: string)
    ensures |m| > 0
    ensures s == Internal <==> m == "internal error"
  {
    match s
    case Unauthorized => "unauthorized"
    case Internal => "internal error"
    case DialRequired => "dial required"
    case DialNotFound => "dial not found"
    case DialExists => "dial already exists"
    case DialIDRequired => "dial id required"
  }

  /** The sentinel as a Go value: `Error("...")`. */
  function ToErr(s: Sentinel): (e: Err)
    ensures e.WtfError? && e.text == Message(s)
  {
    WtfError(Message(s))
  }

  const ErrUnauthorized: Err := ToErr(Unauthorized)
  const ErrInternal: Err := ToErr(Internal)
  const ErrDialRequired: Err := ToErr(DialRequired)
  const ErrDialNotFound: Err := ToErr(DialNotFound)
  const ErrDialExists: Err := ToErr(DialExists)
  const ErrDialIDRequired: Err := ToErr(DialIDRequired)

  /** `e.Error()`. For a wtf.Error it is the string unchanged (errors.go:21). */
  function ErrorString(e: Err): (r: string)
    ensures e.WtfError? ==> WtfError(r) == e
  {
    e.text
  }

  /** Every sentinel, once each. */
  function AllSentinels(): seq<Sentinel> {
    [Unauthorized, Internal, DialRequired, DialNotFound, DialExists, DialIDRequired]
  }

  lemma AllSentinelsComplete()
    ensures forall s :: s in AllSentinels()
  {
    var all := AllSentinels();
    forall s: Sentinel ensures s in all {
      match s
      case Unauthorized => assert all[0] == s;
      case Internal => assert all[1] == s;
      case DialRequired => assert all[2] == s;
      case DialNotFound => assert all[3] == s;
      case DialExists => assert all[4] == s;
      case DialIDRequired => assert all[5] == s;
    }
  }

  /** The first sentinel in `candidates` that `wtf.Error(m)` compares equal to. */
  function FindSentinel(m: string, candidates: seq<Sentinel>): (r: Option<Sentinel>)
    ensures r.Some? ==> r.value in candidates && WtfError(m) == ToErr(r.value)
    ensures r.None? ==> forall s :: s in candidates ==> WtfError(m) != ToErr(s)
  {
    if |candidates| == 0 then None
    else if m == Message(candidates[0]) then Some(candidates[0])
    else FindSentinel(m, candidates[1..])
  }

  /** The sentinel, if any, that an error rebuilt on the client as
      `wtf.Error(m)` is equal to. */
  function SentinelOf(m: string): (r: Option<Sentinel>)
    ensures r.Some? <==> exists s :: ToErr(s) == WtfError(m)
    ensures r.Some? ==> ToErr(r.value) == WtfError(m)
  {
    AllSentinelsComplete();
    FindSentinel(m, AllSentinels())
  }

  /** The six messages are pairwise distinct. */
  lemma MessagesDistinct(a: Sentinel, b: Sentinel)
    ensures Message(a) == Message(b) ==> a == b
  {
  }

  /** Rebuilding `Error(msg)` from a sentinel's message gives back that sentinel. */
  lemma RebuildSentinel(s: Sentinel)
    ensures WtfError(ErrorString(ToErr(s))) == ToErr(s)
    ensures SentinelOf(ErrorString(ToErr(s))) == Some(s)
  {
  }
}
