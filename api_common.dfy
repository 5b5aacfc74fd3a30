/** Vocabulary shared by the API commands: Java integer widths, the error a
    command throws, audit event types, the well-known SYSTEM account and the
    declared parameter descriptors of a command. */
module ApiCommon {

  const MinLong: int := -0x8000_0000_0000_0000
  const MaxLong: int := 0x7fff_ffff_ffff_ffff
  const MinInt: int := -0x8000_0000
  const MaxInt: int := 0x7fff_ffff

  /** A Java `long` (database ids, sizes, counters). */
  type Long = x: int | MinLong <= x <= MaxLong

  /** A Java `int`. */
  type Int = x: int | MinInt <= x <= MaxInt

  /** A `java.util.Date`, as milliseconds since the epoch. */
  type Date = int

  /** The account that async commands are attributed to when the resource
      they reference cannot be found (`Account.ACCOUNT_ID_SYSTEM`). */
  const AccountIdSystem: Long := 1

  /** `BaseCmd.INTERNAL_ERROR`, the only error code these commands raise. */
  datatype ErrorCode = InternalError

  /** A `ServerApiException`: an error code and a message for the client. */
  datatype ApiError = ApiError(code: ErrorCode, message: string)

  /** The `EventTypes` constants these commands report to the audit ledger. */
  datatype EventType = SnapshotCreate | PortForwardingServiceDelete

  /** `BaseCmd.CommandType`: the kinds of value a parameter is bound from. */
  datatype CommandType = LongType | StringType

  /** One `@Parameter` annotation on a command field. */
  datatype Parameter = Parameter(name: string, kind: CommandType, required: bool, description: string)

  /** The names a request must supply for a command with these parameters. */
  function RequiredNames(ps: seq<Parameter>): set<string>
  {
    set k | 0 <= k < |ps| && ps[k].required :: ps[k].name
  }

  /** No two parameters of a command share a name. */
  predicate NamesUnique(ps: seq<Parameter>)
  {
    forall i, j :: 0 <= i < j < |ps| ==> ps[i].name != ps[j].name
  }

  /** Java's narrowing of an integer to 32 bits (`int` arithmetic wraps
      around modulo 2^32 into the signed range). */
  function Wrap32(x: int): (r: int)
    ensures MinInt <= r <= MaxInt
    ensures (r - x) % 0x1_0000_0000 == 0
  {
    (x - MinInt) % 0x1_0000_0000 + MinInt
  }

  /** Adding to an already wrapped value and wrapping again is the same as
      wrapping the exact sum: a Java `int` accumulator holds the exact sum
      modulo 2^32. */
  lemma WrapAdd(a: int, b: int)
    ensures Wrap32(Wrap32(a) + b) == Wrap32(a + b)
  {
  }

  /** A value that already fits in 32 bits is left unchanged by the wrap. */
  lemma WrapInRange(x: int)
    requires MinInt <= x <= MaxInt
    ensures Wrap32(x) == x
  {
  }

  /** Java's `(long)` cast of a `double`: rounds toward zero and saturates at
      the ends of the `long` range. */
  function DoubleToLong(x: real): (r: Long)
    ensures 0.0 <= x ==> 0 <= r && r as real <= x
    ensures x <= 0.0 ==> r <= 0 && x <= r as real
    ensures MinLong as real < x < MaxLong as real ==> x - 1.0 < r as real < x + 1.0
    ensures MaxLong as real <= x ==> r == MaxLong
    ensures x <= MinLong as real ==> r == MinLong
  {
    if x >= MaxLong as real then MaxLong
    else if x <= MinLong as real then MinLong
    else if x >= 0.0 then x.Floor
    else -((-x).Floor)
  }
}
