/** Routing of a dialog to a shard: the chat key and the shard index (app/dialogs/sharding.py).
    SHA-256 is a parameter `hash`; where its collision freedom matters it is an explicit premise. */
module Sharding {
  newtype byte = b: int | 0 <= b < 256

  /** A 32-byte digest. */
  type ChatId = c: seq<byte> | |c| == 32 witness seq(32, _ => 0)

  /** A user id, the 128-bit number of its UUID. */
  type UserId = u: nat | u < 0x1_0000_0000_0000_0000_0000_0000_0000_0000 witness 0

  datatype RoutingError = NoShards | ShortChatId
  datatype Routed = Index(idx: nat) | Refused(error: RoutingError)

  const HASH_VERSION: seq<byte> := [0x76, 0x31]
  const SEPARATOR: seq<byte> := [0x7c]

  // ---------------------------------------------------------------- bytes

  /** Big-endian value of a byte string. */
  function FromBigEndian(s: seq<byte>): nat {
    if s == [] then 0 else FromBigEndian(s[..|s| - 1]) * 256 + s[|s| - 1] as nat
  }

  /** The low `k` bytes of `n`, most significant first. */
  function ToBigEndian(n: nat, k: nat): (s: seq<byte>)
    ensures |s| == k
  {
    if k == 0 then [] else ToBigEndian(n / 256, k - 1) + [(n % 256) as byte]
  }

  function UuidBytes(u: UserId): (s: seq<byte>)
    ensures |s| == 16
  {
    ToBigEndian(u, 16)
  }

  function Pow256(k: nat): (p: nat)
    ensures p > 0
  {
    if k == 0 then 1 else 256 * Pow256(k - 1)
  }

  lemma {:induction false} BigEndianRoundTrip(n: nat, k: nat)
    requires n < Pow256(k)
    ensures FromBigEndian(ToBigEndian(n, k)) == n
  {
    if k > 0 {
      BigEndianRoundTrip(n / 256, k - 1);
      var s := ToBigEndian(n, k);
      assert s[..|s| - 1] == ToBigEndian(n / 256, k - 1);
    }
  }

  lemma UuidFits(u: UserId)
    ensures u < Pow256(16)
  {
    assert Pow256(4) == 0x1_0000_0000;
    assert Pow256(8) == 0x1_0000_0000_0000_0000;
    assert Pow256(12) == 0x1_0000_0000_0000_0000_0000_0000;
  }

  // ---------------------------------------------------------------- chat key

  /** The hashed bytes: version, separator, smaller user, separator, larger user. */
  function Payload(a: UserId, b: UserId): seq<byte> {
    var (lo, hi) := if a <= b then (a, b) else (b, a);
    HASH_VERSION + SEPARATOR + UuidBytes(lo) + SEPARATOR + UuidBytes(hi)
  }

  function ComputeChatId(hash: seq<byte> -> ChatId, a: UserId, b: UserId): ChatId {
    hash(Payload(a, b))
  }

  /** The two halves of a payload can be read back, so the payload determines the pair of users
      up to order, and it does not depend on that order. */
  lemma PayloadNamesThePair(a: UserId, b: UserId, c: UserId, d: UserId)
    ensures Payload(a, b) == Payload(c, d) <==> {a, b} == {c, d}
  {
    if Payload(a, b) == Payload(c, d) {
      var (lo, hi) := if a <= b then (a, b) else (b, a);
      var (lo', hi') := if c <= d then (c, d) else (d, c);
      PayloadParts(a, b);
      PayloadParts(c, d);
      assert lo == lo' && hi == hi';
    }
    if {a, b} == {c, d} {
      assert a in {c, d} && b in {c, d} && c in {a, b} && d in {a, b};
    }
  }

  lemma PayloadParts(a: UserId, b: UserId)
    ensures |Payload(a, b)| == 36
    ensures Payload(a, b)[..3] == [0x76, 0x31, 0x7c] && Payload(a, b)[19] == 0x7c
    ensures FromBigEndian(Payload(a, b)[3..19]) == if a <= b then a else b
    ensures FromBigEndian(Payload(a, b)[20..]) == if a <= b then b else a
  {
    var (lo, hi) := if a <= b then (a, b) else (b, a);
    UuidRoundTrip(lo);
    UuidRoundTrip(hi);
    assert Payload(a, b)[3..19] == UuidBytes(lo);
    assert Payload(a, b)[20..] == UuidBytes(hi);
  }

  lemma UuidRoundTrip(u: UserId)
    ensures FromBigEndian(UuidBytes(u)) == u
  {
    UuidFits(u);
    BigEndianRoundTrip(u, 16);
  }

  /** No two different payloads of user pairs share a digest. */
  ghost predicate CollisionFree(hash: seq<byte> -> ChatId) {
    forall a: UserId, b: UserId, c: UserId, d: UserId ::
      hash(Payload(a, b)) == hash(Payload(c, d)) ==> Payload(a, b) == Payload(c, d)
  }

  /** A chat key is shared by exactly the two orders of one pair of users. */
  lemma ChatIdNamesThePair(hash: seq<byte> -> ChatId, a: UserId, b: UserId, c: UserId, d: UserId)
    requires CollisionFree(hash)
    ensures ComputeChatId(hash, a, b) == ComputeChatId(hash, c, d) <==> {a, b} == {c, d}
  {
    PayloadNamesThePair(a, b, c, d);
  }

  // ---------------------------------------------------------------- shard index

  /** `shard_for_chat` with its two error exits. */
  function ShardForChat(chat: seq<byte>, n: int): Routed {
    if n <= 0 then Refused(NoShards)
    else if |chat| < 8 then Refused(ShortChatId)
    else Index(FromBigEndian(chat[..8]) % n)
  }

  /** The index for a proper chat key and a positive number of shards. It is the remainder taken by
      repeated subtraction, which keeps division out of proofs that only need some index below n. */
  function Shard(chat: ChatId, n: nat): (idx: nat)
    requires n > 0
    ensures idx < n
  {
    Remainder(Bucket(chat), n)
  }

  /** The big-endian number in the first eight bytes. */
  function Bucket(chat: ChatId): nat {
    Leading(chat, 8)
  }

  function Leading(chat: ChatId, k: nat): nat
    requires k <= 32
  {
    if k == 0 then 0 else Leading(chat, k - 1) * 256 + chat[k - 1] as nat
  }

  lemma {:induction false} LeadingIsBigEndian(chat: ChatId, k: nat)
    requires k <= 32
    ensures Leading(chat, k) == FromBigEndian(chat[..k])
  {
    if k > 0 {
      LeadingIsBigEndian(chat, k - 1);
      assert chat[..k][..k - 1] == chat[..k - 1];
    }
  }

  function Remainder(b: nat, n: nat): (m: nat)
    requires n > 0
    ensures m < n
  {
    if b < n then b else Remainder(b - n, n)
  }

  lemma {:induction false} RemainderIsMod(b: nat, n: nat)
    requires n > 0
    ensures Remainder(b, n) == b % n
  {
    if b >= n {
      RemainderIsMod(b - n, n);
      var q := (b - n) / n;
      assert b - n == q * n + (b - n) % n;
      assert b == (q + 1) * n + (b - n) % n;
      RemainderIsUnique(b, n, q + 1, (b - n) % n);
    }
  }

  /** On proper keys and counts `shard_for_chat` never refuses and gives this index. */
  lemma ShardIsTheRoute(chat: ChatId, n: nat)
    requires n > 0
    ensures ShardForChat(chat, n) == Index(Shard(chat, n))
  {
    RemainderIsMod(Bucket(chat), n);
    LeadingIsBigEndian(chat, 8);
  }

  /** Growing to a multiple of the old shard count only splits shards: a chat on shard i moves to
      i, i + n, i + 2n, ... */
  lemma MultipleSplitsShards(chat: ChatId, n: nat, k: nat)
    requires n > 0 && k > 0
    ensures k * n > 0 && Shard(chat, k * n) % n == Shard(chat, n)
  {
    var b := Bucket(chat);
    assert k * n > 0;
    RemainderIsMod(b, n);
    RemainderIsMod(b, k * n);
    ModOfMultiple(b, n, k);
  }

  lemma ModOfMultiple(b: nat, n: nat, k: nat)
    requires n > 0 && k > 0 && k * n > 0
    ensures b % (k * n) % n == b % n
  {
    var r, q := b % (k * n), b / (k * n);
    var m, p := r % n, r / n;
    assert b == q * (k * n) + p * n + m;
    assert q * (k * n) == (q * k) * n;
    assert b == (q * k + p) * n + m;
    RemainderIsUnique(b, n, q * k + p, m);
  }

  lemma RemainderIsUnique(b: nat, n: nat, q: int, m: nat)
    requires n > 0 && m < n && b == q * n + m
    ensures b % n == m
  {
    LargerQuotient(q, m, b / n, b % n, n);
    LargerQuotient(b / n, b % n, q, m, n);
  }

  lemma LargerQuotient(q: int, m: nat, q': int, m': nat, n: nat)
    requires m < n && m' < n
    ensures q > q' ==> q * n + m > q' * n + m'
  {
    if q > q' {
      var d := q - q';
      assert q * n == q' * n + d * n;
      assert d * n == n + (d - 1) * n;
      assert (d - 1) * n >= 0;
    }
  }

  // ---------------------------------------------------------------- chats that move

  /** A key with a given bucket. */
  function ChatInBucket(b: nat): ChatId {
    ToBigEndian(b, 8) + seq(24, _ => 0)
  }

  lemma {:induction false} BucketIsGiven(b: nat)
    requires b < Pow256(8)
    ensures Bucket(ChatInBucket(b)) == b
  {
    BigEndianRoundTrip(b, 8);
    LeadingIsBigEndian(ChatInBucket(b), 8);
    assert ChatInBucket(b)[..8] == ToBigEndian(b, 8);
  }

  /** Two schemes send every chat to the same shard exactly when they have the same shard count (as
      long as the smaller one fits in the eight bytes of the bucket). */
  lemma {:induction false} SchemesAgreeOnlyIfEqual(a: nat, b: nat)
    requires 0 < a && 0 < b && (a < Pow256(8) || b < Pow256(8))
    ensures (forall chat: ChatId :: Shard(chat, a) == Shard(chat, b)) <==> a == b
  {
    if a != b {
      var low, high := if a < b then a else b, if a < b then b else a;
      BucketIsGiven(low);
      var chat := ChatInBucket(low);
      assert Remainder(low, high) == low && Remainder(low, low) == Remainder(0, low) == 0;
      assert Shard(chat, a) != Shard(chat, b);
    }
  }
}
