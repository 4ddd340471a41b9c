/** cmd/bm-server/storage/storage.go: the proof-of-work record the server keeps
    for an incoming message until the sender has solved its puzzle. */
module Storage {
  import opened Common
  import Base64

  newtype uint64 = x: int | 0 <= x < 0x1_0000_0000_0000_0000

  datatype ProofOfWork = ProofOfWork(
    challenge: string,
    bits: int,
    proof: uint64,
    expires: Time,
    msgId: string,
    valid: bool)

  /** How long a puzzle may be solved for. */
  const Lifetime: int := 30 * Minute

  /** The number of random bytes behind a challenge. */
  const ChallengeSize: nat := 32

  /** NewProofOfWork(): a fresh, unsolved puzzle. `challengeRead` is the
      outcome of `io.ReadFull(rand.Reader, buf)` on a 32-byte buffer, `uuid`
      that of `uuid.NewRandom()` in string form, `difficulty` the configured
      `Accounts.ProofOfWork` and `now` the `time.Now()` reading, in
      nanoseconds. */
  function NewProofOfWork(challengeRead: Result<seq<byte>>, uuid: Result<string>, difficulty: int, now: int)
    : (r: Result<ProofOfWork>)
    requires challengeRead.Ok? ==> |challengeRead.value| == ChallengeSize
    ensures challengeRead.Fail? ==> r == Fail(challengeRead.err)
    ensures challengeRead.Ok? && uuid.Fail? ==> r == Fail(uuid.err)
    ensures r.Ok? <==> challengeRead.Ok? && uuid.Ok?
    ensures r.Ok? ==>
      && !r.value.valid
      && r.value.proof == 0
      && r.value.bits == difficulty
      && r.value.expires == Instant(now + Lifetime)
      && r.value.msgId == uuid.value
      && Base64.Decode(r.value.challenge) == Some(challengeRead.value)
      && |r.value.challenge| == 44
      && r.value.challenge[43] == '='
      && (forall i :: 0 <= i < 43 ==> r.value.challenge[i] != '=')
  {
    match challengeRead
    case Fail(e) => Fail(e)
    case Ok(buf) =>
      var challenge := Base64.Encode(buf);
      Base64.DecodeEncode(buf);
      Base64.Encode32(buf);
      match uuid
      case Fail(e) => Fail(e)
      case Ok(msgId) =>
        Ok(ProofOfWork(
          challenge := challenge,
          bits := difficulty,
          proof := 0,
          expires := Instant(now + Lifetime),
          msgId := msgId,
          valid := false))
  }
}
