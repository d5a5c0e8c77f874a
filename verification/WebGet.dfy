/** Chunked submission over plain GET requests: chunks arrive in any order and are put together at commit. */
module WebGet {
  import opened Text
  import opened Base64Url

  const MAX_CHUNK_BYTES: nat := 16 * 1024
  const MAX_TOTAL_BYTES: nat := 256 * 1024
  const MAX_CHUNK_COUNT: nat := 64
  const DEFAULT_TTL_MS: int := 10 * 60 * 1000

  datatype WebGetError =
    | InvalidTtl | InvalidToken | ExpiredToken | AlreadyCommitted | InvalidEncoding | InvalidSeq | InvalidTotal
    | InvalidLength | InvalidSequence | TooManyChunks | InvalidData | UnsafeQuery | UnsafeSubmission
    | ChunkTooLarge | DuplicateChunk | InconsistentTotal | SubmissionTooLarge | MissingChunks | InvalidHash
    | InvalidPayload(reason: string)

  /** Platform functions and text checks the model does not look into. */
  datatype Platform<!Submission> = Platform(
    secretText: string -> bool,
    secretBytes: seq<Byte> -> bool,
    sha256: seq<Byte> -> string,
    interpret: seq<Byte> -> Result<Submission, string>)

  datatype StoredChunk = StoredChunk(seqNo: nat, total: nat, data: string, decoded: seq<Byte>)

  /** `chunks` is the session's map of chunks as the list of its values, in insertion order. */
  datatype Session = Session(scope: string, createdAt: int, expiresAt: int, committed: bool, chunks: seq<StoredChunk>)

  datatype ChunkInput = ChunkInput(seqNo: Option<string>, total: Option<string>, encoding: Option<string>,
      data: Option<string>)

  datatype CommitInput = CommitInput(total: Option<string>, sha256: Option<string>, length: Option<string>)

  datatype Committed<Submission> = Committed(submission: Submission, decodedLength: nat, sha256: string)

  // ---------- numbers in query strings ----------

  predicate IsDigits(s: string) {
    s != "" && forall i :: 0 <= i < |s| ==> '0' <= s[i] <= '9'
  }

  function DecimalValue(s: string): nat
    requires forall i :: 0 <= i < |s| ==> '0' <= s[i] <= '9'
  {
    if s == "" then 0 else 10 * DecimalValue(s[..|s| - 1]) + (s[|s| - 1] as int - '0' as int)
  }

  function ParseInteger(value: Option<string>): Option<nat> {
    if value.None? || !IsDigits(value.value) then None
    else if DecimalValue(value.value) > MAX_SAFE_INTEGER then None
    else Some(DecimalValue(value.value))
  }

  function ParsePositive(value: Option<string>): (r: Option<nat>)
    ensures r.Some? ==> r.value > 0
  {
    var parsed := ParseInteger(value);
    if parsed == Some(0) then None else parsed
  }

  predicate IsHexHash(s: string) {
    |s| == 64 && forall i :: 0 <= i < |s| ==> '0' <= s[i] <= '9' || 'a' <= s[i] <= 'f' || 'A' <= s[i] <= 'F'
  }

  function LowerCase(s: string): string {
    seq(|s|, i requires 0 <= i < |s| => if 'A' <= s[i] <= 'Z' then (s[i] as int + 32) as char else s[i])
  }

  // ---------- one session ----------

  function Find(chunks: seq<StoredChunk>, seqNo: nat): (r: Option<StoredChunk>)
    ensures r.Some? ==> r.value in chunks && r.value.seqNo == seqNo
  {
    if chunks == [] then None
    else if chunks[|chunks| - 1].seqNo == seqNo then Some(chunks[|chunks| - 1])
    else Find(chunks[..|chunks| - 1], seqNo)
  }

  function TotalBytes(chunks: seq<StoredChunk>): nat {
    if chunks == [] then 0 else TotalBytes(chunks[..|chunks| - 1]) + |chunks[|chunks| - 1].decoded|
  }

  /** The checks on a chunk's data: alphabet, secrets, canonical encoding, size, secrets again. */
  function ReadData<S>(data: Option<string>, platform: Platform<S>): Result<seq<Byte>, WebGetError> {
    if data.None? || data.value == "" || !InAlphabet(data.value) then Err(InvalidData)
    else if platform.secretText(data.value) then Err(UnsafeQuery)
    else
      match DecodeBase64Url(data.value)
      case Err(_) => Err(InvalidData)
      case Ok(decoded) =>
        if |decoded| > MAX_CHUNK_BYTES then Err(ChunkTooLarge)
        else if platform.secretBytes(decoded) then Err(UnsafeSubmission)
        else Ok(decoded)
  }

  /** Everything submitChunk checks before it looks at the session's chunks. */
  function ReadChunk<S>(input: ChunkInput, platform: Platform<S>): Result<StoredChunk, WebGetError> {
    if input.encoding != Some("base64url") then Err(InvalidEncoding)
    else if ParsePositive(input.seqNo).None? then Err(InvalidSeq)
    else if ParsePositive(input.total).None? then Err(InvalidTotal)
    else
      var seqNo, total := ParsePositive(input.seqNo).value, ParsePositive(input.total).value;
      if seqNo > total then Err(InvalidSequence)
      else if total > MAX_CHUNK_COUNT then Err(TooManyChunks)
      else
        match ReadData(input.data, platform)
        case Err(e) => Err(e)
        case Ok(decoded) => Ok(StoredChunk(seqNo, total, input.data.value, decoded))
  }

  /** The chunks after one accepted submission: the same for an exact repeat, one more otherwise. */
  function AddChunk(chunks: seq<StoredChunk>, c: StoredChunk): Result<seq<StoredChunk>, WebGetError> {
    match Find(chunks, c.seqNo)
    case Some(existing) =>
      if existing.data != c.data || existing.total != c.total then Err(DuplicateChunk) else Ok(chunks)
    case None =>
      if |chunks| > 0 && chunks[0].total != c.total then Err(InconsistentTotal)
      else if TotalBytes(chunks) + |c.decoded| > MAX_TOTAL_BYTES then Err(SubmissionTooLarge)
      else Ok(chunks + [c])
  }

  function Submit<S>(session: Session, input: ChunkInput, platform: Platform<S>): Result<Session, WebGetError> {
    if session.committed then Err(AlreadyCommitted)
    else
      match ReadChunk(input, platform)
      case Err(e) => Err(e)
      case Ok(c) =>
        match AddChunk(session.chunks, c)
        case Err(e) => Err(e)
        case Ok(chunks) => Ok(session.(chunks := chunks))
  }

  predicate Contiguous(chunks: seq<StoredChunk>, total: nat) {
    forall k :: 1 <= k <= total ==> Find(chunks, k).Some? && Find(chunks, k).value.total == total
  }

  predicate AllFound(chunks: seq<StoredChunk>, n: nat) {
    forall k :: 1 <= k <= n ==> Find(chunks, k).Some?
  }

  /** The decoded parts 1..n in order. */
  function Ordered(chunks: seq<StoredChunk>, n: nat): seq<seq<Byte>>
    requires AllFound(chunks, n)
  {
    if n == 0 then [] else Ordered(chunks, n - 1) + [Find(chunks, n).value.decoded]
  }

  function Flatten(parts: seq<seq<Byte>>): seq<Byte> {
    if parts == [] then [] else Flatten(parts[..|parts| - 1]) + parts[|parts| - 1]
  }

  function Commit<S>(session: Session, input: CommitInput, platform: Platform<S>): Result<Committed<S>, WebGetError> {
    if session.committed then Err(AlreadyCommitted)
    else if ParsePositive(input.total).None? then Err(InvalidTotal)
    else if ParseInteger(input.length).None? then Err(InvalidLength)
    else if input.sha256.None? || !IsHexHash(input.sha256.value) then Err(InvalidHash)
    else
      var total := ParsePositive(input.total).value;
      if total > MAX_CHUNK_COUNT then Err(TooManyChunks)
      else if |session.chunks| != total then Err(MissingChunks)
      else if !Contiguous(session.chunks, total) then Err(MissingChunks)
      else
        var decoded := Flatten(Ordered(session.chunks, total));
        if |decoded| > MAX_TOTAL_BYTES then Err(SubmissionTooLarge)
        else if |decoded| != ParseInteger(input.length).value then Err(InvalidLength)
        else if LowerCase(platform.sha256(decoded)) != LowerCase(input.sha256.value) then Err(InvalidHash)
        else if platform.secretBytes(decoded) then Err(UnsafeSubmission)
        else
          match platform.interpret(decoded)
          case Err(reason) => Err(InvalidPayload(reason))
          case Ok(submission) => Ok(Committed(submission, |decoded|, platform.sha256(decoded)))
  }

  // ---------- the store ----------

  type Sessions = map<string, Session>

  datatype Outcome<T> = Outcome(sessions: Sessions, result: Result<T, WebGetError>)

  predicate IsFirstUnused(sessions: Sessions, draws: nat -> string, k: nat) {
    draws(k) !in sessions && forall j :: 0 <= j < k ==> draws(j) in sessions
  }

  lemma {:induction false} FirstUnusedExists(sessions: Sessions, draws: nat -> string, k: nat)
    requires draws(k) !in sessions
    ensures exists i :: IsFirstUnused(sessions, draws, i)
    decreases k
  {
    if j: nat :| j < k && draws(j) !in sessions {
      FirstUnusedExists(sessions, draws, j);
    } else {
      assert IsFirstUnused(sessions, draws, k);
    }
  }

  function CreateIn(sessions: Sessions, scope: string, ttlMs: Option<int>, token: string, now: int): Outcome<()> {
    var ttl := if ttlMs.None? then DEFAULT_TTL_MS else ttlMs.value;
    if ttl <= 0 then Outcome(sessions, Err(InvalidTtl))
    else if !IsToken(token) then Outcome(sessions, Err(InvalidToken))
    else Outcome(sessions[token := Session(scope, now, now + ttl, false, [])], Ok(()))
  }

  /** Finding an expired session removes it. */
  function Active(sessions: Sessions, token: string, now: int): Outcome<Session> {
    if token !in sessions then Outcome(sessions, Err(InvalidToken))
    else if sessions[token].expiresAt <= now then Outcome(sessions - {token}, Err(ExpiredToken))
    else Outcome(sessions, Ok(sessions[token]))
  }

  function SubmitIn<S>(
      sessions: Sessions, token: string, input: ChunkInput, now: int, platform: Platform<S>): Outcome<(nat, nat)>
  {
    var found := Active(sessions, token, now);
    match found.result
    case Err(e) => Outcome(found.sessions, Err(e))
    case Ok(session) =>
      match Submit(session, input, platform)
      case Err(e) => Outcome(sessions, Err(e))
      case Ok(next) =>
        Outcome(sessions[token := next], Ok((ParsePositive(input.seqNo).value, ParsePositive(input.total).value)))
  }

  function CommitIn<S>(
      sessions: Sessions, token: string, input: CommitInput, now: int, platform: Platform<S>): Outcome<Committed<S>>
  {
    var found := Active(sessions, token, now);
    match found.result
    case Err(e) => Outcome(found.sessions, Err(e))
    case Ok(session) => Outcome(sessions, Commit(session, input, platform))
  }

  function FinalizeIn(sessions: Sessions, token: string): Sessions {
    if token in sessions then sessions[token := sessions[token].(committed := true)] else sessions
  }

  /** Fills one buffer with the chunks, one after the other. */
  method ConcatBytes(chunks: seq<seq<Byte>>) returns (result: array<Byte>)
    ensures result[..] == Flatten(chunks)
  {
    var totalLength := 0;
    for i := 0 to |chunks|
      invariant totalLength == |Flatten(chunks[..i])|
    {
      FlattenOneMore(chunks, i);
      totalLength := totalLength + |chunks[i]|;
    }
    assert chunks[..|chunks|] == chunks;
    result := new Byte[totalLength](_ => 0);
    var offset := 0;
    for i := 0 to |chunks|
      invariant offset == |Flatten(chunks[..i])| <= totalLength == result.Length
      invariant result[..offset] == Flatten(chunks[..i])
    {
      FlattenOneMore(chunks, i);
      FlattenFits(chunks, i + 1);
      forall k | 0 <= k < |chunks[i]| {
        result[offset + k] := chunks[i][k];
      }
      assert result[..offset + |chunks[i]|] == result[..offset] + chunks[i];
      offset := offset + |chunks[i]|;
    }
    assert result[..] == result[..offset];
  }

  lemma FlattenOneMore(parts: seq<seq<Byte>>, i: nat)
    requires i < |parts|
    ensures Flatten(parts[..i + 1]) == Flatten(parts[..i]) + parts[i]
  {
    assert parts[..i + 1][..i] == parts[..i];
  }

  lemma {:induction false} FlattenFits(parts: seq<seq<Byte>>, i: nat)
    requires i <= |parts|
    ensures |Flatten(parts[..i])| <= |Flatten(parts)|
    decreases |parts| - i
  {
    if i < |parts| {
      FlattenOneMore(parts, i);
      FlattenFits(parts, i + 1);
    } else {
      assert parts[..i] == parts;
    }
  }

  class SessionStore<Submission> {
    const platform: Platform<Submission>
    var sessions: Sessions

    constructor (platform: Platform<Submission>)
      ensures this.platform == platform && sessions == map[]
    {
      this.platform := platform;
      this.sessions := map[];
    }

    /** The generator is asked until it draws a token that is not in use; `unused` bounds how long that takes. */
    method CreateSession(scope: string, ttlMs: Option<int>, draws: nat -> string, ghost unused: nat, now: int)
      returns (r: Result<(), WebGetError>)
      requires draws(unused) !in sessions
      modifies this
      ensures exists k ::
        IsFirstUnused(old(sessions), draws, k)
        && Outcome(sessions, r) == CreateIn(old(sessions), scope, ttlMs, draws(k), now)
    {
      FirstUnusedExists(sessions, draws, unused);
      var ttl := if ttlMs.None? then DEFAULT_TTL_MS else ttlMs.value;
      if ttl <= 0 {
        return Err(InvalidTtl);
      }
      var k := 0;
      while draws(k) in sessions
        invariant forall j :: 0 <= j < k ==> draws(j) in sessions
        invariant k <= unused
        decreases unused - k
      {
        k := k + 1;
      }
      assert IsFirstUnused(sessions, draws, k);
      var token := draws(k);
      if !IsToken(token) {
        return Err(InvalidToken);
      }
      sessions := sessions[token := Session(scope, now, now + ttl, false, [])];
      return Ok(());
    }

    method GetActiveSession(token: string, now: int) returns (r: Result<Session, WebGetError>)
      modifies this
      ensures Outcome(sessions, r) == Active(old(sessions), token, now)
    {
      if token !in sessions {
        return Err(InvalidToken);
      }
      var session := sessions[token];
      if session.expiresAt <= now {
        sessions := sessions - {token};
        return Err(ExpiredToken);
      }
      return Ok(session);
    }

    method SubmitChunk(token: string, input: ChunkInput, now: int) returns (r: Result<(nat, nat), WebGetError>)
      modifies this
      ensures Outcome(sessions, r) == SubmitIn(old(sessions), token, input, now, platform)
    {
      var found := GetActiveSession(token, now);
      if found.Err? {
        return Err(found.error);
      }
      var session := found.value;
      if session.committed {
        return Err(AlreadyCommitted);
      }
      var read := ReadChunk(input, platform);
      if read.Err? {
        return Err(read.error);
      }
      var c := read.value;
      var existing := Find(session.chunks, c.seqNo);
      if existing.Some? {
        if existing.value.data != c.data || existing.value.total != c.total {
          return Err(DuplicateChunk);
        }
        assert old(sessions)[token := session] == old(sessions);
        return Ok((c.seqNo, c.total));
      }
      if |session.chunks| > 0 && session.chunks[0].total != c.total {
        return Err(InconsistentTotal);
      }
      var nextTotalBytes := TotalBytes(session.chunks) + |c.decoded|;
      if nextTotalBytes > MAX_TOTAL_BYTES {
        return Err(SubmissionTooLarge);
      }
      sessions := sessions[token := session.(chunks := session.chunks + [c])];
      return Ok((c.seqNo, c.total));
    }

    /** Collects the chunks by number, then checks length and hash before anything is interpreted. */
    method CommitSubmission(
        token: string, input: CommitInput, now: int)
      returns (r: Result<Committed<Submission>, WebGetError>)
      modifies this
      ensures Outcome(sessions, r) == CommitIn(old(sessions), token, input, now, platform)
    {
      hide Find, Flatten, LowerCase, IsHexHash, ParsePositive, ParseInteger;
      var found := GetActiveSession(token, now);
      if found.Err? {
        return Err(found.error);
      }
      var session := found.value;
      if session.committed {
        return Err(AlreadyCommitted);
      }
      var parsedTotal, parsedLength := ParsePositive(input.total), ParseInteger(input.length);
      if parsedTotal.None? {
        return Err(InvalidTotal);
      }
      if parsedLength.None? {
        return Err(InvalidLength);
      }
      if input.sha256.None? || !IsHexHash(input.sha256.value) {
        return Err(InvalidHash);
      }
      var total := parsedTotal.value;
      if total > MAX_CHUNK_COUNT {
        return Err(TooManyChunks);
      }
      if |session.chunks| != total {
        return Err(MissingChunks);
      }
      var parts: seq<seq<Byte>> := [];
      var seqNo := 1;
      while seqNo <= total
        invariant 1 <= seqNo <= total + 1
        invariant AllFound(session.chunks, seqNo - 1) && parts == Ordered(session.chunks, seqNo - 1)
        invariant forall k :: 1 <= k < seqNo ==> Find(session.chunks, k).value.total == total
      {
        var chunk := Find(session.chunks, seqNo);
        if chunk.None? || chunk.value.total != total {
          return Err(MissingChunks);
        }
        parts := parts + [chunk.value.decoded];
        seqNo := seqNo + 1;
      }
      var buffer := ConcatBytes(parts);
      var decoded := buffer[..];
      if |decoded| > MAX_TOTAL_BYTES {
        return Err(SubmissionTooLarge);
      }
      if |decoded| != parsedLength.value {
        return Err(InvalidLength);
      }
      var actualHash := platform.sha256(decoded);
      if LowerCase(actualHash) != LowerCase(input.sha256.value) {
        return Err(InvalidHash);
      }
      if platform.secretBytes(decoded) {
        return Err(UnsafeSubmission);
      }
      var parsed := platform.interpret(decoded);
      if parsed.Err? {
        return Err(InvalidPayload(parsed.error));
      }
      return Ok(Committed(parsed.value, |decoded|, actualHash));
    }

    method FinalizeCommittedSession(token: string)
      modifies this
      ensures sessions == FinalizeIn(old(sessions), token)
    {
      if token in sessions {
        sessions := sessions[token := sessions[token].(committed := true)];
      }
    }
  }

  // ---------- what holds of every reachable session ----------

  predicate Within(chunks: seq<StoredChunk>, n: nat) {
    forall c :: c in chunks ==> 1 <= c.seqNo <= n
  }

  predicate DistinctNumbers(chunks: seq<StoredChunk>) {
    chunks == [] ||
    (DistinctNumbers(chunks[..|chunks| - 1]) && Find(chunks[..|chunks| - 1], chunks[|chunks| - 1].seqNo).None?)
  }

  predicate ChunkOk(c: StoredChunk, total: nat) {
    && c.total == total
    && 1 <= c.seqNo <= total <= MAX_CHUNK_COUNT
    && 1 <= |c.decoded| <= MAX_CHUNK_BYTES
    && c.data == Encode(c.decoded)
  }

  predicate ChunksOk(chunks: seq<StoredChunk>) {
    && DistinctNumbers(chunks)
    && TotalBytes(chunks) <= MAX_TOTAL_BYTES
    && (chunks != [] ==> forall c :: c in chunks ==> ChunkOk(c, chunks[0].total))
  }

  lemma DataIsOk<S>(data: Option<string>, platform: Platform<S>)
    ensures var read := ReadData(data, platform);
      read.Ok? ==> 1 <= |read.value| <= MAX_CHUNK_BYTES && data == Some(Encode(read.value))
  {
    if ReadData(data, platform).Ok? {
      EncodeOfDecode(data.value);
    }
  }

  lemma ReadChunkIsOk<S>(input: ChunkInput, platform: Platform<S>)
    ensures var read := ReadChunk(input, platform);
      read.Ok? ==> ChunkOk(read.value, read.value.total)
  {
    hide ReadData, ParsePositive, Encode;
    DataIsOk(input.data, platform);
  }

  lemma AddOne(chunks: seq<StoredChunk>, c: StoredChunk)
    ensures TotalBytes(chunks + [c]) == TotalBytes(chunks) + |c.decoded|
    ensures DistinctNumbers(chunks + [c]) <==> DistinctNumbers(chunks) && Find(chunks, c.seqNo).None?
    ensures forall k :: Find(chunks + [c], k) == if c.seqNo == k then Some(c) else Find(chunks, k)
    ensures forall x :: x in chunks + [c] <==> x in chunks || x == c
  {
    assert (chunks + [c])[..|chunks|] == chunks;
  }

  lemma AddChunkKeepsLimits(chunks: seq<StoredChunk>, c: StoredChunk)
    requires ChunksOk(chunks) && ChunkOk(c, c.total)
    ensures var r := AddChunk(chunks, c);
      r.Ok? ==> ChunksOk(r.value) && chunks <= r.value
  {
    AddOne(chunks, c);
    assert chunks != [] ==> chunks[0] in chunks;
    assert chunks != [] ==> (chunks + [c])[0] == chunks[0];
  }

  /** A submission keeps the limits, and never changes or drops a stored chunk. */
  lemma {:induction false} SubmitKeepsLimits<S>(session: Session, input: ChunkInput, platform: Platform<S>)
    requires ChunksOk(session.chunks)
    ensures var r := Submit(session, input, platform);
      r.Ok? ==>
        && ChunksOk(r.value.chunks)
        && session.chunks <= r.value.chunks
        && r.value == session.(chunks := r.value.chunks)
  {
    hide ReadChunk, ChunkOk, ChunksOk, AddChunk;
    if Submit(session, input, platform).Ok? {
      ReadChunkIsOk(input, platform);
      AddChunkKeepsLimits(session.chunks, ReadChunk(input, platform).value);
    }
  }

  datatype Op =
    | Creates(token: string, scope: string, ttlMs: Option<int>, at: int)
    | Submits(token: string, chunk: ChunkInput, at: int)
    | Commits(token: string, commit: CommitInput, at: int)
    | Finalizes(token: string, at: int)

  function After<S>(sessions: Sessions, op: Op, platform: Platform<S>): Sessions {
    match op
    case Creates(token, scope, ttlMs, at) =>
      if token in sessions then sessions else CreateIn(sessions, scope, ttlMs, token, at).sessions
    case Submits(token, chunk, at) => SubmitIn(sessions, token, chunk, at, platform).sessions
    case Commits(token, commit, at) => CommitIn(sessions, token, commit, at, platform).sessions
    case Finalizes(token, _) => FinalizeIn(sessions, token)
  }

  function AfterAll<S>(sessions: Sessions, ops: seq<Op>, platform: Platform<S>): Sessions {
    if ops == [] then sessions else After(AfterAll(sessions, ops[..|ops| - 1], platform), ops[|ops| - 1], platform)
  }

  /** Every session of every reachable store is within the limits. */
  lemma {:induction false} ReachableSessionsAreWithinLimits<S>(ops: seq<Op>, platform: Platform<S>)
    ensures forall token :: token in AfterAll(map[], ops, platform) ==>
      ChunksOk(AfterAll(map[], ops, platform)[token].chunks)
    decreases |ops|
  {
    if ops != [] {
      var before := AfterAll(map[], ops[..|ops| - 1], platform);
      var op := ops[|ops| - 1];
      ReachableSessionsAreWithinLimits(ops[..|ops| - 1], platform);
      if op.Submits? && op.token in before && Submit(before[op.token], op.chunk, platform).Ok? {
        SubmitKeepsLimits(before[op.token], op.chunk, platform);
      }
    }
  }

  // ---------- counting chunks ----------

  /** Takes one chunk out of the list. */
  function Without(chunks: seq<StoredChunk>, seqNo: nat): seq<StoredChunk> {
    if chunks == [] then []
    else if chunks[|chunks| - 1].seqNo == seqNo then chunks[..|chunks| - 1]
    else Without(chunks[..|chunks| - 1], seqNo) + [chunks[|chunks| - 1]]
  }

  lemma {:induction false} WithoutFinds(chunks: seq<StoredChunk>, seqNo: nat)
    requires DistinctNumbers(chunks) && Find(chunks, seqNo).Some?
    ensures forall k :: Find(Without(chunks, seqNo), k) == if k == seqNo then None else Find(chunks, k)
    decreases |chunks|
  {
    var front, last := chunks[..|chunks| - 1], chunks[|chunks| - 1];
    assert chunks == front + [last];
    AddOne(front, last);
    if last.seqNo != seqNo {
      WithoutFinds(front, seqNo);
      AddOne(Without(front, seqNo), last);
    }
  }

  lemma {:induction false} WithoutOne(chunks: seq<StoredChunk>, seqNo: nat)
    requires DistinctNumbers(chunks) && Find(chunks, seqNo).Some?
    ensures DistinctNumbers(Without(chunks, seqNo))
    ensures |Without(chunks, seqNo)| == |chunks| - 1
    ensures TotalBytes(Without(chunks, seqNo)) == TotalBytes(chunks) - |Find(chunks, seqNo).value.decoded|
    decreases |chunks|
  {
    var front, last := chunks[..|chunks| - 1], chunks[|chunks| - 1];
    if last.seqNo != seqNo {
      WithoutOne(front, seqNo);
      WithoutFinds(front, seqNo);
      AddOne(Without(front, seqNo), last);
    }
  }

  lemma {:induction false} WithoutMembers(chunks: seq<StoredChunk>, seqNo: nat)
    requires DistinctNumbers(chunks) && Find(chunks, seqNo).Some?
    ensures forall x :: x in Without(chunks, seqNo) ==> x in chunks && x.seqNo != seqNo
    decreases |chunks|
  {
    var front, last := chunks[..|chunks| - 1], chunks[|chunks| - 1];
    assert chunks == front + [last];
    if last.seqNo != seqNo {
      WithoutMembers(front, seqNo);
    } else {
      NotFound(front, seqNo);
    }
  }

  /**
   * Chunks with different numbers in 1..n: there are at most n; if there are n, none is missing; if none is
   * missing, there are n, and together they are as long as the parts in order.
   */
  lemma {:induction false} Pigeonhole(chunks: seq<StoredChunk>, n: nat)
    requires DistinctNumbers(chunks) && Within(chunks, n)
    ensures |chunks| <= n
    ensures |chunks| == n <==> AllFound(chunks, n)
    ensures |chunks| == n ==> TotalBytes(chunks) == |Flatten(Ordered(chunks, n))|
    decreases n
  {
    if n == 0 {
      NoneWithinZero(chunks);
    } else if Find(chunks, n).None? {
      NotFound(chunks, n);
      Pigeonhole(chunks, n - 1);
    } else {
      var rest := Without(chunks, n);
      WithoutOne(chunks, n);
      WithoutMembers(chunks, n);
      Pigeonhole(rest, n - 1);
      if |chunks| == n {
        FoundWithout(chunks, n);
        SameOrdered(chunks, rest, n - 1);
        FlattenLast(Ordered(chunks, n - 1), Find(chunks, n).value.decoded);
      } else {
        FoundWithout(chunks, n);
      }
    }
  }

  lemma NoneWithinZero(chunks: seq<StoredChunk>)
    requires Within(chunks, 0)
    ensures chunks == []
  {
    FirstIsMember(chunks);
  }

  lemma FirstIsMember(chunks: seq<StoredChunk>)
    ensures chunks != [] ==> chunks[0] in chunks
  {
  }

  lemma {:induction false} NotFound(chunks: seq<StoredChunk>, seqNo: nat)
    requires Find(chunks, seqNo).None?
    ensures forall c :: c in chunks ==> c.seqNo != seqNo
    decreases |chunks|
  {
    if chunks != [] {
      NotFound(chunks[..|chunks| - 1], seqNo);
      assert chunks == chunks[..|chunks| - 1] + [chunks[|chunks| - 1]];
    }
  }

  lemma FoundWithout(chunks: seq<StoredChunk>, n: nat)
    requires n > 0 && DistinctNumbers(chunks) && Find(chunks, n).Some?
    ensures AllFound(chunks, n) <==> AllFound(Without(chunks, n), n - 1)
    ensures forall k :: 1 <= k < n ==> Find(chunks, k) == Find(Without(chunks, n), k)
  {
    WithoutFinds(chunks, n);
    var rest := Without(chunks, n);
    if AllFound(rest, n - 1) {
      forall k | 1 <= k <= n
        ensures Find(chunks, k).Some?
      {
        assert k < n ==> Find(chunks, k) == Find(rest, k);
      }
    }
  }

  lemma FlattenLast(parts: seq<seq<Byte>>, last: seq<Byte>)
    ensures Flatten(parts + [last]) == Flatten(parts) + last
  {
    assert (parts + [last])[..|parts|] == parts;
  }

  lemma {:induction false} SameOrdered(a: seq<StoredChunk>, b: seq<StoredChunk>, n: nat)
    requires AllFound(a, n) && forall k :: 1 <= k <= n ==> Find(a, k) == Find(b, k)
    ensures AllFound(b, n) && Ordered(a, n) == Ordered(b, n)
    decreases n
  {
    if n > 0 {
      SameOrdered(a, b, n - 1);
    }
  }

  /**
   * Within the limits, when as many chunks are stored as their common total says, they are contiguous, and
   * the commit's own size check cannot fail.
   */
  lemma {:induction false} FullSessionIsContiguous(chunks: seq<StoredChunk>, total: nat)
    requires ChunksOk(chunks) && chunks != [] && chunks[0].total == total && |chunks| == total
    ensures Contiguous(chunks, total)
    ensures |Flatten(Ordered(chunks, total))| <= MAX_TOTAL_BYTES
  {
    Pigeonhole(chunks, total);
  }

  // ---------- any order, any repeats ----------

  /** A payload cut into pieces within the limits. */
  predicate GoodPieces(pieces: seq<seq<Byte>>) {
    && 1 <= |pieces| <= MAX_CHUNK_COUNT
    && (forall i :: 0 <= i < |pieces| ==> 1 <= |pieces[i]| <= MAX_CHUNK_BYTES)
    && |Flatten(pieces)| <= MAX_TOTAL_BYTES
  }

  /** The texts the pieces travel as. */
  function Texts(pieces: seq<seq<Byte>>): seq<string> {
    seq(|pieces|, i requires 0 <= i < |pieces| => Encode(pieces[i]))
  }

  /** The request that carries piece k, past the safety checks. */
  predicate Carries<S>(input: ChunkInput, k: nat, pieces: seq<seq<Byte>>, texts: seq<string>, platform: Platform<S>) {
    && 1 <= k <= |pieces| == |texts|
    && input.encoding == Some("base64url")
    && ParsePositive(input.seqNo) == Some(k)
    && ParsePositive(input.total) == Some(|pieces|)
    && input.data == Some(texts[k - 1])
    && !platform.secretText(texts[k - 1])
    && !platform.secretBytes(pieces[k - 1])
  }

  function PieceChunk(k: nat, pieces: seq<seq<Byte>>, texts: seq<string>): StoredChunk
    requires 1 <= k <= |pieces| == |texts|
  {
    StoredChunk(k, |pieces|, texts[k - 1], pieces[k - 1])
  }

  /** The chunks stored so far are exactly pieces of the payload. */
  predicate StoresPieces(chunks: seq<StoredChunk>, pieces: seq<seq<Byte>>, texts: seq<string>) {
    && |pieces| == |texts|
    && DistinctNumbers(chunks)
    && forall c :: c in chunks ==> 1 <= c.seqNo <= |pieces| && c == PieceChunk(c.seqNo, pieces, texts)
  }

  lemma {:induction false} EncodedDataIsRead<S>(bytes: seq<Byte>, platform: Platform<S>)
    requires 1 <= |bytes| <= MAX_CHUNK_BYTES
    requires !platform.secretText(Encode(bytes)) && !platform.secretBytes(bytes)
    ensures ReadData(Some(Encode(bytes)), platform) == Ok(bytes)
  {
    DecodeOfEncode(bytes);
    EncodedText(bytes);
  }

  lemma TextIsRead<S>(pieces: seq<seq<Byte>>, k: nat, platform: Platform<S>)
    requires 1 <= k <= |pieces| && 1 <= |pieces[k - 1]| <= MAX_CHUNK_BYTES
    requires !platform.secretText(Texts(pieces)[k - 1]) && !platform.secretBytes(pieces[k - 1])
    ensures ReadData(Some(Texts(pieces)[k - 1]), platform) == Ok(pieces[k - 1])
  {
    EncodedDataIsRead(pieces[k - 1], platform);
  }

  lemma NumberedDataIsRead<S>(input: ChunkInput, k: nat, total: nat, bytes: seq<Byte>, platform: Platform<S>)
    requires k <= total <= MAX_CHUNK_COUNT && input.encoding == Some("base64url")
    requires input.data.Some?
    ensures (ParsePositive(input.seqNo) == Some(k) && ParsePositive(input.total) == Some(total)
             && ReadData(input.data, platform) == Ok(bytes)) ==>
              ReadChunk(input, platform) == Ok(StoredChunk(k, total, input.data.value, bytes))
  {
  }

  lemma {:induction false} StoredPiecesFit(chunks: seq<StoredChunk>, pieces: seq<seq<Byte>>, n: nat)
    requires n <= |pieces| && DistinctNumbers(chunks) && Within(chunks, n)
    requires forall c :: c in chunks ==> c.seqNo <= |pieces| && c.seqNo >= 1 && c.decoded == pieces[c.seqNo - 1]
    ensures TotalBytes(chunks) <= |Flatten(pieces[..n])|
    decreases n
  {
    if n == 0 {
      NoneWithinZero(chunks);
    } else {
      FlattenOneMore(pieces, n - 1);
      if Find(chunks, n).None? {
        NotFound(chunks, n);
        StoredPiecesFit(chunks, pieces, n - 1);
      } else {
        WithoutOne(chunks, n);
        WithoutMembers(chunks, n);
        StoredPiecesFit(Without(chunks, n), pieces, n - 1);
      }
    }
  }

  /** No piece is ever refused, however many are stored already and whether it was stored before. */
  lemma PieceIsAdded(chunks: seq<StoredChunk>, k: nat, pieces: seq<seq<Byte>>, texts: seq<string>)
    requires 1 <= k <= |pieces| && StoresPieces(chunks, pieces, texts) && |Flatten(pieces)| <= MAX_TOTAL_BYTES
    ensures var added := AddChunk(chunks, PieceChunk(k, pieces, texts));
      && added.Ok?
      && StoresPieces(added.value, pieces, texts)
      && forall j :: Find(added.value, j).Some? <==> j == k || Find(chunks, j).Some?
  {
    var c := PieceChunk(k, pieces, texts);
    AddOne(chunks, c);
    assert chunks != [] ==> chunks[0] in chunks;
    if Find(chunks, k).None? {
      StoredPiecesFit(chunks + [c], pieces, |pieces|);
      assert pieces[..|pieces|] == pieces;
    }
  }

  /** A submission of piece `k`, at a time. */
  datatype Sent = Sent(k: nat, input: ChunkInput, at: int)

  predicate GoodSends<S>(sent: seq<Sent>, pieces: seq<seq<Byte>>, expiresAt: int, platform: Platform<S>) {
    forall i :: 0 <= i < |sent| ==>
      Carries(sent[i].input, sent[i].k, pieces, Texts(pieces), platform) && sent[i].at < expiresAt
  }

  /** All requests in turn against the store; None if one is refused. */
  function SendAll<S>(sessions: Sessions, token: string, sent: seq<Sent>, platform: Platform<S>): Option<Sessions> {
    if sent == [] then Some(sessions)
    else
      match SendAll(sessions, token, sent[..|sent| - 1], platform)
      case None => None
      case Some(before) =>
        var last := sent[|sent| - 1];
        var out := SubmitIn(before, token, last.input, last.at, platform);
        if out.result.Err? then None else Some(out.sessions)
  }

  predicate WasSent(sent: seq<Sent>, k: nat) {
    exists i :: 0 <= i < |sent| && sent[i].k == k
  }

  /** A chunk that can be read and added is accepted, and only the session's chunks change. */
  lemma SubmitAdds<S>(
      before: Sessions, token: string, input: ChunkInput, at: int, platform: Platform<S>, c: StoredChunk)
    requires token in before && !before[token].committed && at < before[token].expiresAt
    requires AddChunk(before[token].chunks, c).Ok?
    ensures ReadChunk(input, platform) == Ok(c) ==>
      var out := SubmitIn(before, token, input, at, platform);
      out.result.Ok? && out.sessions == before[token := before[token].(chunks := AddChunk(before[token].chunks,
          c).value)]
  {
    hide ReadData, AddChunk;
  }

  /** One piece sent to a session that holds pieces only. */
  lemma SendStep<S>(before: Sessions, token: string, last: Sent, pieces: seq<seq<Byte>>, platform: Platform<S>)
    requires token in before && !before[token].committed && last.at < before[token].expiresAt
    requires GoodPieces(pieces) && StoresPieces(before[token].chunks, pieces, Texts(pieces))
    requires Carries(last.input, last.k, pieces, Texts(pieces), platform)
    ensures var out := SubmitIn(before, token, last.input, last.at, platform);
      && out.result.Ok? && token in out.sessions
      && out.sessions[token] == before[token].(chunks := out.sessions[token].chunks)
      && StoresPieces(out.sessions[token].chunks, pieces, Texts(pieces))
      && forall j :: Find(out.sessions[token].chunks, j).Some? <==> j == last.k || Find(before[token].chunks, j).Some?
  {
    hide ReadData, ReadChunk, SubmitIn, AddChunk, Find, StoresPieces, Flatten, Texts, ParsePositive, Encode;
    var texts := Texts(pieces);
    TextIsRead(pieces, last.k, platform);
    NumberedDataIsRead(last.input, last.k, |pieces|, pieces[last.k - 1], platform);
    PieceIsAdded(before[token].chunks, last.k, pieces, texts);
    SubmitAdds(before, token, last.input, last.at, platform, PieceChunk(last.k, pieces, texts));
  }

  /** Pieces sent in any order, with any repeats, before the session expires: none is refused. */
  lemma {:induction false} AnyOrderIsAccepted<S>(sessions: Sessions, token: string, sent: seq<Sent>,
                                                 pieces: seq<seq<Byte>>, platform: Platform<S>)
    requires token in sessions && sessions[token].chunks == [] && !sessions[token].committed
    requires GoodPieces(pieces) && GoodSends(sent, pieces, sessions[token].expiresAt, platform)
    ensures SendAll(sessions, token, sent, platform).Some?
    ensures var after := SendAll(sessions, token, sent, platform).value;
      && token in after
      && after[token] == sessions[token].(chunks := after[token].chunks)
      && StoresPieces(after[token].chunks, pieces, Texts(pieces))
      && forall k :: Find(after[token].chunks, k).Some? <==> WasSent(sent, k)
    decreases |sent|
  {
    if sent != [] {
      hide Carries, SubmitIn, WasSent, Find, StoresPieces, GoodPieces, Texts;
      var front, last := sent[..|sent| - 1], sent[|sent| - 1];
      AnyOrderIsAccepted(sessions, token, front, pieces, platform);
      var before := SendAll(sessions, token, front, platform).value;
      SendStep(before, token, last, pieces, platform);
      forall k
        ensures WasSent(sent, k) <==> k == last.k || WasSent(front, k)
      {
        WasSentOneMore(sent, k);
      }
    }
  }

  lemma WasSentOneMore(sent: seq<Sent>, k: nat)
    requires sent != []
    ensures WasSent(sent, k) <==> k == sent[|sent| - 1].k || WasSent(sent[..|sent| - 1], k)
  {
    var front := sent[..|sent| - 1];
    if WasSent(front, k) {
      var i :| 0 <= i < |front| && front[i].k == k;
      assert sent[i].k == k;
    }
    if WasSent(sent, k) && k != sent[|sent| - 1].k {
      var i :| 0 <= i < |sent| && sent[i].k == k;
      assert front[i].k == k;
    }
  }

  lemma {:induction false} OrderedPieces(chunks: seq<StoredChunk>, pieces: seq<seq<Byte>>, texts: seq<string>, n: nat)
    requires n <= |pieces| && AllFound(chunks, n) && StoresPieces(chunks, pieces, texts)
    ensures Ordered(chunks, n) == pieces[..n]
    decreases n
  {
    if n > 0 {
      OrderedPieces(chunks, pieces, texts, n - 1);
      assert Find(chunks, n).value == PieceChunk(n, pieces, texts);
      assert pieces[..n] == pieces[..n - 1] + [pieces[n - 1]];
    }
  }

  lemma {:induction false} AllPiecesAssemble(chunks: seq<StoredChunk>, pieces: seq<seq<Byte>>, texts: seq<string>)
    requires StoresPieces(chunks, pieces, texts) && AllFound(chunks, |pieces|)
    ensures |chunks| == |pieces| && Contiguous(chunks, |pieces|)
    ensures Ordered(chunks, |pieces|) == pieces
  {
    Pigeonhole(chunks, |pieces|);
    OrderedPieces(chunks, pieces, texts, |pieces|);
    assert pieces[..|pieces|] == pieces;
  }

  /** A commit request with the right total, length and hash for a payload, past the safety check. */
  predicate Matches<S>(commit: CommitInput, pieces: seq<seq<Byte>>, platform: Platform<S>) {
    var payload := Flatten(pieces);
    && ParsePositive(commit.total) == Some(|pieces|)
    && ParseInteger(commit.length) == Some(|payload|)
    && commit.sha256.Some? && IsHexHash(commit.sha256.value)
    && LowerCase(commit.sha256.value) == LowerCase(platform.sha256(payload))
    && !platform.secretBytes(payload)
  }

  function Interpreted<S>(payload: seq<Byte>, platform: Platform<S>): Result<Committed<S>, WebGetError> {
    match platform.interpret(payload)
    case Ok(submission) => Ok(Committed(submission, |payload|, platform.sha256(payload)))
    case Err(reason) => Err(InvalidPayload(reason))
  }

  lemma FullSessionCommits<S>(session: Session, pieces: seq<seq<Byte>>, commit: CommitInput, platform: Platform<S>)
    requires GoodPieces(pieces) && Matches(commit, pieces, platform) && !session.committed
    requires |session.chunks| == |pieces| && Contiguous(session.chunks, |pieces|)
    requires Ordered(session.chunks, |pieces|) == pieces
    ensures Commit(session, commit, platform) == Interpreted(Flatten(pieces), platform)
  {
    hide Flatten, LowerCase, IsHexHash, ParsePositive, ParseInteger, Find;
  }

  /**
   * The whole round trip: once every piece has been sent, in any order and with any repeats, a commit with
   * the right total, length and hash hands exactly the payload to the reader of submissions.
   */
  lemma {:induction false} CommitReassemblesThePayload<S>(
      sessions: Sessions, token: string, sent: seq<Sent>, pieces: seq<seq<Byte>>,
                                       commit: CommitInput, at: int, platform: Platform<S>)
    requires token in sessions && sessions[token].chunks == [] && !sessions[token].committed
    requires GoodPieces(pieces) && GoodSends(sent, pieces, sessions[token].expiresAt, platform)
    requires forall k :: 1 <= k <= |pieces| ==> WasSent(sent, k)
    requires Matches(commit, pieces, platform) && at < sessions[token].expiresAt
    ensures SendAll(sessions, token, sent, platform).Some?
    ensures CommitIn(SendAll(sessions, token, sent, platform).value, token, commit, at, platform).result
         == Interpreted(Flatten(pieces), platform)
  {
    AnyOrderIsAccepted(sessions, token, sent, pieces, platform);
    var session := SendAll(sessions, token, sent, platform).value[token];
    AllPiecesAssemble(session.chunks, pieces, Texts(pieces));
    FullSessionCommits(session, pieces, commit, platform);
  }
}
