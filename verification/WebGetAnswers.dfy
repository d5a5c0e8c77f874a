/** What the chunked submission store answers, case by case: which request is refused with which error, and when not. */
module WebGetAnswers {
  import opened Text
  import opened Base64Url
  import opened WebGet
  import opened Checks

  // ---------- numbers ----------

  function Digit(d: nat): char
    requires d < 10
  {
    "0123456789"[d]
  }

  /** A number in decimal digits. */
  function Decimal(n: nat): string {
    if n < 10 then [Digit(n)] else Decimal(n / 10) + [Digit(n % 10)]
  }

  predicate AllDigits(s: string) {
    forall i :: 0 <= i < |s| ==> '0' <= s[i] <= '9'
  }

  lemma DigitIsDigit(d: nat)
    requires d < 10
    ensures '0' <= Digit(d) <= '9' && Digit(d) as int - '0' as int == d
  {
  }

  lemma OneMoreDigit(s: string, c: char)
    requires AllDigits(s) && '0' <= c <= '9'
    ensures AllDigits(s + [c]) && DecimalValue(s + [c]) == 10 * DecimalValue(s) + (c as int - '0' as int)
  {
    assert (s + [c])[..|s|] == s;
  }

  lemma NoDigits()
    ensures AllDigits("") && DecimalValue("") == 0
  {
  }

  lemma {:induction false} DecimalIsDigits(n: nat)
    ensures AllDigits(Decimal(n)) && Decimal(n) != "" && DecimalValue(Decimal(n)) == n
    decreases n
  {
    hide DecimalValue, Digit, AllDigits;
    DigitIsDigit(n % 10);
    if n >= 10 {
      DecimalIsDigits(n / 10);
      OneMoreDigit(Decimal(n / 10), Digit(n % 10));
    } else {
      NoDigits();
      OneMoreDigit("", Digit(n));
      assert "" + [Digit(n)] == [Digit(n)];
    }
  }

  lemma {:induction false} ZeroInFront(s: string)
    requires forall i :: 0 <= i < |s| ==> '0' <= s[i] <= '9'
    ensures DecimalValue("0" + s) == DecimalValue(s)
    decreases |s|
  {
    var t := "0" + s;
    if s == "" {
      assert t[..0] == "";
    } else {
      assert t[..|t| - 1] == "0" + s[..|s| - 1];
      ZeroInFront(s[..|s| - 1]);
    }
  }

  lemma ZeroIsDigit(s: string)
    requires AllDigits(s)
    ensures AllDigits("0" + s)
  {
  }

  /** The digits of every safe number are read as that number, zeros in front or not, and nothing else is read. */
  lemma {:induction false} NumbersAreRead(n: nat, s: string)
    ensures ParseInteger(Some(Decimal(n))) == if n <= 9007199254740991 then Some(n) else None
    ensures ParsePositive(Some(Decimal(n))) == if 1 <= n <= 9007199254740991 then Some(n) else None
    ensures s != "" && AllDigits(s) ==> ParseInteger(Some("0" + s)) == ParseInteger(Some(s))
    ensures s == "" || !AllDigits(s) ==> ParseInteger(Some(s)) == None
    ensures ParseInteger(None) == None
  {
    hide Decimal, DecimalValue;
    DecimalIsDigits(n);
    if s != "" && AllDigits(s) {
      ZeroIsDigit(s);
      ZeroInFront(s);
    }
  }

  // ---------- making and finding a session ----------

  /** All sessions but one are as they were. */
  predicate OthersStay(before: Sessions, after: Sessions, token: string) {
    before - {token} == after - {token}
  }

  /** A session is found under its token until its time is over; the request that finds it over removes it. */
  lemma {:induction false} FindingAnswers(sessions: Sessions, token: string, now: int)
    ensures var r := Active(sessions, token, now);
      && (r.result == Err(InvalidToken) <==> token !in sessions)
      && (r.result == Err(ExpiredToken) <==> token in sessions && sessions[token].expiresAt <= now)
      && (r.result.Ok? <==> token in sessions && now < sessions[token].expiresAt)
      && (r.result.Ok? ==> r.result.value == sessions[token] && r.sessions == sessions)
      && (token !in sessions ==> r.sessions == sessions)
      && (r.result == Err(ExpiredToken) ==> token !in r.sessions)
      && OthersStay(sessions, r.sessions, token)
  {
  }

  /**
   * A new session needs a positive time to live and a well-formed token. It is empty and open, and can be found for
   * exactly the time to live asked for, or ten minutes when none was.
   */
  lemma {:induction false} CreatingAnswers(
      sessions: Sessions, scope: string, ttlMs: Option<int>, token: string, now: int, later: int)
    ensures var r := CreateIn(sessions, scope, ttlMs, token, now);
      && (r.result == Err(InvalidTtl) <==> ttlMs.Some? && ttlMs.value <= 0)
      && (r.result == Err(InvalidToken) <==> !(ttlMs.Some? && ttlMs.value <= 0) && !WellFormed(token))
      && (r.result.Ok? <==> (ttlMs.Some? ==> ttlMs.value > 0) && WellFormed(token))
      && (r.result.Err? ==> r.sessions == sessions)
      && (r.result.Ok? ==>
            && OthersStay(sessions, r.sessions, token)
            && (Active(r.sessions, token, later).result.Ok? <==>
                  later < now + if ttlMs.Some? then ttlMs.value else 600000)
            && token in r.sessions
            && r.sessions[token].scope == scope && r.sessions[token].createdAt == now
            && !r.sessions[token].committed && r.sessions[token].chunks == [])
  {
    TokensAreWellFormed(token);
  }

  // ---------- submitting a chunk ----------

  /** A stored chunk has this number. */
  predicate Stored(chunks: seq<StoredChunk>, seqNo: nat) {
    exists c :: c in chunks && c.seqNo == seqNo
  }

  lemma {:induction false} FindIsStored(chunks: seq<StoredChunk>, seqNo: nat)
    ensures Find(chunks, seqNo).Some? <==> Stored(chunks, seqNo)
    decreases |chunks|
  {
    if Find(chunks, seqNo).None? {
      NotFound(chunks, seqNo);
    }
  }

  lemma {:induction false} StoredIsFound(chunks: seq<StoredChunk>, c: StoredChunk)
    requires DistinctNumbers(chunks) && c in chunks
    ensures Find(chunks, c.seqNo) == Some(c)
    decreases |chunks|
  {
    var front, last := chunks[..|chunks| - 1], chunks[|chunks| - 1];
    assert chunks == front + [last];
    if c in front {
      StoredIsFound(front, c);
    }
  }

  /** Why a request for a session is refused, in the order of the checks. */
  function SessionChecks(sessions: Sessions, token: string, now: int): seq<(bool, WebGetError)> {
    [(token !in sessions, InvalidToken),
     (token in sessions && sessions[token].expiresAt <= now, ExpiredToken),
     (token in sessions && sessions[token].committed, AlreadyCommitted)]
  }

  /** Why a chunk is refused by its text alone. */
  function ChunkChecks<S>(input: ChunkInput, platform: Platform<S>): seq<(bool, WebGetError)> {
    var n, total := ParsePositive(input.seqNo), ParsePositive(input.total);
    [(input.encoding != Some("base64url"), InvalidEncoding),
     (n.None?, InvalidSeq),
     (total.None?, InvalidTotal),
     (n.Some? && total.Some? && n.value > total.value, InvalidSequence),
     (total.Some? && total.value > 64, TooManyChunks)]
  }

  /** Why its data is refused. */
  function DataChecks<S>(data: Option<string>, platform: Platform<S>): seq<(bool, WebGetError)> {
    var text := if data.Some? then data.value else "";
    var bytes := if InAlphabet(text) then DecodeBase64Url(text) else Ok([]);
    [(text == "" || !TokenChars(text), InvalidData),
     (platform.secretText(text), UnsafeQuery),
     (bytes.Err?, InvalidData),
     (bytes.Ok? && |bytes.value| > 16384, ChunkTooLarge),
     (bytes.Ok? && platform.secretBytes(bytes.value), UnsafeSubmission)]
  }

  /** Why a readable chunk is refused by what is stored already. */
  function StoreChecks(chunks: seq<StoredChunk>, c: StoredChunk): seq<(bool, WebGetError)> {
    [(exists x :: x in chunks && x.seqNo == c.seqNo && (x.data != c.data || x.total != c.total), DuplicateChunk),
     (!Stored(chunks, c.seqNo) && exists x :: x in chunks && x.total != c.total, InconsistentTotal),
     (!Stored(chunks, c.seqNo) && TotalBytes(chunks) + |c.decoded| > 262144, SubmissionTooLarge)]
  }

  lemma {:induction false} DataAnswers<S>(data: Option<string>, platform: Platform<S>)
    ensures ReadData(data, platform).Err? <==> FirstOf(DataChecks(data, platform)).Some?
    ensures ReadData(data, platform).Err? ==>
      Some(ReadData(data, platform).error) == FirstOf(DataChecks(data, platform))
    ensures ReadData(data, platform).Ok? ==> data.Some? && Encode(ReadData(data, platform).value) == data.value
  {
    hide DecodeBase64Url, Encode;
    var text := if data.Some? then data.value else "";
    var t := DataChecks(data, platform);
    TokensAreWellFormed(text);
    FirstOfFive(t[0], t[1], t[2], t[3], t[4]);
    FirstOfThree(t[2], t[3], t[4]);
    assert t == [t[0], t[1], t[2], t[3], t[4]];
    if InAlphabet(text) && DecodeBase64Url(text).Ok? {
      EncodeOfDecode(text);
    }
  }

  lemma {:induction false} ChunkAnswers<S>(input: ChunkInput, platform: Platform<S>)
    ensures var checks := ChunkChecks(input, platform) + DataChecks(input.data, platform);
      && (ReadChunk(input, platform).Err? <==> FirstOf(checks).Some?)
      && (ReadChunk(input, platform).Err? ==> Some(ReadChunk(input, platform).error) == FirstOf(checks))
    ensures ReadChunk(input, platform).Ok? ==>
      var c := ReadChunk(input, platform).value;
      && Some(c.seqNo) == ParsePositive(input.seqNo) && Some(c.total) == ParsePositive(input.total)
      && Some(c.data) == input.data && Encode(c.decoded) == c.data
  {
    hide ParsePositive, ReadData, DataChecks, Encode;
    var t := ChunkChecks(input, platform);
    DataAnswers(input.data, platform);
    FirstOfConcat(t, DataChecks(input.data, platform));
    FirstOfFive(t[0], t[1], t[2], t[3], t[4]);
    FirstOfThree(t[2], t[3], t[4]);
    assert t == [t[0], t[1], t[2], t[3], t[4]];
  }

  lemma {:induction false} StoreAnswers(chunks: seq<StoredChunk>, c: StoredChunk)
    requires ChunksOk(chunks)
    ensures var r, first := AddChunk(chunks, c), FirstOf(StoreChecks(chunks, c));
      && (r.Err? <==> first.Some?) && (r.Err? ==> Some(r.error) == first)
      && (r.Ok? ==> r.value == if Stored(chunks, c.seqNo) then chunks else chunks + [c])
  {
    hide TotalBytes, DistinctNumbers;
    var t := StoreChecks(chunks, c);
    FirstOfThree(t[0], t[1], t[2]);
    assert t == [t[0], t[1], t[2]];
    FindIsStored(chunks, c.seqNo);
    forall x | x in chunks
      ensures Find(chunks, x.seqNo) == Some(x) && x.total == chunks[0].total && chunks[0] in chunks
    {
      StoredIsFound(chunks, x);
      FirstIsMember(chunks);
    }
  }

  /** Why a submission is refused, in the order of the checks. */
  function SubmitChecks<S>(
      sessions: Sessions, token: string, input: ChunkInput, now: int, decoded: seq<Byte>, platform: Platform<S>)
      : seq<(bool, WebGetError)>
  {
    var read := SessionChecks(sessions, token, now) + ChunkChecks(input, platform) + DataChecks(input.data, platform);
    if token !in sessions || ParsePositive(input.seqNo).None? || ParsePositive(input.total).None? || input.data.None?
    then read
    else
      read + StoreChecks(sessions[token].chunks, StoredChunk(ParsePositive(input.seqNo).value,
                                                             ParsePositive(input.total).value, input.data.value,
                                                                 decoded))
  }

  /**
   * A submission is refused exactly when a check fails, with the error of the first that does, and then nothing
   * changes but that an expired session goes. Otherwise its number and total are confirmed; a chunk stored already
   * stays as it is, a new one is stored behind the others with the bytes its data encodes.
   */
  lemma {:induction false} SubmittingAnswers<S>(
      sessions: Sessions, token: string, input: ChunkInput, now: int, decoded: seq<Byte>, platform: Platform<S>)
    requires token in sessions ==> ChunksOk(sessions[token].chunks)
    requires input.data.Some? ==> (exists b :: Encode(b) == input.data.value) ==> Encode(decoded) == input.data.value
    ensures var r := SubmitIn(sessions, token, input, now, platform);
      var refusal := FirstOf(SubmitChecks(sessions, token, input, now, decoded, platform));
      && (r.result.Err? <==> refusal.Some?) && (r.result.Err? ==> Some(r.result.error) == refusal)
      && (r.result.Err? ==>
            r.sessions == if Active(sessions, token, now).result == Err(ExpiredToken) then sessions - {token}
                else sessions)
      && (r.result.Ok? ==>
            && Some(r.result.value.0) == ParsePositive(input.seqNo)
            && Some(r.result.value.1) == ParsePositive(input.total)
            && OthersStay(sessions, r.sessions, token)
            && token in r.sessions
            && var old_ := sessions[token].chunks;
               var c := StoredChunk(r.result.value.0, r.result.value.1, input.data.value, decoded);
               r.sessions[token] ==
                 sessions[token].(chunks := if Stored(old_, r.result.value.0) then old_ else old_ + [c]))
  {
    hide ParsePositive, ReadChunk, AddChunk, Encode, ChunksOk, StoreChecks, DataChecks, ChunkChecks, Stored;
    var t := SessionChecks(sessions, token, now);
    var u := ChunkChecks(input, platform) + DataChecks(input.data, platform);
    FirstOfThree(t[0], t[1], t[2]);
    assert t == [t[0], t[1], t[2]];
    ChunkAnswers(input, platform);
    FirstOfConcat(t, u);
    assert t + u == t + ChunkChecks(input, platform) + DataChecks(input.data, platform);
    if token in sessions {
      var read := ReadChunk(input, platform);
      if ParsePositive(input.seqNo).Some? && ParsePositive(input.total).Some? && input.data.Some? {
        var c := StoredChunk(ParsePositive(input.seqNo).value, ParsePositive(input.total).value, input.data.value,
                             decoded);
        FirstOfConcat(t + u, StoreChecks(sessions[token].chunks, c));
        StoreAnswers(sessions[token].chunks, c);
        if read.Ok? {
          SameBytes(read.value.decoded, decoded, input.data.value);
        }
      }
    }
  }

  lemma SameBytes(a: seq<Byte>, b: seq<Byte>, text: string)
    requires Encode(a) == text && Encode(b) == text
    ensures a == b
  {
    hide Encode;
    DecodeOfEncode(a);
    DecodeOfEncode(b);
  }

  // ---------- committing ----------

  /** The chunks are numbered 1 to `total`, each there with that total, and there is no other. */
  predicate AllStored(chunks: seq<StoredChunk>, total: nat) {
    && (forall c :: c in chunks ==> 1 <= c.seqNo <= total && c.total == total)
    && (forall k :: 1 <= k <= total ==> Stored(chunks, k))
  }

  /** The bytes of each chunk, in the place its number gives. */
  predicate AreParts(parts: seq<seq<Byte>>, chunks: seq<StoredChunk>, total: nat) {
    |parts| == total && forall c :: c in chunks ==> 1 <= c.seqNo <= total && parts[c.seqNo - 1] == c.decoded
  }

  /** One letter of a hash, small or capital. */
  predicate SameLetter(x: char, y: char) {
    x == y || ('A' <= x <= 'Z' && y as int - x as int == 32) || ('A' <= y <= 'Z' && x as int - y as int == 32)
  }

  predicate SameHash(a: string, b: string) {
    |a| == |b| && forall i :: 0 <= i < |a| ==> SameLetter(a[i], b[i])
  }

  lemma {:induction false} LowerCaseIsSame(a: string, b: string)
    ensures LowerCase(a) == LowerCase(b) <==> SameHash(a, b)
  {
    var x, y := LowerCase(a), LowerCase(b);
    assert |x| == |a| && |y| == |b|;
    if x == y {
      forall i | 0 <= i < |a|
        ensures SameLetter(a[i], b[i])
      {
        assert x[i] == y[i];
      }
    }
    if SameHash(a, b) {
      forall i | 0 <= i < |a|
        ensures x[i] == y[i]
      {
        assert SameLetter(a[i], b[i]);
      }
      assert x == y;
    }
  }

  lemma {:induction false} AllStoredIff(chunks: seq<StoredChunk>, total: nat)
    requires DistinctNumbers(chunks) && total > 0
    ensures AllStored(chunks, total) <==> |chunks| == total && Contiguous(chunks, total)
  {
    hide DistinctNumbers;
    forall k: nat
      ensures Find(chunks, k).Some? <==> Stored(chunks, k)
    {
      FindIsStored(chunks, k);
    }
    forall c | c in chunks
      ensures Find(chunks, c.seqNo) == Some(c)
    {
      StoredIsFound(chunks, c);
    }
    if AllStored(chunks, total) {
      Pigeonhole(chunks, total);
    } else if |chunks| == total && Contiguous(chunks, total) {
      OnlyTheNumbered(chunks, total);
    }
  }

  /** With as many chunks as numbers, and every number there, no chunk has another number. */
  lemma {:induction false} OnlyTheNumbered(chunks: seq<StoredChunk>, total: nat)
    requires DistinctNumbers(chunks) && |chunks| <= total && forall k :: 1 <= k <= total ==> Find(chunks, k).Some?
    ensures forall c :: c in chunks ==> 1 <= c.seqNo <= total
    decreases total
  {
    if total == 0 {
      assert chunks == [];
    } else {
      var rest := Without(chunks, total);
      WithoutOne(chunks, total);
      WithoutFinds(chunks, total);
      OnlyTheNumbered(rest, total - 1);
      forall c | c in chunks
        ensures 1 <= c.seqNo <= total
      {
        StoredIsFound(chunks, c);
        if c.seqNo != total {
          assert Find(rest, c.seqNo) == Some(c);
        }
      }
    }
  }

  lemma {:induction false} PartsAreOrdered(chunks: seq<StoredChunk>, parts: seq<seq<Byte>>, total: nat, n: nat)
    requires AreParts(parts, chunks, total) && n <= total && AllFound(chunks, n)
    ensures Ordered(chunks, n) == parts[..n]
    decreases n
  {
    if n > 0 {
      PartsAreOrdered(chunks, parts, total, n - 1);
      assert parts[..n] == parts[..n - 1] + [parts[n - 1]];
    }
  }

  /** Why a commit is refused by what the request says. */
  function RequestChecks(input: CommitInput): seq<(bool, WebGetError)> {
    var total := ParsePositive(input.total);
    [(total.None?, InvalidTotal),
     (ParseInteger(input.length).None?, InvalidLength),
     (input.sha256.None? || !(|input.sha256.value| == 64 && HexDigits(input.sha256.value)), InvalidHash),
     (total.Some? && total.value > 64, TooManyChunks)]
  }

  predicate HexDigits(s: string) {
    forall i :: 0 <= i < |s| ==> '0' <= s[i] <= '9' || 'a' <= s[i] <= 'f' || 'A' <= s[i] <= 'F'
  }

  /** Why a complete payload is refused. */
  function PayloadChecks<S>(input: CommitInput, payload: seq<Byte>, platform: Platform<S>): seq<(bool, WebGetError)> {
    var reason := match platform.interpret(payload) case Ok(_) => "" case Err(reason) => reason;
    [(Some(|payload|) != ParseInteger(input.length), InvalidLength),
     (input.sha256.None? || !SameHash(platform.sha256(payload), input.sha256.value), InvalidHash),
     (platform.secretBytes(payload), UnsafeSubmission),
     (platform.interpret(payload).Err?, InvalidPayload(reason))]
  }

  /** Why a commit is refused by the request and the stored chunks; `payload` is their bytes in order. */
  function ChunksChecks<S>(
      chunks: seq<StoredChunk>, input: CommitInput, payload: seq<Byte>, platform: Platform<S>)
      : seq<(bool, WebGetError)>
  {
    var total := ParsePositive(input.total);
    var missing := (total.Some? && !AllStored(chunks, total.value), MissingChunks);
    RequestChecks(input) + ([missing] + PayloadChecks(input, payload, platform))
  }

  /** Why a commit is refused, in the order of the checks. */
  function CommitChecks<S>(
      sessions: Sessions, token: string, input: CommitInput, now: int, payload: seq<Byte>, platform: Platform<S>)
      : seq<(bool, WebGetError)>
  {
    SessionChecks(sessions, token, now)
    + if token in sessions then ChunksChecks(sessions[token].chunks, input, payload, platform) else []
  }

  /** The stored bytes in order, when they are complete. */
  lemma {:induction false} CompletePayload(chunks: seq<StoredChunk>, parts: seq<seq<Byte>>, total: nat)
    requires ChunksOk(chunks) && total > 0 && AllStored(chunks, total) && AreParts(parts, chunks, total)
    ensures |chunks| == total && Contiguous(chunks, total) && Ordered(chunks, total) == parts
    ensures |Flatten(parts)| <= 262144
  {
    AllStoredIff(chunks, total);
    PartsAreOrdered(chunks, parts, total, total);
    assert parts[..total] == parts;
    FirstIsMember(chunks);
    FullSessionIsContiguous(chunks, total);
  }

  /** One session's commit against the checks. */
  lemma {:induction false} CommitAnswers<S>(
      session: Session, input: CommitInput, parts: seq<seq<Byte>>, platform: Platform<S>)
    requires ChunksOk(session.chunks) && !session.committed
    requires var total := ParsePositive(input.total);
      total.Some? && AllStored(session.chunks, total.value) ==> AreParts(parts, session.chunks, total.value)
    ensures var payload := Flatten(parts);
      var refusal := FirstOf(ChunksChecks(session.chunks, input, payload, platform));
      var r := Commit(session, input, platform);
      && (r.Err? <==> refusal.Some?) && (r.Err? ==> Some(r.error) == refusal)
      && (r.Ok? ==> platform.interpret(payload) == Ok(r.value.submission)
                    && r.value.decodedLength == |payload| && r.value.sha256 == platform.sha256(payload))
  {
    hide ParsePositive, ParseInteger, ChunksOk, AllStored, AreParts, Flatten, LowerCase, SameHash, Find, Contiguous;
    var total, payload := ParsePositive(input.total), Flatten(parts);
    var missing := [(total.Some? && !AllStored(session.chunks, total.value), MissingChunks)];
    var t, u := RequestChecks(input), PayloadChecks(input, payload, platform);
    FourChecks(t);
    FourChecks(u);
    FirstOfOne(missing[0]);
    FirstOfConcat(t, missing + u);
    FirstOfConcat(missing, u);
    if total.Some? {
      ChunksAreDistinct(session.chunks);
      AllStoredIff(session.chunks, total.value);
      if AllStored(session.chunks, total.value) {
        CompletePayload(session.chunks, parts, total.value);
        if input.sha256.Some? {
          LowerCaseIsSame(platform.sha256(payload), input.sha256.value);
        }
      }
    }
  }

  lemma OnlyOnce<S>(session: Session, input: CommitInput, platform: Platform<S>)
    requires session.committed
    ensures Commit(session, input, platform) == Err(AlreadyCommitted)
  {
  }

  lemma ChunksAreDistinct(chunks: seq<StoredChunk>)
    requires ChunksOk(chunks)
    ensures DistinctNumbers(chunks)
  {
  }

  /**
   * A commit is refused exactly when a check fails, with the error of the first that does; what is committed is the
   * reading of the stored bytes in the order of their numbers, with their length and hash. A commit leaves the store
   * as it was, but that an expired session goes.
   */
  lemma {:induction false} CommittingAnswers<S>(
      sessions: Sessions, token: string, input: CommitInput, now: int, parts: seq<seq<Byte>>, platform: Platform<S>)
    requires token in sessions ==>
      && ChunksOk(sessions[token].chunks)
      && var total := ParsePositive(input.total);
         total.Some? && AllStored(sessions[token].chunks, total.value) ==>
           AreParts(parts, sessions[token].chunks, total.value)
    ensures var payload := Flatten(parts);
      var r := CommitIn(sessions, token, input, now, platform);
      var refusal := FirstOf(CommitChecks(sessions, token, input, now, payload, platform));
      && (r.result.Err? <==> refusal.Some?) && (r.result.Err? ==> Some(r.result.error) == refusal)
      && (r.result.Ok? ==>
            && platform.interpret(payload) == Ok(r.result.value.submission)
            && r.result.value.decodedLength == |payload| && r.result.value.sha256 == platform.sha256(payload))
      && r.sessions == if token in sessions && sessions[token].expiresAt <= now then sessions - {token} else sessions
  {
    hide ParsePositive, ChunksOk, AllStored, AreParts, Commit, ChunksChecks, Flatten;
    var t, payload := SessionChecks(sessions, token, now), Flatten(parts);
    FirstOfThree(t[0], t[1], t[2]);
    assert t == [t[0], t[1], t[2]];
    if token in sessions {
      FirstOfConcat(t, ChunksChecks(sessions[token].chunks, input, payload, platform));
      if !sessions[token].committed {
        CommitAnswers(sessions[token], input, parts, platform);
      } else {
        OnlyOnce(sessions[token], input, platform);
      }
    } else {
      FirstOfConcat(t, []);
    }
  }

  // ---------- whole submissions ----------

  lemma {:induction false} PiecesAreOk(chunks: seq<StoredChunk>, pieces: seq<seq<Byte>>)
    requires GoodPieces(pieces) && StoresPieces(chunks, pieces, Texts(pieces))
    ensures ChunksOk(chunks) && AreParts(pieces, chunks, |pieces|)
    ensures forall total: nat :: total > 0 && AllStored(chunks, total) ==> total == |pieces|
  {
    hide Flatten, Find, TotalBytes, DistinctNumbers, Encode;
    StoredPiecesFit(chunks, pieces, |pieces|);
    assert pieces[..|pieces|] == pieces;
    FirstIsMember(chunks);
    forall c | c in chunks
      ensures ChunkOk(c, |pieces|)
    {
      assert c == PieceChunk(c.seqNo, pieces, Texts(pieces));
    }
    forall total: nat | total > 0 && AllStored(chunks, total)
      ensures total == |pieces|
    {
      assert Stored(chunks, 1);
    }
  }

  /**
   * After any pieces of a payload have been sent, in any order and with any repeats, a commit succeeds exactly when
   * every piece was sent, the request gives their number, the payload's length and its hash, capitals or not, and
   * the payload passes the safety check and the reader. Then it is the reading of the payload.
   */
  lemma {:induction false} CommitSucceedsIff<S>(
      sessions: Sessions, token: string, sent: seq<Sent>, pieces: seq<seq<Byte>>, input: CommitInput, at: int,
      platform: Platform<S>)
    requires token in sessions && sessions[token].chunks == [] && !sessions[token].committed
    requires GoodPieces(pieces) && GoodSends(sent, pieces, sessions[token].expiresAt, platform)
    requires at < sessions[token].expiresAt
    ensures SendAll(sessions, token, sent, platform).Some?
    ensures var payload := Flatten(pieces);
      var r := CommitIn(SendAll(sessions, token, sent, platform).value, token, input, at, platform).result;
      && (r.Ok? <==>
            && (forall k :: 1 <= k <= |pieces| ==> WasSent(sent, k))
            && ParsePositive(input.total) == Some(|pieces|)
            && ParseInteger(input.length) == Some(|payload|)
            && input.sha256.Some? && |input.sha256.value| == 64 && HexDigits(input.sha256.value)
            && SameHash(platform.sha256(payload), input.sha256.value)
            && !platform.secretBytes(payload) && platform.interpret(payload).Ok?)
      && (r.Ok? ==> platform.interpret(payload) == Ok(r.value.submission))
  {
    hide GoodSends, GoodPieces, ParsePositive, ParseInteger, ChunksOk, AreParts, Flatten, Commit, SameHash, HexDigits;
    hide StoresPieces, Texts, SendAll, WasSent, Stored, Find;
    AnyOrderIsAccepted(sessions, token, sent, pieces, platform);
    var after := SendAll(sessions, token, sent, platform).value;
    var chunks := after[token].chunks;
    PiecesAreOk(chunks, pieces);
    forall k: nat
      ensures Stored(chunks, k) <==> WasSent(sent, k)
    {
      FindIsStored(chunks, k);
    }
    PiecesAreStored(chunks, pieces);
    PiecesAreFew(pieces);
    CommitAnswers(after[token], input, pieces, platform);
    var total, payload := ParsePositive(input.total), Flatten(pieces);
    var missing := [(total.Some? && !AllStored(chunks, total.value), MissingChunks)];
    var t, u := RequestChecks(input), PayloadChecks(input, payload, platform);
    FourChecks(t);
    FourChecks(u);
    FirstOfOne(missing[0]);
    FirstOfConcat(t, missing + u);
    FirstOfConcat(missing, u);
  }

  lemma PiecesAreFew(pieces: seq<seq<Byte>>)
    requires GoodPieces(pieces)
    ensures 1 <= |pieces| <= 64
  {
  }

  lemma PiecesAreStored(chunks: seq<StoredChunk>, pieces: seq<seq<Byte>>)
    requires StoresPieces(chunks, pieces, Texts(pieces))
    ensures AllStored(chunks, |pieces|) <==> forall k :: 1 <= k <= |pieces| ==> Stored(chunks, k)
  {
    forall c | c in chunks
      ensures c.total == |pieces|
    {
      assert c == PieceChunk(c.seqNo, pieces, Texts(pieces));
    }
  }

  /** Once finalized, a session answers every submission and every commit before its end in the same way. */
  lemma {:induction false} FinalizingAnswers<S>(
      sessions: Sessions, token: string, chunk: ChunkInput, commit: CommitInput, now: int, platform: Platform<S>)
    requires token in sessions && now < sessions[token].expiresAt
    ensures var after := FinalizeIn(sessions, token);
      && OthersStay(sessions, after, token)
      && token in after && after[token] == sessions[token].(committed := true)
      && SubmitIn(after, token, chunk, now, platform) == Outcome(after, Err(AlreadyCommitted))
      && CommitIn(after, token, commit, now, platform) == Outcome(after, Err(AlreadyCommitted))
  {
  }
}
