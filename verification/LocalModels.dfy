/**
 * Local model settings: proofs of validation, the PATCH that needs them, and the workers that
 * rely on them (app/services/jdr/auth_router.py, local_model_validation.py,
 * db/repositories.py, app/jobs/jdr.py).
 */
module LocalModels {
  import opened Wrappers
  import opened PyText

  type UserId = nat

  datatype Provider = Cloud | Local | Ollama

  datatype Category = TranscriptionModel | SummaryModel

  /** A SHA-256 digest, taken to be free of collisions. */
  datatype Digest = Digest(of: string)

  datatype Proof = Proof(user: UserId, category: Category, pathHash: Digest, expiresAt: int)

  /** The settings of one category. */
  datatype Slot = Slot(provider: Option<Provider>, path: Option<string>, proofHash: Option<Digest>,
      cloudModel: Option<string>)

  datatype Settings = Settings(transcription: Slot, summary: Slot, ollamaModel: Option<string>, apiKey: Option<string>)

  datatype State = State(rows: map<UserId, Settings>, proofs: map<Digest, Proof>)

  const INIT := State(map[], map[])
  const EMPTY_SLOT := Slot(None, None, None, None)
  const EMPTY_ROW := Settings(EMPTY_SLOT, EMPTY_SLOT, None, None)

  /** How the file system resolves a path. */
  type Resolve = string -> string

  function Normalised(path: string, resolve: Resolve): string {
    resolve(Strip(path))
  }

  function SlotOf(row: Settings, category: Category): Slot {
    if category.TranscriptionModel? then row.transcription else row.summary
  }

  // ----- Proofs -------------------------------------------------------------------------

  datatype Refusal = ProbeFailed | TokenTaken | PathRequired | ProofRequired | ProofMismatch | ProofExpired

  type Outcome = Result<State, Refusal>

  /** A probe that succeeds leaves a proof under a fresh random token, of which only the digest is kept. */
  function Validated(s: State, user: UserId, category: Category, path: string, probeOk: bool, token: string,
      expiresAt: int, resolve: Resolve): Outcome {
    if Blank(path) || !probeOk then Failure(ProbeFailed)
    else if Digest(token) in s.proofs then Failure(TokenTaken)
    else Success(s.(proofs := s.proofs[Digest(token) := Proof(user, category, Digest(Normalised(path, resolve)), expiresAt)]))
  }

  function BlankOrNone(s: Option<string>): bool {
    s.None? || Blank(s.value)
  }

  /** The digest of a proof that fits the setting and has not expired. */
  function RequiredHash(s: State, user: UserId, category: Category, path: Option<string>, proofId: Option<string>,
      now: int, resolve: Resolve): Result<Digest, Refusal> {
    if BlankOrNone(path) then Failure(PathRequired)
    else if BlankOrNone(proofId) then Failure(ProofRequired)
    else
      var hash := Digest(Strip(proofId.value));
      if hash !in s.proofs then Failure(ProofRequired)
      else
        var proof := s.proofs[hash];
        if proof.user != user || proof.category != category
           || proof.pathHash != Digest(Normalised(path.value, resolve)) then Failure(ProofMismatch)
        else if proof.expiresAt <= now then Failure(ProofExpired)
        else Success(hash)
  }

  // ----- PATCH --------------------------------------------------------------------------

  /** A field of the payload: left out, or given, possibly as null. */
  datatype Field<T> = Omitted | Given(value: Option<T>)

  datatype SlotPatch = SlotPatch(provider: Field<Provider>, path: Field<string>, proofId: Option<string>,
      cloudModel: Option<string>)

  datatype Patch = Patch(transcription: SlotPatch, summary: SlotPatch, ollamaModel: Option<string>,
      apiKey: Option<string>)

  function PatchOf(p: Patch, category: Category): SlotPatch {
    if category.TranscriptionModel? then p.transcription else p.summary
  }

  function EffectivePath(current: Option<Slot>, patch: SlotPatch): Option<string> {
    if patch.path.Given? then patch.path.value else if current.Some? then current.value.path else None
  }

  /** Without a row the provider counts as cloud; a null in the payload as the current provider. */
  function EffectiveProvider(current: Option<Slot>, patch: SlotPatch): Option<Provider> {
    if patch.provider.Given? && patch.provider.value.Some? then patch.provider.value
    else if current.Some? then current.value.provider
    else Some(Cloud)
  }

  predicate NeedsProof(current: Option<Slot>, patch: SlotPatch) {
    var provider := if current.Some? then current.value.provider else Some(Cloud);
    var path := if current.Some? then current.value.path else None;
    var hash := if current.Some? then current.value.proofHash else None;
    && EffectiveProvider(current, patch) == Some(Local)
    && ((patch.path.Given? && patch.path.value != path) || provider != Some(Local) || hash.None?)
  }

  /** The hash to store; None where no proof is needed and the old one stays. */
  function HashIfNeeded(s: State, user: UserId, p: Patch, category: Category, now: int,
      resolve: Resolve): Result<Option<Digest>, Refusal> {
    var current := if user in s.rows then Some(SlotOf(s.rows[user], category)) else None;
    var patch := PatchOf(p, category);
    if !NeedsProof(current, patch) then Success(None)
    else
      var hash := RequiredHash(s, user, category, EffectivePath(current, patch), patch.proofId, now, resolve);
      if hash.Failure? then Failure(hash.error) else Success(Some(hash.value))
  }

  function Kept<T>(given: Option<T>, stored: Option<T>): Option<T> {
    if given.Some? then given else stored
  }

  /** The provider may be set to null; a path, a hash, a model or a key never is. */
  function SlotPatched(slot: Slot, patch: SlotPatch, hash: Option<Digest>): Slot {
    Slot(if patch.provider.Given? then patch.provider.value else slot.provider,
         if patch.path.Given? then Kept(patch.path.value, slot.path) else slot.path,
         Kept(hash, slot.proofHash),
         Kept(patch.cloudModel, slot.cloudModel))
  }

  function RowPatched(row: Settings, p: Patch, transcriptionHash: Option<Digest>,
      summaryHash: Option<Digest>): Settings {
    Settings(SlotPatched(row.transcription, p.transcription, transcriptionHash),
             SlotPatched(row.summary, p.summary, summaryHash),
             Kept(p.ollamaModel, row.ollamaModel),
             if p.apiKey.Some? && p.apiKey.value != "" then p.apiKey else row.apiKey)
  }

  function Patched(s: State, user: UserId, p: Patch, now: int, resolve: Resolve): Outcome {
    var transcriptionHash := HashIfNeeded(s, user, p, TranscriptionModel, now, resolve);
    var summaryHash := HashIfNeeded(s, user, p, SummaryModel, now, resolve);
    if transcriptionHash.Failure? then Failure(transcriptionHash.error)
    else if summaryHash.Failure? then Failure(summaryHash.error)
    else
      var row := if user in s.rows then s.rows[user] else EMPTY_ROW;
      Success(s.(rows := s.rows[user := RowPatched(row, p, transcriptionHash.value, summaryHash.value)]))
  }

  // ----- Workers ------------------------------------------------------------------------

  /** The adapter a job gets; `Denied` is the error of a local setting without path or proof. */
  datatype Adapter = Operator | Personal(model: Option<string>, key: string) | OllamaAt(model: Option<string>)
      | LocalAt(path: string) | Denied

  predicate Empty(s: Option<string>) {
    s.None? || s.value == ""
  }

  function LocalAdapter(slot: Slot): Adapter {
    if Empty(slot.path) || slot.proofHash.None? then Denied else LocalAt(slot.path.value)
  }

  function LlmAdapter(row: Option<Settings>): Adapter {
    if row.None? || row.value.summary.provider.None? then Operator
    else
      match row.value.summary.provider.value
      case Ollama => OllamaAt(row.value.ollamaModel)
      case Cloud => if Empty(row.value.apiKey) then Operator else Personal(row.value.summary.cloudModel, row.value.apiKey.value)
      case Local => LocalAdapter(row.value.summary)
  }

  function TranscriptionAdapter(row: Option<Settings>): Adapter {
    if row.None? || row.value.transcription.provider.None? then Operator
    else
      match row.value.transcription.provider.value
      case Ollama => Operator
      case Cloud => if Empty(row.value.apiKey) then Operator else Personal(row.value.transcription.cloudModel, row.value.apiKey.value)
      case Local => LocalAdapter(row.value.transcription)
  }

  // ----- Runs ---------------------------------------------------------------------------

  datatype Request =
    | Validate(user: UserId, category: Category, path: string, probeOk: bool, token: string, expiresAt: int)
    | DoPatch(user: UserId, patch: Patch, now: int)

  function Answer(s: State, r: Request, resolve: Resolve): Outcome {
    match r
    case Validate(user, category, path, probeOk, token, expiresAt) => Validated(s, user, category, path, probeOk, token, expiresAt, resolve)
    case DoPatch(user, patch, now) => Patched(s, user, patch, now, resolve)
  }

  /** A refused request changes nothing. */
  function Next(s: State, r: Request, resolve: Resolve): State {
    var o := Answer(s, r, resolve);
    if o.Success? then o.value else s
  }

  function Run(s: State, requests: seq<Request>, resolve: Resolve): State
    decreases requests
  {
    if requests == [] then s else Run(Next(s, requests[0], resolve), requests[1..], resolve)
  }

  /** The hash is that of a proof issued to this user, for this category and this very path. */
  ghost predicate Proven(s: State, user: UserId, category: Category, path: string, hash: Digest, resolve: Resolve) {
    hash in s.proofs && s.proofs[hash].user == user && s.proofs[hash].category == category
    && s.proofs[hash].pathHash == Digest(Normalised(path, resolve))
  }

  ghost predicate SlotSound(s: State, user: UserId, category: Category, slot: Slot, resolve: Resolve) {
    slot.provider == Some(Local) ==>
      && slot.path.Some? && !Blank(slot.path.value)
      && slot.proofHash.Some? && Proven(s, user, category, slot.path.value, slot.proofHash.value, resolve)
  }

  ghost predicate Sound(s: State, resolve: Resolve) {
    forall user | user in s.rows ::
      && SlotSound(s, user, TranscriptionModel, s.rows[user].transcription, resolve)
      && SlotSound(s, user, SummaryModel, s.rows[user].summary, resolve)
  }

  lemma RequiredHashIsProven(s: State, user: UserId, category: Category, path: Option<string>,
      proofId: Option<string>, now: int, resolve: Resolve)
    ensures var hash := RequiredHash(s, user, category, path, proofId, now, resolve);
            hash.Success? ==> path.Some? && !Blank(path.value) && Proven(s, user, category, path.value, hash.value, resolve)
  {}

  /** One category: whatever the payload, a local provider ends up with a proven path. */
  lemma SlotStaysSound(s: State, user: UserId, p: Patch, category: Category, now: int, resolve: Resolve)
    requires Sound(s, resolve)
    ensures var hash := HashIfNeeded(s, user, p, category, now, resolve);
            var slot := if user in s.rows then SlotOf(s.rows[user], category) else EMPTY_SLOT;
            hash.Success? ==> SlotSound(s, user, category, SlotPatched(slot, PatchOf(p, category), hash.value), resolve)
  {
    var current := if user in s.rows then Some(SlotOf(s.rows[user], category)) else None;
    var patch := PatchOf(p, category);
    if NeedsProof(current, patch) {
      RequiredHashIsProven(s, user, category, EffectivePath(current, patch), patch.proofId, now, resolve);
    }
  }

  lemma PatchKeepsSound(s: State, user: UserId, p: Patch, now: int, resolve: Resolve)
    requires Sound(s, resolve) && Patched(s, user, p, now, resolve).Success?
    ensures Sound(Patched(s, user, p, now, resolve).value, resolve)
  {
    SlotStaysSound(s, user, p, TranscriptionModel, now, resolve);
    SlotStaysSound(s, user, p, SummaryModel, now, resolve);
    var after := Patched(s, user, p, now, resolve).value;
    assert after.proofs == s.proofs;
  }

  lemma RequestKeepsSound(s: State, r: Request, resolve: Resolve)
    requires Sound(s, resolve)
    ensures Sound(Next(s, r, resolve), resolve)
  {
    if r.DoPatch? && Patched(s, r.user, r.patch, r.now, resolve).Success? {
      PatchKeepsSound(s, r.user, r.patch, r.now, resolve);
    }
  }

  lemma {:induction false} RunKeepsSound(s: State, requests: seq<Request>, resolve: Resolve)
    requires Sound(s, resolve)
    ensures Sound(Run(s, requests, resolve), resolve)
    decreases requests
  {
    if requests != [] {
      RequestKeepsSound(s, requests[0], resolve);
      RunKeepsSound(Next(s, requests[0], resolve), requests[1..], resolve);
    }
  }

  function RowOf(s: State, user: UserId): Option<Settings> {
    if user in s.rows then Some(s.rows[user]) else None
  }

  /** A local adapter is only ever built on a path proven for that user and category. */
  ghost predicate Served(s: State, user: UserId, category: Category, adapter: Adapter, resolve: Resolve) {
    && adapter != Denied
    && (adapter.LocalAt? ==> !Blank(adapter.path) && exists hash :: Proven(s, user, category, adapter.path, hash, resolve))
  }

  /**
   * Main theorem: in every state reached by validation and PATCH requests of any users, in any
   * order, the local branches of both adapter builders never raise.
   */
  lemma WorkersAreServed(requests: seq<Request>, user: UserId, resolve: Resolve)
    ensures var s := Run(INIT, requests, resolve);
            && Served(s, user, SummaryModel, LlmAdapter(RowOf(s, user)), resolve)
            && Served(s, user, TranscriptionModel, TranscriptionAdapter(RowOf(s, user)), resolve)
  {
    RunKeepsSound(INIT, requests, resolve);
    var s := Run(INIT, requests, resolve);
    if user in s.rows {
      var row := s.rows[user];
      assert SlotSound(s, user, TranscriptionModel, row.transcription, resolve);
      assert SlotSound(s, user, SummaryModel, row.summary, resolve);
    }
  }

  // ----- Where proofs come from ---------------------------------------------------------

  /** The proof is what this request left: a probe of the path that succeeded for its user and category. */
  predicate Made(r: Request, hash: Digest, proof: Proof, resolve: Resolve) {
    && r.Validate? && r.probeOk && hash == Digest(r.token)
    && proof.user == r.user && proof.category == r.category && proof.expiresAt == r.expiresAt
    && proof.pathHash == Digest(resolve(Strip(r.path)))
  }

  /** Every proof was there before, or one of the requests left it. */
  lemma {:induction false} RunProofs(s: State, requests: seq<Request>, hash: Digest, resolve: Resolve)
    requires var t := Run(s, requests, resolve); hash in t.proofs && !(hash in s.proofs && s.proofs[hash] == t.proofs[hash])
    ensures exists i | 0 <= i < |requests| :: Made(requests[i], hash, Run(s, requests, resolve).proofs[hash], resolve)
    decreases requests
  {
    if requests != [] {
      var t, last := Next(s, requests[0], resolve), Run(s, requests, resolve);
      if hash in t.proofs && t.proofs[hash] == last.proofs[hash] {
        assert Made(requests[0], hash, last.proofs[hash], resolve);
      } else {
        RunProofs(t, requests[1..], hash, resolve);
        var i :| 0 <= i < |requests[1..]| && Made(requests[1..][i], hash, last.proofs[hash], resolve);
        assert requests[1..][i] == requests[i + 1];
      }
    }
  }

  /** One of the requests probed this path, with success, for this user and category. */
  ghost predicate Probed(requests: seq<Request>, user: UserId, category: Category, path: string, resolve: Resolve) {
    exists i | 0 <= i < |requests| ::
      && requests[i].Validate? && requests[i].probeOk && requests[i].user == user && requests[i].category == category
      && resolve(Strip(requests[i].path)) == resolve(Strip(path))
  }

  lemma ProvenWasProbed(requests: seq<Request>, user: UserId, category: Category, path: string, hash: Digest,
      resolve: Resolve)
    requires Proven(Run(INIT, requests, resolve), user, category, path, hash, resolve)
    ensures Probed(requests, user, category, path, resolve)
  {
    RunProofs(INIT, requests, hash, resolve);
    var i :| 0 <= i < |requests| && Made(requests[i], hash, Run(INIT, requests, resolve).proofs[hash], resolve);
  }

  /**
   * Main theorem: whatever users validate and save, a worker only ever loads a local model from
   * a path that was probed with success for that very user and category.
   */
  lemma LocalPathsWereProbed(requests: seq<Request>, user: UserId, resolve: Resolve)
    ensures var row := RowOf(Run(INIT, requests, resolve), user);
            && (LlmAdapter(row).LocalAt? ==> Probed(requests, user, SummaryModel, LlmAdapter(row).path, resolve))
            && (TranscriptionAdapter(row).LocalAt? ==>
                  Probed(requests, user, TranscriptionModel, TranscriptionAdapter(row).path, resolve))
  {
    WorkersAreServed(requests, user, resolve);
    var s := Run(INIT, requests, resolve);
    var llm, transcriber := LlmAdapter(RowOf(s, user)), TranscriptionAdapter(RowOf(s, user));
    if llm.LocalAt? {
      var hash :| Proven(s, user, SummaryModel, llm.path, hash, resolve);
      ProvenWasProbed(requests, user, SummaryModel, llm.path, hash, resolve);
    }
    if transcriber.LocalAt? {
      var hash :| Proven(s, user, TranscriptionModel, transcriber.path, hash, resolve);
      ProvenWasProbed(requests, user, TranscriptionModel, transcriber.path, hash, resolve);
    }
  }

  /** The request names a proof of this user, category and path that has not expired. */
  ghost predicate LiveProof(s: State, user: UserId, category: Category, path: Option<string>, proofId: Option<string>,
      now: int, resolve: Resolve) {
    && path.Some? && !Blank(path.value) && proofId.Some? && !Blank(proofId.value)
    && var hash := Digest(Strip(proofId.value));
       Proven(s, user, category, path.value, hash, resolve) && now < s.proofs[hash].expiresAt
  }

  /** The hash of a proof is handed out exactly while the proof fits and has not expired. */
  lemma RequiredHashIff(s: State, user: UserId, category: Category, path: Option<string>,
      proofId: Option<string>, now: int, resolve: Resolve)
    ensures RequiredHash(s, user, category, path, proofId, now, resolve).Success?
       <==> LiveProof(s, user, category, path, proofId, now, resolve)
    ensures RequiredHash(s, user, category, path, proofId, now, resolve) == Failure(ProofExpired)
        ==> proofId.Some? && var hash := Digest(Strip(proofId.value)); hash in s.proofs && s.proofs[hash].expiresAt <= now
  {}

  /**
   * Over every run: a hash is only stored by a PATCH that brings the token of a successful probe
   * of the same user, category and path, before that proof expires.
   */
  lemma StoredHashIsLive(requests: seq<Request>, user: UserId, p: Patch, category: Category, now: int, resolve: Resolve)
    requires var hash := HashIfNeeded(Run(INIT, requests, resolve), user, p, category, now, resolve);
             hash.Success? && hash.value.Some?
    ensures exists i | 0 <= i < |requests| ::
              && requests[i].Validate? && requests[i].probeOk && requests[i].user == user && requests[i].category == category
              && PatchOf(p, category).proofId.Some? && requests[i].token == Strip(PatchOf(p, category).proofId.value)
              && now < requests[i].expiresAt
  {
    var s := Run(INIT, requests, resolve);
    var current := if user in s.rows then Some(SlotOf(s.rows[user], category)) else None;
    var patch := PatchOf(p, category);
    var path := EffectivePath(current, patch);
    RequiredHashIff(s, user, category, path, patch.proofId, now, resolve);
    var hash := Digest(Strip(patch.proofId.value));
    RunProofs(INIT, requests, hash, resolve);
    var i :| 0 <= i < |requests| && Made(requests[i], hash, s.proofs[hash], resolve);
  }

  /** The PATCH makes a category local that was not, or gives a local one another path. */
  predicate GoesLocal(s: State, user: UserId, p: Patch, category: Category) {
    var slot := if user in s.rows then SlotOf(s.rows[user], category) else EMPTY_SLOT;
    var patch := if category.TranscriptionModel? then p.transcription else p.summary;
    var local := if patch.provider.Given? && patch.provider.value.Some? then patch.provider.value.value.Local?
                 else slot.provider == Some(Local);
    local && (slot.provider != Some(Local) || (patch.path.Given? && patch.path.value != slot.path))
  }

  /** The path it leaves, if it gives or keeps one. */
  function PathAfter(s: State, user: UserId, p: Patch, category: Category): Option<string> {
    var patch := if category.TranscriptionModel? then p.transcription else p.summary;
    if patch.path.Given? then patch.path.value
    else if user in s.rows then SlotOf(s.rows[user], category).path else None
  }

  /** In every sound state a PATCH is accepted exactly if it brings a live proof for each category it makes local. */
  lemma PatchAcceptedIff(s: State, user: UserId, p: Patch, now: int, resolve: Resolve)
    requires Sound(s, resolve)
    ensures Patched(s, user, p, now, resolve).Success?
       <==> && (GoesLocal(s, user, p, TranscriptionModel) ==>
                  LiveProof(s, user, TranscriptionModel, PathAfter(s, user, p, TranscriptionModel), p.transcription.proofId, now, resolve))
            && (GoesLocal(s, user, p, SummaryModel) ==>
                  LiveProof(s, user, SummaryModel, PathAfter(s, user, p, SummaryModel), p.summary.proofId, now, resolve))
  {
    CategoryAcceptedIff(s, user, p, TranscriptionModel, now, resolve);
    CategoryAcceptedIff(s, user, p, SummaryModel, now, resolve);
  }

  lemma CategoryAcceptedIff(s: State, user: UserId, p: Patch, category: Category, now: int, resolve: Resolve)
    requires Sound(s, resolve)
    ensures HashIfNeeded(s, user, p, category, now, resolve).Success?
       <==> (GoesLocal(s, user, p, category) ==>
               LiveProof(s, user, category, PathAfter(s, user, p, category), PatchOf(p, category).proofId, now, resolve))
  {
    var current := if user in s.rows then Some(SlotOf(s.rows[user], category)) else None;
    if user in s.rows { assert SlotSound(s, user, category, SlotOf(s.rows[user], category), resolve); }
    RequiredHashIff(s, user, category, EffectivePath(current, PatchOf(p, category)), PatchOf(p, category).proofId, now, resolve);
  }

  // ----- What a PATCH changes -----------------------------------------------------------

  predicate SlotFollows(before: Slot, patch: SlotPatch, after: Slot) {
    && after.provider == (match patch.provider case Omitted => before.provider case Given(value) => value)
    && after.path == (if patch.path.Given? && patch.path.value.Some? then patch.path.value else before.path)
    && after.cloudModel == (if patch.cloudModel.Some? then patch.cloudModel else before.cloudModel)
  }

  /** The settings a worker finds after an accepted PATCH are those the user asked for. */
  lemma PatchTakesEffect(s: State, user: UserId, p: Patch, now: int, resolve: Resolve)
    requires Patched(s, user, p, now, resolve).Success?
    ensures var row := Patched(s, user, p, now, resolve).value.rows[user];
            var before := if user in s.rows then s.rows[user] else EMPTY_ROW;
            && SlotFollows(before.transcription, p.transcription, row.transcription)
            && SlotFollows(before.summary, p.summary, row.summary)
            && row.ollamaModel == (if p.ollamaModel.Some? then p.ollamaModel else before.ollamaModel)
            && row.apiKey == (if p.apiKey.Some? && p.apiKey.value != "" then p.apiKey else before.apiKey)
  {}

  /** And so are the adapters the jobs get: local, cloud with the own key, Ollama, or the operator's. */
  lemma PatchIsServed(s: State, user: UserId, p: Patch, now: int, resolve: Resolve)
    requires Sound(s, resolve) && Patched(s, user, p, now, resolve).Success?
    requires p.summary.provider.Given? && p.transcription.provider.Given?
    ensures var row := Patched(s, user, p, now, resolve).value.rows[user];
            var keyed := row.apiKey.Some? && row.apiKey.value != "";
            && LlmAdapter(Some(row)) == (match p.summary.provider.value
                 case None => Operator
                 case Some(Local) => LocalAt(if row.summary.path.Some? then row.summary.path.value else "")
                 case Some(Cloud) => if keyed then Personal(row.summary.cloudModel, row.apiKey.value) else Operator
                 case Some(Ollama) => OllamaAt(row.ollamaModel))
            && TranscriptionAdapter(Some(row)) == (match p.transcription.provider.value
                 case None => Operator
                 case Some(Local) => LocalAt(if row.transcription.path.Some? then row.transcription.path.value else "")
                 case Some(Cloud) => if keyed then Personal(row.transcription.cloudModel, row.apiKey.value) else Operator
                 case Some(Ollama) => Operator)
  {
    PatchTakesEffect(s, user, p, now, resolve);
    PatchKeepsSound(s, user, p, now, resolve);
    var after := Patched(s, user, p, now, resolve).value;
    assert SlotSound(after, user, SummaryModel, after.rows[user].summary, resolve);
    assert SlotSound(after, user, TranscriptionModel, after.rows[user].transcription, resolve);
  }

  predicate Untouched(patch: SlotPatch) {
    patch.provider.Omitted? && patch.path.Omitted? && patch.cloudModel.None?
  }

  /**
   * One category can be changed alone: in every reachable state a PATCH that leaves a category
   * out needs no proof for it and does not change it, not even from "no override".
   */
  lemma OtherCategoryStays(s: State, user: UserId, p: Patch, category: Category, now: int, resolve: Resolve)
    requires Sound(s, resolve) && Untouched(PatchOf(p, category))
    ensures HashIfNeeded(s, user, p, category, now, resolve) == Success(None)
    ensures Patched(s, user, p, now, resolve).Success? ==>
              SlotOf(Patched(s, user, p, now, resolve).value.rows[user], category)
              == if user in s.rows then SlotOf(s.rows[user], category) else EMPTY_SLOT
  {
    if user in s.rows { assert SlotSound(s, user, category, SlotOf(s.rows[user], category), resolve); }
  }

  /** And no request touches the settings of another user. */
  lemma OtherUsersStay(s: State, r: Request, user: UserId, resolve: Resolve)
    requires user != r.user
    ensures RowOf(Next(s, r, resolve), user) == RowOf(s, user)
  {}

  // ----- The rows in place --------------------------------------------------------------

  class SettingsStore {
    const resolve: Resolve
    var rows: map<UserId, Settings>
    var proofs: map<Digest, Proof>

    constructor (resolve: Resolve)
      ensures this.resolve == resolve && View() == INIT && Valid()
    {
      this.resolve := resolve;
      rows, proofs := map[], map[];
    }

    ghost function View(): State
      reads this
    {
      State(rows, proofs)
    }

    ghost predicate Valid()
      reads this
    {
      Sound(View(), resolve)
    }

    method CreateValidation(user: UserId, category: Category, path: string, probeOk: bool, token: string,
        expiresAt: int)
      returns (refusal: Option<Refusal>)
      requires Valid()
      modifies this
      ensures Valid() && View() == Next(old(View()), Validate(user, category, path, probeOk, token, expiresAt), resolve)
      ensures refusal.None? <==> Answer(old(View()), Validate(user, category, path, probeOk, token, expiresAt), resolve).Success?
    {
      if Blank(path) || !probeOk { return Some(ProbeFailed); }
      if Digest(token) in proofs { return Some(TokenTaken); }
      RequestKeepsSound(View(), Validate(user, category, path, probeOk, token, expiresAt), resolve);
      proofs := proofs[Digest(token) := Proof(user, category, Digest(Normalised(path, resolve)), expiresAt)];
      return None;
    }

    method RequiredLocalValidationHash(user: UserId, p: Patch, category: Category, now: int)
      returns (r: Result<Option<Digest>, Refusal>)
      ensures r == HashIfNeeded(View(), user, p, category, now, resolve)
    {
      var current := if user in rows then Some(SlotOf(rows[user], category)) else None;
      var patch := PatchOf(p, category);
      if !NeedsProof(current, patch) { return Success(None); }
      var path := EffectivePath(current, patch);
      if BlankOrNone(path) { return Failure(PathRequired); }
      if BlankOrNone(patch.proofId) { return Failure(ProofRequired); }
      var hash := Digest(Strip(patch.proofId.value));
      if hash !in proofs { return Failure(ProofRequired); }
      var proof := proofs[hash];
      if proof.user != user || proof.category != category || proof.pathHash != Digest(Normalised(path.value, resolve)) {
        return Failure(ProofMismatch);
      }
      if proof.expiresAt <= now { return Failure(ProofExpired); }
      return Success(Some(hash));
    }

    /** The fields of one category one after the other, as the repository writes them. */
    method UpsertSlot(slot: Slot, patch: SlotPatch, hash: Option<Digest>) returns (after: Slot)
      ensures after == SlotPatched(slot, patch, hash)
    {
      after := slot;
      if patch.provider.Given? { after := after.(provider := patch.provider.value); }
      if patch.path.Given? && patch.path.value.Some? { after := after.(path := patch.path.value); }
      if patch.cloudModel.Some? { after := after.(cloudModel := patch.cloudModel); }
      if hash.Some? { after := after.(proofHash := hash); }
    }

    method UpsertForUser(user: UserId, p: Patch, transcriptionHash: Option<Digest>, summaryHash: Option<Digest>)
      modifies this`rows
      ensures rows == old(rows)[user :=
                RowPatched(if user in old(rows) then old(rows)[user] else EMPTY_ROW, p, transcriptionHash, summaryHash)]
    {
      var row := if user in rows then rows[user] else EMPTY_ROW;
      var transcription := UpsertSlot(row.transcription, p.transcription, transcriptionHash);
      var summary := UpsertSlot(row.summary, p.summary, summaryHash);
      row := row.(transcription := transcription, summary := summary);
      if p.ollamaModel.Some? { row := row.(ollamaModel := p.ollamaModel); }
      if p.apiKey.Some? && p.apiKey.value != "" { row := row.(apiKey := p.apiKey); }
      rows := rows[user := row];
    }

    method PatchModelSettings(user: UserId, p: Patch, now: int) returns (refusal: Option<Refusal>)
      requires Valid()
      modifies this
      ensures Valid() && View() == Next(old(View()), DoPatch(user, p, now), resolve)
      ensures refusal.None? <==> Answer(old(View()), DoPatch(user, p, now), resolve).Success?
    {
      var transcriptionHash := RequiredLocalValidationHash(user, p, TranscriptionModel, now);
      if transcriptionHash.Failure? { return Some(transcriptionHash.error); }
      var summaryHash := RequiredLocalValidationHash(user, p, SummaryModel, now);
      if summaryHash.Failure? { return Some(summaryHash.error); }
      RequestKeepsSound(View(), DoPatch(user, p, now), resolve);
      UpsertForUser(user, p, transcriptionHash.value, summaryHash.value);
      return None;
    }
  }
}
