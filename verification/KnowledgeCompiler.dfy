/** The Knowledge compiler of src/knowledge/knowledge-compiler.ts over a versioned vault
  * (src/knowledge/knowledge-vault.ts). For each vault root the compiler keeps six maps and logs in memory,
  * filled from the vault's current generation the first time the root is used. The digest of a content,
  * the secret detector's answer, the clock, whether the vault can be read and whether it accepts a
  * generation are given to each operation.
  */
module KnowledgeCompiler {
  import opened Contracts
  import opened KnowledgeText
  import opened Text
  import opened Wrappers

  datatype Root = Domain(domain: TrustDomain) | CeoRoot

  // ---------------------------------------------------------------- records and files

  /** What a page was compiled from. */
  datatype Meta = Meta(
    sourceIdentity: string,
    allowedRoles: seq<Executive>,
    contentHash: string,
    citations: seq<string>,
    asOf: string,
    stale: bool)

  datatype Page = Page(meta: Meta, text: string, contested: bool, generation: nat)

  /** What the projection index says of a page; its text is in the page's own file. */
  datatype Listed = Listed(meta: Meta, contested: bool, generation: nat)

  datatype RecordKind = DailyNote | FiledOutput

  datatype OperationalRecord = OperationalRecord(
    path: string,
    sourceIdentity: string,
    sourceReference: string,
    evidence: string,
    capturedAt: string,
    asOf: string,
    contentHash: string,
    citations: seq<string>,
    recordKind: RecordKind)

  datatype Outcome = WasCompiled | WasQuarantined | WasOperational | WasPublished

  /** A line of the log: the generation's number, how it came about, when, and of what evidence. */
  datatype Line = Line(sequence: nat, outcome: Outcome, at: string, evidence: string, hash: string)

  /** A quarantined page is named by its page and, through a digest, by its fingerprint. */
  datatype QuarantineName = QuarantineName(name: string, fingerprint: Fingerprint)

  /** The files of one generation, by kind. */
  datatype Files = Files(
    wiki: map<string, string>,
    quarantine: map<QuarantineName, string>,
    operational: map<string, string>,
    index: Option<set<string>>,
    log: Option<seq<Line>>,
    projection: Option<map<string, Listed>>,
    operationalIndex: Option<map<string, OperationalRecord>>)

  const NO_FILES: Files := Files(map[], map[], map[], None, None, None, None)

  /** One root of the vault: the files of its current generation, and when each generation was published. */
  datatype Vault = Vault(files: Files, entries: seq<string>)

  const EMPTY_VAULT: Vault := Vault(NO_FILES, [])

  /** What the compiler keeps of one root. */
  datatype Cache = Cache(
    files: Files,
    hashes: map<string, string>,
    fingerprints: map<QuarantineName, set<Fingerprint>>,
    log: seq<Line>,
    pages: map<string, Page>,
    operational: map<string, OperationalRecord>)

  // ---------------------------------------------------------------- loading

  predicate Readable(path: string, meta: Meta, wiki: map<string, string>) {
    "wiki/" <= path && !IsBlank(meta.sourceIdentity) && !IsBlank(meta.contentHash) && path in wiki
  }

  function LoadPages(files: Files): map<string, Page> {
    match files.projection
    case None => map[]
    case Some(index) =>
      map path | path in index && Readable(path, index[path].meta, files.wiki) ::
        Page(index[path].meta, files.wiki[path], index[path].contested, index[path].generation)
  }

  function HashesOf(pages: map<string, Page>): map<string, string> {
    map path | path in pages :: pages[path].meta.contentHash
  }

  function LoadFingerprints(files: Files): map<QuarantineName, set<Fingerprint>> {
    map q | q in files.quarantine && ReadFingerprint(files.quarantine[q]).Some? :: {ReadFingerprint(files.quarantine[q]).value}
  }

  /** The vault's own log, in the form of a file that has none yet. */
  function AsPublished(entries: seq<string>): seq<Line> {
    seq(|entries|, i requires 0 <= i < |entries| => Line(i + 1, WasPublished, entries[i], "", ""))
  }

  function LoadLog(v: Vault): seq<Line> {
    match v.files.log
    case Some(lines) => lines
    case None => AsPublished(v.entries)
  }

  function LoadOperational(files: Files): map<string, OperationalRecord> {
    if files.operationalIndex.Some? then files.operationalIndex.value else map[]
  }

  /** What a compiler opened on the vault rebuilds. */
  function Load(v: Vault): Cache {
    var pages := LoadPages(v.files);
    Cache(v.files, HashesOf(pages), LoadFingerprints(v.files), LoadLog(v), pages,
          LoadOperational(v.files))
  }

  /** What a compiler keeps of a root it took for loaded although reading the vault raised. */
  const EMPTY_CACHE: Cache := Cache(NO_FILES, map[], map[], [], map[], map[])

  /** One root between restarts: what the compiler keeps of it, once it has used it, and the vault. */
  datatype Session = Session(cache: Option<Cache>, vault: Vault)

  /** What the compiler will see of a root: what it keeps, or what it would load. */
  function Seen(s: Session): Kept {
    Kept(if s.cache.Some? then s.cache.value else Load(s.vault), s.vault)
  }

  function Using(k: Kept): Session {
    Session(Some(k.cache), k.vault)
  }

  /** The root's first use reads the vault, after the root has been marked as loaded. */
  predicate FirstReadRaises(s: Session, opens: bool) {
    s.cache.None? && !opens
  }

  function Unread(s: Session): Session {
    Session(Some(EMPTY_CACHE), s.vault)
  }

  // ---------------------------------------------------------------- publishing

  /** The compiler's and the vault's view of one root. */
  datatype Kept = Kept(cache: Cache, vault: Vault)

  datatype Published = Published(kept: Kept, files: Files, sequence: Option<nat>)

  /** Publishing appends a log line in memory, puts the log among the files, and then asks the vault. When
    * the vault refuses, the line stays. */
  function Publish(k: Kept, files: Files, outcome: Outcome, now: string, evidence: string, hash: string, accepts: bool): Published {
    var line := Line(|k.cache.log| + 1, outcome, now, evidence, hash);
    var lines := k.cache.log + [line];
    var logged := files.(log := Some(lines));
    var cache := k.cache.(log := lines);
    if accepts then
      Published(Kept(cache, Vault(logged, k.vault.entries + [now])), logged, Some(|k.vault.entries| + 1))
    else Published(Kept(cache, k.vault), logged, None)
  }

  /** The records of a root's pages under a new generation: a replacement takes its page's place, and a
    * contested page is marked. */
  function RecordsFor(pages: map<string, Page>, generation: nat, replacement: map<string, Page>, contested: set<string>): map<string, Page> {
    (map path | path in pages ::
       Page(pages[path].meta, pages[path].text, pages[path].contested || path in contested, generation))
    + replacement
  }

  function ListedOf(pages: map<string, Page>): map<string, Listed> {
    map path | path in pages :: Listed(pages[path].meta, pages[path].contested, pages[path].generation)
  }

  function InGeneration(pages: map<string, Page>, generation: nat): map<string, Page> {
    map path | path in pages :: Page(pages[path].meta, pages[path].text, pages[path].contested, generation)
  }

  /** The records replace the root's pages, and their hashes are remembered. */
  function ApplyRecords(cache: Cache, records: map<string, Page>, sequence: nat): Cache {
    cache.(pages := InGeneration(records, sequence), hashes := cache.hashes + HashesOf(records))
  }

  datatype Applied = Applied(kept: Kept, sequence: Option<nat>)

  /** Publishes files together with the index of new page records; the records are kept once the vault has
    * accepted them. */
  function PublishRecords(k: Kept, files: Files, records: map<string, Page>, fingerprints: map<QuarantineName, set<Fingerprint>>,
                          outcome: Outcome, now: string, evidence: string, hash: string, accepts: bool): Applied {
    var published := Publish(k, files.(projection := Some(ListedOf(records))), outcome, now, evidence, hash, accepts);
    match published.sequence
    case None => Applied(published.kept, None)
    case Some(sequence) =>
      var cache := published.kept.cache.(files := published.files, fingerprints := fingerprints);
      Applied(Kept(ApplyRecords(cache, records, sequence), published.kept.vault), Some(sequence))
  }

  // ---------------------------------------------------------------- compiling

  datatype Candidate = Candidate(
    domain: TrustDomain,
    sourceIdentity: string,
    sourceReference: string,
    evidence: string,
    capturedAt: string,
    asOf: string,
    contentHash: string,
    allowedRoles: seq<Executive>,
    content: string,
    citations: seq<string>,
    stale: bool)

  datatype Reason = SensitiveSecret | Uncited | InvalidProvenance | UnsafePath

  datatype Path = PageFile(path: string) | QuarantineFile(q: QuarantineName)

  /** `Raised`: the vault refused the generation; `NotRead`: it could not be read. */
  datatype Compilation =
    | Compiled(sequence: nat, path: string)
    | Unchanged(at: Path)
    | Quarantined(q: QuarantineName)
    | Rejected(reason: Reason)
    | Raised
    | NotRead

  function LowerChar(c: char): char {
    if 'A' <= c <= 'Z' then (c as int + 32) as char else c
  }

  function Lower(s: string): string {
    seq(|s|, i requires 0 <= i < |s| => LowerChar(s[i]))
  }

  const SOURCE_PREFIX: string := "agent-brain:"

  /** The registered source identities, behind their common prefix. */
  function DomainNamed(name: string): Option<TrustDomain> {
    match name
    case "personal" => Some(Personal)
    case "ming-creatives" => Some(MingCreatives)
    case "ming-creatives-content" => Some(MingCreatives)
    case "duitsini" => Some(MingCreatives)
    case "dashboard" => Some(MingCreatives)
    case "portfolio" => Some(MingCreatives)
    case "real-ming" => Some(MingCreatives)
    case "academic" => Some(Academic)
    case "entertainment" => Some(Entertainment)
    case "finance" => Some(Finance)
    case _ => if "ming-creatives:" <= name then Some(MingCreatives) else None
  }

  function Registered(sourceIdentity: string): Option<TrustDomain> {
    var normalized := Lower(Trim(sourceIdentity));
    if SOURCE_PREFIX <= normalized then DomainNamed(normalized[|SOURCE_PREFIX|..]) else None
  }

  function HashOf(hex: string -> string, content: string): string {
    "sha256:" + hex(content)
  }

  function Verdict(c: Candidate, sensitive: bool, hex: string -> string): Option<Reason> {
    if |c.citations| == 0 then Some(Uncited)
    else if sensitive then Some(SensitiveSecret)
    else if c.contentHash != HashOf(hex, c.content) then Some(InvalidProvenance)
    else if Registered(c.sourceIdentity) != Some(c.domain) then Some(InvalidProvenance)
    else None
  }

  function RenderPage(c: Candidate): string {
    var name := PageName(c.sourceReference);
    PageText(name, c.stale, c.asOf, c.content,
             "- Source: [[" + name + "]] (" + c.sourceReference + ")\n- Canonical evidence: " + c.evidence +
             "\n- Content hash: " + c.contentHash + "\n- Captured: " + c.capturedAt + "\n" + CitationLines(c.citations))
  }

  function CandidateFingerprint(c: Candidate): Fingerprint {
    Fingerprint(c.evidence, c.contentHash)
  }

  function QuarantineOf(c: Candidate): QuarantineName {
    QuarantineName(PageName(c.sourceReference), CandidateFingerprint(c))
  }

  function RenderQuarantine(c: Candidate): string {
    QuarantineText(PageName(c.sourceReference), c.content, CandidateFingerprint(c))
  }

  /** Where a candidate goes, the texts it would be published or quarantined as, and which published texts
    * it extends. */
  datatype Rendering = Rendering(path: string, q: QuarantineName, page: string, quarantined: string, continues: string -> bool)

  function Rendered(c: Candidate): Rendering {
    Rendering(PagePath(c.sourceReference), QuarantineOf(c), RenderPage(c), RenderQuarantine(c),
              published => Extends(published, c.content))
  }

  /** A candidate that neither repeats nor extends the published page. */
  predicate Contradicts(files: Files, r: Rendering) {
    r.path in files.wiki && !r.continues(files.wiki[r.path])
  }

  datatype Stepped = Stepped(kept: Kept, result: Compilation)

  function QuarantineFiles(files: Files, q: QuarantineName, text: string): Files {
    files.(quarantine := files.quarantine[q := text])
  }

  function Remember(fingerprints: map<QuarantineName, set<Fingerprint>>, q: QuarantineName): map<QuarantineName, set<Fingerprint>> {
    fingerprints[q := (if q in fingerprints then fingerprints[q] else {}) + {q.fingerprint}]
  }

  function PublishQuarantine(k: Kept, c: Candidate, path: string, q: QuarantineName, text: string, now: string, accepts: bool): Stepped {
    var records := RecordsFor(k.cache.pages, |k.cache.log| + 1, map[], {path} * k.cache.pages.Keys);
    var applied := PublishRecords(k, QuarantineFiles(k.cache.files, q, text), records, Remember(k.cache.fingerprints, q),
                                  WasQuarantined, now, c.evidence, c.contentHash, accepts);
    Stepped(applied.kept, if applied.sequence == None then Raised else Quarantined(q))
  }

  function PageOf(c: Candidate, text: string, generation: nat): Page {
    Page(Meta(c.sourceIdentity, c.allowedRoles, c.contentHash, c.citations, c.asOf, c.stale), text, false, generation)
  }

  function PageFiles(files: Files, path: string, text: string): Files {
    var wiki := files.wiki[path := text];
    files.(wiki := wiki, index := Some(wiki.Keys))
  }

  function PublishPage(k: Kept, c: Candidate, path: string, text: string, now: string, accepts: bool): Stepped {
    var generation := |k.cache.log| + 1;
    var records := RecordsFor(k.cache.pages, generation, map[path := PageOf(c, text, generation)], {});
    var applied := PublishRecords(k, PageFiles(k.cache.files, path, text), records, k.cache.fingerprints,
                                  WasCompiled, now, c.evidence, c.contentHash, accepts);
    Stepped(applied.kept, if applied.sequence == None then Raised else Compiled(applied.sequence.value, path))
  }

  /** Whether a candidate is what its page already shows. */
  predicate Repeats(cache: Cache, c: Candidate, r: Rendering) {
    r.path in cache.hashes && cache.hashes[r.path] == c.contentHash
  }

  predicate AlreadyQuarantined(cache: Cache, q: QuarantineName) {
    q in cache.fingerprints && q.fingerprint in cache.fingerprints[q]
  }

  /** Compiling a candidate that was not rejected. */
  function CompileStep(k: Kept, c: Candidate, r: Rendering, now: string, accepts: bool): Stepped {
    if Repeats(k.cache, c, r) then Stepped(k, Unchanged(PageFile(r.path)))
    else if Contradicts(k.cache.files, r) then
      if AlreadyQuarantined(k.cache, r.q) then Stepped(k, Unchanged(QuarantineFile(r.q)))
      else PublishQuarantine(k, c, r.path, r.q, r.quarantined, now, accepts)
    else PublishPage(k, c, r.path, r.page, now, accepts)
  }

  datatype SessionCompiled = SessionCompiled(session: Session, result: Compilation)

  function CompileIn(s: Session, c: Candidate, r: Rendering, now: string, opens: bool, accepts: bool): SessionCompiled {
    if FirstReadRaises(s, opens) then SessionCompiled(Unread(s), NotRead)
    else
      var step := CompileStep(Seen(s), c, r, now, accepts);
      SessionCompiled(Using(step.kept), step.result)
  }

  // ---------------------------------------------------------------- operational output

  datatype Output = Output(
    key: string,
    root: Root,
    record: OperationalRecord,
    content: string)

  datatype Filing = Filed(sequence: nat, path: string) | AlreadyFiled(path: string) | Refused(reason: Reason) | FilingRaised | FilingNotRead

  function DropStart(s: string, prefix: string): string {
    if prefix <= s then s[|prefix|..] else s
  }

  function OutputPrefix(sourceIdentity: string): string {
    "agent-brain://" + DropStart(sourceIdentity, SOURCE_PREFIX) + "/"
  }

  predicate Cites(r: OperationalRecord) {
    exists citation <- r.citations ::
      Includes(citation, r.evidence) || Includes(citation, r.sourceReference) || "agent-brain://" <= citation
  }

  predicate CitesSource(r: OperationalRecord) {
    exists citation <- r.citations :: OutputPrefix(r.sourceIdentity) <= citation || Includes(citation, r.evidence)
  }

  /** `datesParse`: both times parse; `normalized`: the path with its dots resolved. */
  function OutputVerdict(o: Output, sensitive: bool, datesParse: bool, normalized: string, hex: string -> string): Option<Reason> {
    var r := o.record;
    if |r.citations| == 0 then Some(Uncited)
    else if sensitive || IsBlank(r.sourceIdentity) || IsBlank(r.sourceReference) || IsBlank(r.evidence)
            || r.contentHash != HashOf(hex, o.content) || !datesParse || !Cites(r)
    then Some(InvalidProvenance)
    else if o.root == CeoRoot || normalized != r.path || !("daily/" <= normalized || "outputs/" <= normalized) then Some(UnsafePath)
    else if Registered(r.sourceIdentity) != Some(o.root.domain) then Some(InvalidProvenance)
    else if !(OutputPrefix(r.sourceIdentity) <= r.sourceReference) || !CitesSource(r) then Some(InvalidProvenance)
    else None
  }

  function RenderOutput(o: Output): string {
    var r := o.record;
    (if r.recordKind == DailyNote then "# Daily note" else "# Filed output") +
    "\n\n> Operational record — pending normal validation; not a stable fact.\n\n" + o.content +
    "\n\n## Provenance\n\n- Source identity: " + r.sourceIdentity + "\n- Source: " + r.sourceReference +
    "\n- Canonical evidence: " + r.evidence + "\n- Content hash: " + r.contentHash + "\n- Captured: " + r.capturedAt +
    "\n- As of: " + r.asOf + "\n" + CitationLines(r.citations) + "- Idempotency key: " + o.key + "\n"
  }

  predicate HoldsHash(text: string, contentHash: string) {
    Includes(text, "- Content hash: " + contentHash)
  }

  /** The text an output is filed as, and which texts already hold its content. */
  datatype OutputRendering = OutputRendering(text: string, heldBy: string -> bool)

  function RenderedOutput(o: Output): OutputRendering {
    OutputRendering(RenderOutput(o), text => HoldsHash(text, o.record.contentHash))
  }

  function OutputFiles(files: Files, path: string, text: string, records: map<string, OperationalRecord>): Files {
    files.(operational := files.operational[path := text], operationalIndex := Some(records))
  }

  datatype FilingStepped = FilingStepped(kept: Kept, filing: Filing)

  /** Files an output under its key. The served pages move to the new generation in memory only. */
  function PublishOutput(k: Kept, o: Output, text: string, now: string, accepts: bool): FilingStepped {
    var records := k.cache.operational[o.key := o.record];
    var published := Publish(k, OutputFiles(k.cache.files, o.record.path, text, records), WasOperational, now,
                             o.record.evidence, o.record.contentHash, accepts);
    match published.sequence
    case None => FilingStepped(published.kept, FilingRaised)
    case Some(sequence) =>
      var cache := published.kept.cache.(files := published.files, operational := records,
                                         pages := InGeneration(k.cache.pages, sequence));
      FilingStepped(Kept(cache, published.kept.vault), Filed(sequence, o.record.path))
  }

  /** Filing an output that was not refused. */
  function FileStep(k: Kept, o: Output, r: OutputRendering, now: string, accepts: bool): FilingStepped {
    if o.key in k.cache.operational then FilingStepped(k, AlreadyFiled(k.cache.operational[o.key].path))
    else if o.record.path in k.cache.files.operational && r.heldBy(k.cache.files.operational[o.record.path]) then
      FilingStepped(k, AlreadyFiled(o.record.path))
    else PublishOutput(k, o, r.text, now, accepts)
  }

  datatype SessionFiled = SessionFiled(session: Session, filing: Filing)

  function FileIn(s: Session, o: Output, r: OutputRendering, now: string, opens: bool, accepts: bool): SessionFiled {
    if FirstReadRaises(s, opens) then SessionFiled(Unread(s), FilingNotRead)
    else
      var step := FileStep(Seen(s), o, r, now, accepts);
      SessionFiled(Using(step.kept), step.filing)
  }

  // ---------------------------------------------------------------- the compiler

  class KnowledgeCompiler {
    const hex: string -> string
    var loaded: map<Root, Cache>
    var vault: map<Root, Vault>

    constructor (hex: string -> string, vault: map<Root, Vault>)
      ensures this.hex == hex && this.vault == vault && loaded == map[]
    {
      this.hex, this.vault, this.loaded := hex, vault, map[];
    }

    function VaultOf(root: Root): Vault
      reads this`vault
    {
      if root in vault then vault[root] else EMPTY_VAULT
    }

    function SessionOf(root: Root): Session
      reads this`vault, this`loaded
    {
      Session(if root in loaded then Some(loaded[root]) else None, VaultOf(root))
    }

    function View(root: Root): Kept
      reads this`vault, this`loaded
    {
      Seen(SessionOf(root))
    }

    /** Marks the root as loaded and reads the vault. When reading raises, the root stays marked, and counts
      * as one that has nothing. */
    method EnsureLoaded(root: Root, opens: bool) returns (ok: bool)
      modifies this`loaded
      ensures root in loaded && VaultOf(root) == old(VaultOf(root))
      ensures ok <==> !FirstReadRaises(old(SessionOf(root)), opens)
      ensures ok ==> View(root) == old(View(root))
      ensures !ok ==> SessionOf(root) == Unread(old(SessionOf(root)))
      ensures forall other :: other != root ==> SessionOf(other) == old(SessionOf(other))
    {
      if root in loaded {
        return true;
      }
      loaded := loaded[root := EMPTY_CACHE];
      if !opens {
        return false;
      }
      loaded := loaded[root := Load(VaultOf(root))];
      ok := true;
    }

    /** Appends the log line, puts the log among the files and publishes them, unless the vault refuses. */
    method PublishFiles(root: Root, files: Files, outcome: Outcome, now: string, evidence: string, hash: string, accepts: bool)
      returns (logged: Files, sequence: Option<nat>)
      requires root in loaded
      modifies this`loaded, this`vault
      ensures root in loaded
      ensures Published(View(root), logged, sequence) == Publish(old(View(root)), files, outcome, now, evidence, hash, accepts)
      ensures forall other :: other != root ==> SessionOf(other) == old(SessionOf(other))
    {
      var lines := loaded[root].log;
      var line := Line(|lines| + 1, outcome, now, evidence, hash);
      lines := lines + [line];
      loaded := loaded[root := loaded[root].(log := lines)];
      logged := files.(log := Some(lines));
      if !accepts {
        return logged, None;
      }
      var previous := VaultOf(root);
      var number := |previous.entries| + 1;
      vault := vault[root := Vault(logged, previous.entries + [now])];
      sequence := Some(number);
    }

    method PublishRecordsOf(root: Root, files: Files, records: map<string, Page>, fingerprints: map<QuarantineName, set<Fingerprint>>,
                            outcome: Outcome, now: string, evidence: string, hash: string, accepts: bool)
      returns (sequence: Option<nat>)
      requires root in loaded
      modifies this`loaded, this`vault
      ensures root in loaded
      ensures Applied(View(root), sequence) ==
              PublishRecords(old(View(root)), files, records, fingerprints, outcome, now, evidence, hash, accepts)
      ensures forall other :: other != root ==> SessionOf(other) == old(SessionOf(other))
    {
      var logged;
      logged, sequence := PublishFiles(root, files.(projection := Some(ListedOf(records))), outcome, now, evidence, hash, accepts);
      if sequence.Some? {
        var cache := loaded[root].(files := logged, fingerprints := fingerprints);
        loaded := loaded[root := ApplyRecords(cache, records, sequence.value)];
      }
    }

    method QuarantineCandidate(c: Candidate, path: string, q: QuarantineName, text: string, now: string, accepts: bool) returns (result: Compilation)
      requires Domain(c.domain) in loaded
      modifies this`loaded, this`vault
      ensures Domain(c.domain) in loaded
      ensures Stepped(View(Domain(c.domain)), result) == PublishQuarantine(old(View(Domain(c.domain))), c, path, q, text, now, accepts)
      ensures forall other :: other != Domain(c.domain) ==> SessionOf(other) == old(SessionOf(other))
    {
      var root := Domain(c.domain);
      var cache := loaded[root];
      var records := RecordsFor(cache.pages, |cache.log| + 1, map[], {path} * cache.pages.Keys);
      var sequence := PublishRecordsOf(root, QuarantineFiles(cache.files, q, text), records, Remember(cache.fingerprints, q),
                                       WasQuarantined, now, c.evidence, c.contentHash, accepts);
      result := if sequence == None then Raised else Quarantined(q);
    }

    method CompilePage(c: Candidate, path: string, text: string, now: string, accepts: bool) returns (result: Compilation)
      requires Domain(c.domain) in loaded
      modifies this`loaded, this`vault
      ensures Domain(c.domain) in loaded
      ensures Stepped(View(Domain(c.domain)), result) == PublishPage(old(View(Domain(c.domain))), c, path, text, now, accepts)
      ensures forall other :: other != Domain(c.domain) ==> SessionOf(other) == old(SessionOf(other))
    {
      var root := Domain(c.domain);
      var cache := loaded[root];
      var generation := |cache.log| + 1;
      var records := RecordsFor(cache.pages, generation, map[path := PageOf(c, text, generation)], {});
      var sequence := PublishRecordsOf(root, PageFiles(cache.files, path, text), records, cache.fingerprints,
                                       WasCompiled, now, c.evidence, c.contentHash, accepts);
      result := if sequence == None then Raised else Compiled(sequence.value, path);
    }

    /** Compiles a candidate into its own root; no other root is touched, and a rejected candidate changes
      * nothing at all. */
    method Compile(c: Candidate, sensitive: bool, now: string, opens: bool, accepts: bool) returns (result: Compilation)
      modifies this`loaded, this`vault
      ensures match Verdict(c, sensitive, hex)
              case Some(reason) => result == Rejected(reason) && loaded == old(loaded) && vault == old(vault)
              case None =>
                SessionCompiled(SessionOf(Domain(c.domain)), result) == CompileIn(old(SessionOf(Domain(c.domain))), c, Rendered(c), now, opens, accepts)
      ensures forall other :: other != Domain(c.domain) ==> SessionOf(other) == old(SessionOf(other))
    {
      var verdict := Verdict(c, sensitive, hex);
      if verdict.Some? {
        return Rejected(verdict.value);
      }
      var root := Domain(c.domain);
      var ok := EnsureLoaded(root, opens);
      if !ok {
        return NotRead;
      }
      result := CompileRendered(c, Rendered(c), now, accepts);
    }

    method CompileRendered(c: Candidate, r: Rendering, now: string, accepts: bool) returns (result: Compilation)
      requires Domain(c.domain) in loaded
      modifies this`loaded, this`vault
      ensures Domain(c.domain) in loaded
      ensures Stepped(View(Domain(c.domain)), result) == CompileStep(old(View(Domain(c.domain))), c, r, now, accepts)
      ensures forall other :: other != Domain(c.domain) ==> SessionOf(other) == old(SessionOf(other))
    {
      var cache, path := loaded[Domain(c.domain)], r.path;
      if path in cache.hashes && cache.hashes[path] == c.contentHash {
        return Unchanged(PageFile(path));
      }
      if path in cache.files.wiki && !r.continues(cache.files.wiki[path]) {
        if AlreadyQuarantined(cache, r.q) {
          return Unchanged(QuarantineFile(r.q));
        }
        result := QuarantineCandidate(c, path, r.q, r.quarantined, now, accepts);
      } else {
        result := CompilePage(c, path, r.page, now, accepts);
      }
    }

    method FileOutput(o: Output, text: string, now: string, accepts: bool) returns (filing: Filing)
      requires o.root in loaded
      modifies this`loaded, this`vault
      ensures o.root in loaded
      ensures FilingStepped(View(o.root), filing) == PublishOutput(old(View(o.root)), o, text, now, accepts)
      ensures forall other :: other != o.root ==> SessionOf(other) == old(SessionOf(other))
    {
      var cache := loaded[o.root];
      var records := cache.operational[o.key := o.record];
      var next := OutputFiles(cache.files, o.record.path, text, records);
      var files, sequence := PublishFiles(o.root, next, WasOperational, now, o.record.evidence, o.record.contentHash, accepts);
      if sequence == None {
        return FilingRaised;
      }
      loaded := loaded[o.root := loaded[o.root].(files := files, operational := records, pages := InGeneration(cache.pages, sequence.value))];
      filing := Filed(sequence.value, o.record.path);
    }

    method FileRendered(o: Output, r: OutputRendering, now: string, accepts: bool) returns (filing: Filing)
      requires o.root in loaded
      modifies this`loaded, this`vault
      ensures o.root in loaded
      ensures FilingStepped(View(o.root), filing) == FileStep(old(View(o.root)), o, r, now, accepts)
      ensures forall other :: other != o.root ==> SessionOf(other) == old(SessionOf(other))
    {
      var cache := loaded[o.root];
      if o.key in cache.operational {
        return AlreadyFiled(cache.operational[o.key].path);
      }
      if o.record.path in cache.files.operational && r.heldBy(cache.files.operational[o.record.path]) {
        return AlreadyFiled(o.record.path);
      }
      filing := FileOutput(o, r.text, now, accepts);
    }

    method FileOperationalOutput(o: Output, sensitive: bool, datesParse: bool, normalized: string, now: string, opens: bool, accepts: bool)
      returns (filing: Filing)
      modifies this`loaded, this`vault
      ensures match OutputVerdict(o, sensitive, datesParse, normalized, hex)
              case Some(reason) => filing == Refused(reason) && loaded == old(loaded) && vault == old(vault)
              case None => SessionFiled(SessionOf(o.root), filing) == FileIn(old(SessionOf(o.root)), o, RenderedOutput(o), now, opens, accepts)
      ensures forall other :: other != o.root ==> SessionOf(other) == old(SessionOf(other))
    {
      var verdict := OutputVerdict(o, sensitive, datesParse, normalized, hex);
      if verdict.Some? {
        return Refused(verdict.value);
      }
      var ok := EnsureLoaded(o.root, opens);
      if !ok {
        return FilingNotRead;
      }
      filing := FileRendered(o, RenderedOutput(o), now, accepts);
    }
  }
}
