/** What every run of the Knowledge compiler keeps between its memory and the vault: the cache is what a
  * fresh compiler would rebuild, a restart cannot be noticed, a candidate compiles once, and a quarantine
  * disturbs no served page.
  */
module KnowledgeAgreement {
  import opened KnowledgeCompiler
  import opened KnowledgeText
  import opened Text
  import opened Wrappers

  // ---------------------------------------------------------------- runs over one root

  datatype Op =
    | CompileOp(c: Candidate, sensitive: bool, now: string, accepts: bool)
    | FileOp(o: Output, sensitive: bool, datesParse: bool, normalized: string, now: string, accepts: bool)

  datatype Reply = OfCompile(result: Compilation) | OfFiling(filing: Filing)

  datatype Done = Done(kept: Kept, reply: Reply)

  function Step(k: Kept, op: Op, hex: string -> string): Done {
    match op
    case CompileOp(c, sensitive, now, accepts) =>
      (match Verdict(c, sensitive, hex)
       case Some(reason) => Done(k, OfCompile(Rejected(reason)))
       case None => var s := CompileStep(k, c, Rendered(c), now, accepts); Done(s.kept, OfCompile(s.result)))
    case FileOp(o, sensitive, datesParse, normalized, now, accepts) =>
      (match OutputVerdict(o, sensitive, datesParse, normalized, hex)
       case Some(reason) => Done(k, OfFiling(Refused(reason)))
       case None => var s := FileStep(k, o, RenderedOutput(o), now, accepts); Done(s.kept, OfFiling(s.filing)))
  }

  function Run(k: Kept, ops: seq<Op>, hex: string -> string): Kept {
    if ops == [] then k else Step(Run(k, ops[..|ops| - 1], hex), ops[|ops| - 1], hex).kept
  }

  function Replies(k: Kept, ops: seq<Op>, hex: string -> string): seq<Reply> {
    if ops == [] then []
    else
      var earlier := ops[..|ops| - 1];
      Replies(k, earlier, hex) + [Step(Run(k, earlier, hex), ops[|ops| - 1], hex).reply]
  }

  predicate DidRaise(reply: Reply) {
    reply == OfCompile(Raised) || reply == OfFiling(FilingRaised)
  }

  // ---------------------------------------------------------------- agreement

  /** The same pages but for the generations they are labelled with. */
  ghost predicate SamePages(a: map<string, Page>, b: map<string, Page>) {
    a.Keys == b.Keys && forall path <- a :: SamePage(a[path], b[path])
  }

  predicate SamePage(a: Page, b: Page) {
    a.meta == b.meta && a.text == b.text && a.contested == b.contested
  }

  ghost predicate AreHashesOf(hashes: map<string, string>, pages: map<string, Page>) {
    hashes.Keys == pages.Keys && forall path <- pages :: hashes[path] == pages[path].meta.contentHash
  }

  /** Pages and their hashes are what a set of files rebuilds. */
  ghost predicate PagesAgree(cache: Cache, files: Files) {
    SamePages(cache.pages, LoadPages(files)) && AreHashesOf(cache.hashes, cache.pages)
  }

  /** Quarantined pages read back as the fingerprint they are named by. */
  ghost predicate OwnFingerprints(quarantine: map<QuarantineName, string>) {
    forall q <- quarantine :: ReadFingerprint(quarantine[q]) == Some(q.fingerprint)
  }

  ghost predicate Remembered(fingerprints: map<QuarantineName, set<Fingerprint>>, quarantine: map<QuarantineName, string>) {
    fingerprints.Keys == quarantine.Keys && forall q <- quarantine :: fingerprints[q] == {q.fingerprint}
  }

  /** What every step keeps: all but the log agrees with the vault. */
  ghost predicate Sound(k: Kept) {
    && k.cache.files == k.vault.files
    && PagesAgree(k.cache, k.vault.files)
    && OwnFingerprints(k.vault.files.quarantine)
    && Remembered(k.cache.fingerprints, k.vault.files.quarantine)
    && k.cache.operational == LoadOperational(k.vault.files)
  }

  /** Everything but the log, and the generations that pages are labelled with, is what a fresh compiler
    * would rebuild. */
  lemma SoundIsLoaded(k: Kept)
    requires Sound(k)
    ensures var rebuilt := Load(k.vault);
            && k.cache.files == rebuilt.files && k.cache.hashes == rebuilt.hashes
            && k.cache.fingerprints == rebuilt.fingerprints && k.cache.operational == rebuilt.operational
            && SamePages(k.cache.pages, rebuilt.pages)
  {
    assert forall q <- k.cache.fingerprints :: k.cache.fingerprints[q] == LoadFingerprints(k.vault.files)[q];
  }

  lemma LoadIsSound(v: Vault)
    requires OwnFingerprints(v.files.quarantine)
    ensures Sound(Kept(Load(v), v))
  {
  }

  /** Digests are words. */
  ghost predicate IsHex(hex: string -> string) {
    forall content :: hex(content) != "" && NoSpaceIn(hex(content))
  }

  /** A candidate whose quarantined page would read back as itself. */
  predicate ReadsBackIfQuarantined(op: Op) {
    op.CompileOp? ==> ReadsBack(PageName(op.c.sourceReference), op.c.content, CandidateFingerprint(op.c))
  }

  /** Every page is readable, and shows its own file. */
  ghost predicate Shown(pages: map<string, Page>, wiki: map<string, string>) {
    forall path <- pages :: Readable(path, pages[path].meta, wiki) && pages[path].text == wiki[path]
  }

  lemma AgreementIsServed(k: Kept)
    requires Sound(k)
    ensures Shown(k.cache.pages, k.cache.files.wiki) && k.cache.hashes.Keys == k.cache.pages.Keys
  {
  }

  lemma AcceptedIsReadable(c: Candidate, sensitive: bool, hex: string -> string)
    requires Verdict(c, sensitive, hex) == None
    ensures !IsBlank(c.sourceIdentity) && !IsBlank(c.contentHash) && "wiki/" <= PagePath(c.sourceReference)
  {
    TrimLeavesNoOuterSpace(c.sourceIdentity);
    assert Trim(c.sourceIdentity) == "" ==> Lower(Trim(c.sourceIdentity)) == "";
    assert c.contentHash[0] == 's';
  }

  lemma AcceptedHashIsHash(c: Candidate, sensitive: bool, hex: string -> string)
    requires Verdict(c, sensitive, hex) == None && IsHex(hex)
    ensures IsContentHash(c.contentHash)
  {
    assert c.contentHash == "sha256:" + hex(c.content);
    assert NoSpaceIn("sha256:");
  }

  /** An index written for such records is read back as them. */
  lemma RecordsAreReadBack(files: Files, records: map<string, Page>)
    requires files.projection == Some(ListedOf(records)) && Shown(records, files.wiki)
    ensures LoadPages(files) == records
  {
  }

  lemma AppliedRecordsAgree(hashes: map<string, string>, files: Files, records: map<string, Page>, sequence: nat)
    requires files.projection == Some(ListedOf(records)) && Shown(records, files.wiki) && hashes.Keys <= records.Keys
    ensures SamePages(InGeneration(records, sequence), LoadPages(files))
    ensures AreHashesOf(hashes + HashesOf(records), InGeneration(records, sequence))
  {
    RecordsAreReadBack(files, records);
  }

  lemma PublishRecordsIsSound(k: Kept, files: Files, records: map<string, Page>, fingerprints: map<QuarantineName, set<Fingerprint>>,
                              outcome: Outcome, now: string, evidence: string, hash: string, accepts: bool)
    requires Sound(k) && Shown(records, files.wiki) && k.cache.hashes.Keys <= records.Keys
    requires OwnFingerprints(files.quarantine) && Remembered(fingerprints, files.quarantine)
    requires files.operationalIndex == k.cache.files.operationalIndex
    ensures Sound(PublishRecords(k, files, records, fingerprints, outcome, now, evidence, hash, accepts).kept)
  {
    var after := PublishRecords(k, files, records, fingerprints, outcome, now, evidence, hash, accepts).kept;
    if accepts {
      AppliedRecordsAgree(k.cache.hashes, after.vault.files, records, |k.vault.entries| + 1);
      assert PagesAgree(after.cache, after.vault.files);
    }
  }

  lemma ReplacedRecordsAreShown(pages: map<string, Page>, wiki: map<string, string>, path: string, page: Page, generation: nat)
    requires Shown(pages, wiki) && Readable(path, page.meta, wiki[path := page.text])
    ensures Shown(RecordsFor(pages, generation, map[path := page], {}), wiki[path := page.text])
  {
    var records := RecordsFor(pages, generation, map[path := page], {});
    forall other | other in records
      ensures Readable(other, records[other].meta, wiki[path := page.text]) && records[other].text == wiki[path := page.text][other]
    {
      if other != path {
        assert records[other].meta == pages[other].meta;
      }
    }
  }

  lemma PublishPageIsSound(k: Kept, c: Candidate, path: string, text: string, now: string, accepts: bool)
    requires Sound(k) && !IsBlank(c.sourceIdentity) && !IsBlank(c.contentHash) && "wiki/" <= path
    ensures Sound(PublishPage(k, c, path, text, now, accepts).kept)
  {
    AgreementIsServed(k);
    var generation := |k.cache.log| + 1;
    var records := RecordsFor(k.cache.pages, generation, map[path := PageOf(c, text, generation)], {});
    ReplacedRecordsAreShown(k.cache.pages, k.cache.files.wiki, path, PageOf(c, text, generation), generation);
    PublishRecordsIsSound(k, PageFiles(k.cache.files, path, text), records, k.cache.fingerprints,
                          WasCompiled, now, c.evidence, c.contentHash, accepts);
  }

  lemma QuarantineIsRemembered(quarantine: map<QuarantineName, string>, fingerprints: map<QuarantineName, set<Fingerprint>>,
                               q: QuarantineName, text: string)
    requires OwnFingerprints(quarantine) && Remembered(fingerprints, quarantine) && ReadFingerprint(text) == Some(q.fingerprint)
    ensures OwnFingerprints(quarantine[q := text]) && Remembered(Remember(fingerprints, q), quarantine[q := text])
  {
  }

  lemma PublishQuarantineIsSound(k: Kept, c: Candidate, path: string, q: QuarantineName, text: string, now: string, accepts: bool)
    requires Sound(k) && ReadFingerprint(text) == Some(q.fingerprint)
    ensures Sound(PublishQuarantine(k, c, path, q, text, now, accepts).kept)
  {
    AgreementIsServed(k);
    var records := RecordsFor(k.cache.pages, |k.cache.log| + 1, map[], {path} * k.cache.pages.Keys);
    QuarantineIsRemembered(k.cache.files.quarantine, k.cache.fingerprints, q, text);
    assert Shown(records, k.cache.files.wiki);
    PublishRecordsIsSound(k, QuarantineFiles(k.cache.files, q, text), records, Remember(k.cache.fingerprints, q),
                          WasQuarantined, now, c.evidence, c.contentHash, accepts);
  }

  lemma PublishOutputIsSound(k: Kept, o: Output, text: string, now: string, accepts: bool)
    requires Sound(k)
    ensures Sound(PublishOutput(k, o, text, now, accepts).kept)
  {
  }

  lemma CompileIsSound(k: Kept, c: Candidate, r: Rendering, now: string, accepts: bool)
    requires Sound(k) && !IsBlank(c.sourceIdentity) && !IsBlank(c.contentHash) && "wiki/" <= r.path
    requires ReadFingerprint(r.quarantined) == Some(r.q.fingerprint)
    ensures Sound(CompileStep(k, c, r, now, accepts).kept)
  {
    PublishPageIsSound(k, c, r.path, r.page, now, accepts);
    PublishQuarantineIsSound(k, c, r.path, r.q, r.quarantined, now, accepts);
  }

  lemma FileIsSound(k: Kept, o: Output, r: OutputRendering, now: string, accepts: bool)
    requires Sound(k)
    ensures Sound(FileStep(k, o, r, now, accepts).kept)
  {
    PublishOutputIsSound(k, o, r.text, now, accepts);
  }

  lemma CompileOpIsSound(k: Kept, op: Op, hex: string -> string)
    requires Sound(k) && IsHex(hex) && ReadsBackIfQuarantined(op) && op.CompileOp?
    ensures Sound(Step(k, op, hex).kept)
  {
    var c := op.c;
    if Verdict(c, op.sensitive, hex) == None {
      AcceptedIsReadable(c, op.sensitive, hex);
      AcceptedHashIsHash(c, op.sensitive, hex);
      QuarantineReadsBack(PageName(c.sourceReference), c.content, CandidateFingerprint(c));
      CompileIsSound(k, c, Rendered(c), op.now, op.accepts);
    }
  }

  lemma StepIsSound(k: Kept, op: Op, hex: string -> string)
    requires Sound(k) && IsHex(hex) && ReadsBackIfQuarantined(op)
    ensures Sound(Step(k, op, hex).kept)
  {
    match op
    case CompileOp(_, _, _, _) => CompileOpIsSound(k, op, hex);
    case FileOp(o, sensitive, datesParse, normalized, now, accepts) => FileIsSound(k, o, RenderedOutput(o), now, accepts);
  }

  /** Over every run of a compiler that has read its root, from a vault whose quarantined pages read back as
    * themselves and with candidates that would, whatever the vault refuses on the way: the cache but for its
    * log is what a fresh compiler opened on the vault rebuilds. */
  lemma {:induction false} CacheEqualsStore(v: Vault, ops: seq<Op>, hex: string -> string)
    requires OwnFingerprints(v.files.quarantine) && IsHex(hex) && forall op <- ops :: ReadsBackIfQuarantined(op)
    ensures Sound(Run(Kept(Load(v), v), ops, hex))
  {
    if ops == [] {
      LoadIsSound(v);
    } else {
      var earlier := ops[..|ops| - 1];
      CacheEqualsStore(v, earlier, hex);
      StepIsSound(Run(Kept(Load(v), v), earlier, hex), ops[|ops| - 1], hex);
    }
  }
}
