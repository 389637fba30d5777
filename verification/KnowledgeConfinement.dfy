/** What every run of the Knowledge compiler keeps of a root's Trust Domain: nothing is served from a root
  * that its own domain's registered sources did not give, with a citation, and under a path of its kind.
  */
module KnowledgeConfinement {
  import opened Contracts
  import opened KnowledgeAgreement
  import opened KnowledgeCompiler
  import opened KnowledgeSessions
  import opened KnowledgeText
  import opened Wrappers

  /** An operation on the root of a domain. */
  predicate OfDomain(op: Op, domain: TrustDomain) {
    match op
    case CompileOp(c, _, _, _) => c.domain == domain
    case FileOp(o, _, _, _, _, _) => o.root == Domain(domain) || o.root == CeoRoot
  }

  predicate PageConfined(path: string, meta: Meta, domain: TrustDomain) {
    "wiki/" <= path && Registered(meta.sourceIdentity) == Some(domain) && meta.citations != []
  }

  predicate OutputConfined(r: OperationalRecord, domain: TrustDomain) {
    && ("daily/" <= r.path || "outputs/" <= r.path)
    && Registered(r.sourceIdentity) == Some(domain) && r.citations != []
    && OutputPrefix(r.sourceIdentity) <= r.sourceReference
  }

  ghost predicate PagesConfined(pages: map<string, Page>, domain: TrustDomain) {
    forall path <- pages :: PageConfined(path, pages[path].meta, domain)
  }

  ghost predicate OutputsConfined(records: map<string, OperationalRecord>, domain: TrustDomain) {
    forall key <- records :: OutputConfined(records[key], domain)
  }

  /** What a set of files serves when it is loaded. */
  ghost predicate FilesConfined(files: Files, domain: TrustDomain) {
    PagesConfined(LoadPages(files), domain) && OutputsConfined(LoadOperational(files), domain)
  }

  /** Nothing is served, now or after a restart, that is not the domain's. */
  ghost predicate Confined(k: Kept, domain: TrustDomain) {
    && PagesConfined(k.cache.pages, domain) && OutputsConfined(k.cache.operational, domain)
    && FilesConfined(k.cache.files, domain) && FilesConfined(k.vault.files, domain)
  }

  lemma LoadIsConfined(v: Vault, domain: TrustDomain)
    requires FilesConfined(v.files, domain)
    ensures Confined(Kept(Load(v), v), domain)
  {
  }

  lemma IndexedRecordsAreConfined(files: Files, records: map<string, Page>, domain: TrustDomain)
    requires PagesConfined(records, domain) && OutputsConfined(LoadOperational(files), domain)
    ensures FilesConfined(files.(projection := Some(ListedOf(records))), domain)
    ensures forall log :: FilesConfined(files.(projection := Some(ListedOf(records)), log := log), domain)
  {
  }

  lemma RecordsAreConfined(pages: map<string, Page>, generation: nat, replacement: map<string, Page>, contested: set<string>, domain: TrustDomain)
    requires PagesConfined(pages, domain) && PagesConfined(replacement, domain)
    ensures PagesConfined(RecordsFor(pages, generation, replacement, contested), domain)
  {
    var records := RecordsFor(pages, generation, replacement, contested);
    assert forall path <- records :: records[path].meta == if path in replacement then replacement[path].meta else pages[path].meta;
  }

  lemma PublishedRecordsAreConfined(k: Kept, files: Files, records: map<string, Page>, fingerprints: map<QuarantineName, set<Fingerprint>>,
                                    outcome: Outcome, now: string, evidence: string, hash: string, accepts: bool, domain: TrustDomain)
    requires Confined(k, domain) && PagesConfined(records, domain) && files.operationalIndex == k.cache.files.operationalIndex
    ensures Confined(PublishRecords(k, files, records, fingerprints, outcome, now, evidence, hash, accepts).kept, domain)
  {
  }

  lemma PageIsConfined(k: Kept, c: Candidate, path: string, text: string, now: string, accepts: bool, domain: TrustDomain)
    requires Confined(k, domain) && PageConfined(path, PageOf(c, text, 0).meta, domain)
    ensures Confined(PublishPage(k, c, path, text, now, accepts).kept, domain)
  {
    var generation := |k.cache.log| + 1;
    var replacement := map[path := PageOf(c, text, generation)];
    RecordsAreConfined(k.cache.pages, generation, replacement, {}, domain);
    PublishedRecordsAreConfined(k, PageFiles(k.cache.files, path, text), RecordsFor(k.cache.pages, generation, replacement, {}),
                                k.cache.fingerprints, WasCompiled, now, c.evidence, c.contentHash, accepts, domain);
  }

  lemma QuarantineIsConfined(k: Kept, c: Candidate, path: string, q: QuarantineName, text: string, now: string, accepts: bool, domain: TrustDomain)
    requires Confined(k, domain)
    ensures Confined(PublishQuarantine(k, c, path, q, text, now, accepts).kept, domain)
  {
    var generation, contested := |k.cache.log| + 1, {path} * k.cache.pages.Keys;
    RecordsAreConfined(k.cache.pages, generation, map[], contested, domain);
    PublishedRecordsAreConfined(k, QuarantineFiles(k.cache.files, q, text), RecordsFor(k.cache.pages, generation, map[], contested),
                                Remember(k.cache.fingerprints, q), WasQuarantined, now, c.evidence, c.contentHash, accepts, domain);
  }

  lemma OutputIsConfined(k: Kept, o: Output, text: string, now: string, accepts: bool, domain: TrustDomain)
    requires Confined(k, domain) && OutputConfined(o.record, domain)
    ensures Confined(PublishOutput(k, o, text, now, accepts).kept, domain)
  {
  }

  lemma CompileIsConfined(k: Kept, c: Candidate, r: Rendering, now: string, accepts: bool, domain: TrustDomain)
    requires Confined(k, domain) && PageConfined(r.path, PageOf(c, r.page, 0).meta, domain)
    ensures Confined(CompileStep(k, c, r, now, accepts).kept, domain)
  {
    PageIsConfined(k, c, r.path, r.page, now, accepts, domain);
    QuarantineIsConfined(k, c, r.path, r.q, r.quarantined, now, accepts, domain);
  }

  lemma FileIsConfined(k: Kept, o: Output, r: OutputRendering, now: string, accepts: bool, domain: TrustDomain)
    requires Confined(k, domain) && OutputConfined(o.record, domain)
    ensures Confined(FileStep(k, o, r, now, accepts).kept, domain)
  {
    OutputIsConfined(k, o, r.text, now, accepts, domain);
  }

  /** An accepted candidate is registered for its own domain, cited, and compiled to a wiki path. */
  lemma AcceptedCandidateIsConfined(c: Candidate, sensitive: bool, hex: string -> string, text: string)
    requires Verdict(c, sensitive, hex) == None
    ensures PageConfined(PagePath(c.sourceReference), PageOf(c, text, 0).meta, c.domain) && !sensitive
    ensures c.contentHash == HashOf(hex, c.content)
  {
  }

  /** An accepted output names a domain's root, never the CEO's, lies under one of the two directories for
    * outputs by a path without dots, and comes from its own source's namespace. */
  lemma AcceptedOutputIsConfined(o: Output, sensitive: bool, datesParse: bool, normalized: string, hex: string -> string)
    requires OutputVerdict(o, sensitive, datesParse, normalized, hex) == None
    ensures o.root.Domain? && OutputConfined(o.record, o.root.domain) && normalized == o.record.path && !sensitive
    ensures o.record.contentHash == HashOf(hex, o.content) && Cites(o.record) && CitesSource(o.record)
  {
  }

  lemma CompileOpIsConfined(k: Kept, op: Op, hex: string -> string, domain: TrustDomain)
    requires Confined(k, domain) && op.CompileOp? && op.c.domain == domain
    ensures Confined(Step(k, op, hex).kept, domain)
  {
    if Verdict(op.c, op.sensitive, hex) == None {
      AcceptedCandidateIsConfined(op.c, op.sensitive, hex, RenderPage(op.c));
      CompileIsConfined(k, op.c, Rendered(op.c), op.now, op.accepts, domain);
    }
  }

  lemma FileOpIsConfined(k: Kept, op: Op, hex: string -> string, domain: TrustDomain)
    requires Confined(k, domain) && op.FileOp? && OfDomain(op, domain)
    ensures Confined(Step(k, op, hex).kept, domain)
  {
    if OutputVerdict(op.o, op.sensitive, op.datesParse, op.normalized, hex) == None {
      AcceptedOutputIsConfined(op.o, op.sensitive, op.datesParse, op.normalized, hex);
      FileIsConfined(k, op.o, RenderedOutput(op.o), op.now, op.accepts, domain);
    }
  }

  lemma EventIsConfined(s: Session, e: Event, hex: string -> string, domain: TrustDomain)
    requires Confined(Seen(s), domain) && (e.Do? ==> OfDomain(e.op, domain))
    ensures Confined(Seen(Go(s, e, hex).session), domain)
  {
    if CannotRead(s, e, hex) {
      assert LoadPages(NO_FILES) == map[];
    } else {
      match e
      case Restart => LoadIsConfined(s.vault, domain);
      case Look(_) => {}
      case Do(op, _) =>
        if op.CompileOp? {
          CompileOpIsConfined(Seen(s), op, hex, domain);
        } else {
          FileOpIsConfined(Seen(s), op, hex, domain);
        }
    }
  }

  /** Over every run of operations on a domain's root, of readers and restarts, and whatever the vault refuses
    * or fails to give, from any vault of which it holds: every served page and every operational record comes
    * from a source registered for that domain, carries a citation, and lies under a path of its kind, in
    * memory and in what a restart would load. */
  lemma {:induction false} EveryRunIsConfined(v: Vault, events: seq<Event>, hex: string -> string, domain: TrustDomain)
    requires FilesConfined(v.files, domain) && forall e <- events :: e.Do? ==> OfDomain(e.op, domain)
    ensures Confined(Seen(Sessions(v, events, hex)), domain)
  {
    if events == [] {
      LoadIsConfined(v, domain);
    } else {
      var earlier, last := events[..|events| - 1], events[|events| - 1];
      assert last in events;
      EveryRunIsConfined(v, earlier, hex, domain);
      EventIsConfined(Sessions(v, earlier, hex), last, hex, domain);
    }
  }
}
