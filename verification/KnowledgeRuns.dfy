/** Consequences of the agreement between the Knowledge compiler's memory and the vault: its log, the
  * generations it labels pages with, restarts, recompilation, quarantine, and filing under one key.
  */
module KnowledgeRuns {
  import opened KnowledgeAgreement
  import opened KnowledgeCompiler
  import opened KnowledgeText
  import opened Text
  import opened Wrappers

  predicate DidPublish(reply: Reply) {
    match reply
    case OfCompile(result) => result.Compiled? || result.Quarantined?
    case OfFiling(filing) => filing.Filed?
  }

  // ---------------------------------------------------------------- the log

  /** A published generation carries the whole log; one that the vault refused leaves its line behind;
    * anything else leaves the log and the vault alone. Lines are numbered by their place. */
  ghost predicate LogMoves(log: seq<Line>, v: Vault, after: Kept, published: bool, raised: bool) {
    && (published ==> |after.cache.log| == |log| + 1 && |after.vault.entries| == |v.entries| + 1
                      && after.vault.files.log == Some(after.cache.log))
    && (raised ==> |after.cache.log| == |log| + 1 && after.vault == v)
    && (!published && !raised ==> after.cache.log == log && after.vault == v)
    && log <= after.cache.log
    && (Numbered(log) ==> Numbered(after.cache.log))
  }

  lemma PublishLogs(k: Kept, files: Files, outcome: Outcome, now: string, evidence: string, hash: string, accepts: bool)
    ensures LogMoves(k.cache.log, k.vault, Publish(k, files, outcome, now, evidence, hash, accepts).kept, accepts, !accepts)
  {
  }

  lemma RecordsLog(k: Kept, files: Files, records: map<string, Page>, fingerprints: map<QuarantineName, set<Fingerprint>>,
                   outcome: Outcome, now: string, evidence: string, hash: string, accepts: bool)
    ensures LogMoves(k.cache.log, k.vault, PublishRecords(k, files, records, fingerprints, outcome, now, evidence, hash, accepts).kept,
                     accepts, !accepts)
  {
    PublishLogs(k, files.(projection := Some(ListedOf(records))), outcome, now, evidence, hash, accepts);
  }

  lemma CompileLogs(k: Kept, c: Candidate, r: Rendering, now: string, accepts: bool)
    ensures var s := CompileStep(k, c, r, now, accepts);
            LogMoves(k.cache.log, k.vault, s.kept, s.result.Compiled? || s.result.Quarantined?, s.result == Raised)
  {
    if !Repeats(k.cache, c, r) && !(Contradicts(k.cache.files, r) && AlreadyQuarantined(k.cache, r.q)) {
      var generation := |k.cache.log| + 1;
      if Contradicts(k.cache.files, r) {
        var records := RecordsFor(k.cache.pages, generation, map[], {r.path} * k.cache.pages.Keys);
        RecordsLog(k, QuarantineFiles(k.cache.files, r.q, r.quarantined), records, Remember(k.cache.fingerprints, r.q),
                   WasQuarantined, now, c.evidence, c.contentHash, accepts);
      } else {
        var records := RecordsFor(k.cache.pages, generation, map[r.path := PageOf(c, r.page, generation)], {});
        RecordsLog(k, PageFiles(k.cache.files, r.path, r.page), records, k.cache.fingerprints,
                   WasCompiled, now, c.evidence, c.contentHash, accepts);
      }
    }
  }

  lemma FileLogs(k: Kept, o: Output, r: OutputRendering, now: string, accepts: bool)
    ensures var s := FileStep(k, o, r, now, accepts); LogMoves(k.cache.log, k.vault, s.kept, s.filing.Filed?, s.filing == FilingRaised)
  {
    var records := k.cache.operational[o.key := o.record];
    PublishLogs(k, OutputFiles(k.cache.files, o.record.path, r.text, records), WasOperational, now,
                o.record.evidence, o.record.contentHash, accepts);
  }

  ghost predicate Numbered(log: seq<Line>) {
    forall i :: 0 <= i < |log| ==> log[i].sequence == i + 1
  }

  lemma CompileOpLogs(k: Kept, op: Op, hex: string -> string)
    requires op.CompileOp?
    ensures var done := Step(k, op, hex); LogMoves(k.cache.log, k.vault, done.kept, DidPublish(done.reply), DidRaise(done.reply))
  {
    CompileLogs(k, op.c, Rendered(op.c), op.now, op.accepts);
  }

  lemma StepLogs(k: Kept, op: Op, hex: string -> string)
    ensures var done := Step(k, op, hex); LogMoves(k.cache.log, k.vault, done.kept, DidPublish(done.reply), DidRaise(done.reply))
  {
    match op
    case CompileOp(_, _, _, _) => CompileOpLogs(k, op, hex);
    case FileOp(o, sensitive, datesParse, normalized, now, accepts) => FileLogs(k, o, RenderedOutput(o), now, accepts);
  }

  function RaisedIn(replies: seq<Reply>): nat {
    if replies == [] then 0 else RaisedIn(replies[..|replies| - 1]) + if DidRaise(replies[|replies| - 1]) then 1 else 0
  }

  /** How many publications the vault refused since the last it accepted. */
  function RaisedSince(replies: seq<Reply>): nat {
    if replies == [] || DidPublish(replies[|replies| - 1]) then 0
    else RaisedSince(replies[..|replies| - 1]) + if DidRaise(replies[|replies| - 1]) then 1 else 0
  }

  /** Over every run, the log holds a line for every generation of the vault and one more for every
    * publication the vault refused: as many lines as generations exactly when it refused none. */
  lemma {:induction false} LogCountsGenerations(v: Vault, ops: seq<Op>, hex: string -> string)
    requires |LoadLog(v)| == |v.entries| && Numbered(LoadLog(v))
    ensures var k := Run(Kept(Load(v), v), ops, hex);
            && |k.cache.log| == |k.vault.entries| + RaisedIn(Replies(Kept(Load(v), v), ops, hex))
            && Numbered(k.cache.log)
  {
    if ops != [] {
      var earlier := ops[..|ops| - 1];
      LogCountsGenerations(v, earlier, hex);
      StepLogs(Run(Kept(Load(v), v), earlier, hex), ops[|ops| - 1], hex);
    }
  }

  /** Over every run, the log a fresh compiler would rebuild is the log in memory, without the lines of
    * publications refused since the last accepted one. */
  lemma {:induction false} LogEqualsStore(v: Vault, ops: seq<Op>, hex: string -> string)
    ensures var k := Run(Kept(Load(v), v), ops, hex);
            var refused := RaisedSince(Replies(Kept(Load(v), v), ops, hex));
            refused <= |k.cache.log| && LoadLog(k.vault) == k.cache.log[..|k.cache.log| - refused]
  {
    if ops != [] {
      var earlier := ops[..|ops| - 1];
      LogEqualsStore(v, earlier, hex);
      StepLogs(Run(Kept(Load(v), v), earlier, hex), ops[|ops| - 1], hex);
    }
  }

  // ---------------------------------------------------------------- generations of pages

  ghost predicate LabelledBy(pages: map<string, Page>, generation: nat) {
    forall path <- pages :: pages[path].generation == generation
  }

  lemma SameLabelledPages(a: map<string, Page>, b: map<string, Page>, generation: nat)
    requires SamePages(a, b) && LabelledBy(a, generation)
    ensures a == InGeneration(b, generation)
    ensures LabelledBy(b, generation) ==> a == b
  {
    assert forall path <- b :: a[path] == Page(b[path].meta, b[path].text, b[path].contested, generation);
    assert LabelledBy(b, generation) ==> forall path <- b :: a[path] == b[path];
  }

  /** Records of the next generation leave every page labelled with it, in memory and in the vault. */
  lemma RecordsLabel(k: Kept, files: Files, records: map<string, Page>, fingerprints: map<QuarantineName, set<Fingerprint>>,
                     outcome: Outcome, now: string, evidence: string, hash: string, accepts: bool)
    requires LabelledBy(records, |k.vault.entries| + 1)
    ensures var applied := PublishRecords(k, files, records, fingerprints, outcome, now, evidence, hash, accepts);
            var after := applied.kept;
            applied.sequence.Some? ==>
              LabelledBy(after.cache.pages, |after.vault.entries|) && LabelledBy(LoadPages(after.vault.files), |after.vault.entries|)
  {
  }

  lemma CompileLabels(k: Kept, c: Candidate, r: Rendering, now: string, accepts: bool)
    requires |k.cache.log| == |k.vault.entries|
    ensures var s := CompileStep(k, c, r, now, accepts);
            s.result.Compiled? || s.result.Quarantined? ==>
              LabelledBy(s.kept.cache.pages, |s.kept.vault.entries|) && LabelledBy(LoadPages(s.kept.vault.files), |s.kept.vault.entries|)
  {
    var generation := |k.cache.log| + 1;
    if Contradicts(k.cache.files, r) {
      var records := RecordsFor(k.cache.pages, generation, map[], {r.path} * k.cache.pages.Keys);
      RecordsLabel(k, QuarantineFiles(k.cache.files, r.q, r.quarantined), records, Remember(k.cache.fingerprints, r.q),
                   WasQuarantined, now, c.evidence, c.contentHash, accepts);
    } else {
      var records := RecordsFor(k.cache.pages, generation, map[r.path := PageOf(c, r.page, generation)], {});
      RecordsLabel(k, PageFiles(k.cache.files, r.path, r.page), records, k.cache.fingerprints,
                   WasCompiled, now, c.evidence, c.contentHash, accepts);
    }
  }

  /** Filing relabels the pages in memory only. */
  lemma FilingLabels(k: Kept, o: Output, r: OutputRendering, now: string, accepts: bool)
    requires k.cache.files == k.vault.files
    ensures var s := FileStep(k, o, r, now, accepts);
            s.filing.Filed? ==>
              LabelledBy(s.kept.cache.pages, |s.kept.vault.entries|) && LoadPages(s.kept.vault.files) == LoadPages(k.vault.files)
  {
  }

  lemma KeptIsLoaded(k: Kept)
    requires Sound(k) && k.cache.log == LoadLog(k.vault) && k.cache.pages == LoadPages(k.vault.files)
    ensures k.cache == Load(k.vault)
  {
    SoundIsLoaded(k);
  }

  /** Right after a compilation or a quarantine, a fresh compiler rebuilds the whole cache, generations
    * included. */
  lemma CompiledCacheIsReloaded(k: Kept, c: Candidate, sensitive: bool, now: string, accepts: bool, hex: string -> string)
    requires Sound(k) && |k.cache.log| == |k.vault.entries| && IsHex(hex)
    requires ReadsBackIfQuarantined(CompileOp(c, sensitive, now, accepts))
    requires DidPublish(Step(k, CompileOp(c, sensitive, now, accepts), hex).reply)
    ensures var after := Step(k, CompileOp(c, sensitive, now, accepts), hex).kept; after.cache == Load(after.vault)
  {
    var op := CompileOp(c, sensitive, now, accepts);
    var after := Step(k, op, hex).kept;
    StepIsSound(k, op, hex);
    CompileLogs(k, c, Rendered(c), now, accepts);
    CompileLabels(k, c, Rendered(c), now, accepts);
    SameLabelledPages(after.cache.pages, LoadPages(after.vault.files), |after.vault.entries|);
    KeptIsLoaded(after);
  }

  /** Right after a filing, a fresh compiler rebuilds the whole cache but for the generation of its pages:
    * in memory they move to the new one, in the vault they keep their old one. */
  lemma FiledCacheDiffersInGenerations(k: Kept, o: Output, r: OutputRendering, now: string, accepts: bool)
    requires Sound(k) && FileStep(k, o, r, now, accepts).filing.Filed?
    requires forall path <- LoadPages(k.vault.files) :: LoadPages(k.vault.files)[path].generation <= |k.vault.entries|
    ensures var after := FileStep(k, o, r, now, accepts).kept;
            var rebuilt := Load(after.vault);
            && after.cache == rebuilt.(pages := InGeneration(rebuilt.pages, |after.vault.entries|))
            && (after.cache == rebuilt <==> after.cache.pages == map[])
  {
    var after := FileStep(k, o, r, now, accepts).kept;
    FileIsSound(k, o, r, now, accepts);
    FileLogs(k, o, r, now, accepts);
    FilingLabels(k, o, r, now, accepts);
    SoundIsLoaded(after);
    SameLabelledPages(after.cache.pages, LoadPages(after.vault.files), |after.vault.entries|);
    if path :| path in after.cache.pages {
      assert after.cache.pages[path] != LoadPages(after.vault.files)[path];
    }
  }

  // ---------------------------------------------------------------- restarts

  /** Two compilers over one vault that differ only in the generations of their pages. */
  ghost predicate Alike(a: Kept, b: Kept) {
    && a.vault == b.vault
    && a.cache.files == b.cache.files && a.cache.hashes == b.cache.hashes && a.cache.fingerprints == b.cache.fingerprints
    && a.cache.log == b.cache.log && a.cache.operational == b.cache.operational
    && SamePages(a.cache.pages, b.cache.pages)
  }

  lemma SameRecords(a: map<string, Page>, b: map<string, Page>, generation: nat, replacement: map<string, Page>, contested: set<string>)
    requires SamePages(a, b)
    ensures RecordsFor(a, generation, replacement, contested) == RecordsFor(b, generation, replacement, contested)
  {
    var x, y := RecordsFor(a, generation, replacement, contested), RecordsFor(b, generation, replacement, contested);
    assert forall path <- x :: x[path] == y[path];
  }

  lemma AlikeCompileOp(a: Kept, b: Kept, op: Op, hex: string -> string)
    requires Alike(a, b) && op.CompileOp?
    ensures Step(a, op, hex).reply == Step(b, op, hex).reply && Alike(Step(a, op, hex).kept, Step(b, op, hex).kept)
  {
    AlikeCompile(a, b, op.c, Rendered(op.c), op.now, op.accepts);
  }

  lemma AlikeStep(a: Kept, b: Kept, op: Op, hex: string -> string)
    requires Alike(a, b)
    ensures Step(a, op, hex).reply == Step(b, op, hex).reply && Alike(Step(a, op, hex).kept, Step(b, op, hex).kept)
  {
    match op
    case CompileOp(_, _, _, _) => AlikeCompileOp(a, b, op, hex);
    case FileOp(o, sensitive, datesParse, normalized, now, accepts) =>
      AlikeFile(a, b, o, RenderedOutput(o), now, accepts);
  }

  lemma AlikeRecords(a: Kept, b: Kept, files: Files, records: map<string, Page>, fingerprints: map<QuarantineName, set<Fingerprint>>,
                     outcome: Outcome, now: string, evidence: string, hash: string, accepts: bool)
    requires Alike(a, b)
    ensures var x := PublishRecords(a, files, records, fingerprints, outcome, now, evidence, hash, accepts);
            var y := PublishRecords(b, files, records, fingerprints, outcome, now, evidence, hash, accepts);
            x.sequence == y.sequence && Alike(x.kept, y.kept)
  {
  }

  lemma AlikePage(a: Kept, b: Kept, c: Candidate, path: string, text: string, now: string, accepts: bool)
    requires Alike(a, b)
    ensures var x, y := PublishPage(a, c, path, text, now, accepts), PublishPage(b, c, path, text, now, accepts);
            x.result == y.result && Alike(x.kept, y.kept)
  {
    var generation := |a.cache.log| + 1;
    var page := PageOf(c, text, generation);
    SameRecords(a.cache.pages, b.cache.pages, generation, map[path := page], {});
    AlikeRecords(a, b, PageFiles(a.cache.files, path, text), RecordsFor(a.cache.pages, generation, map[path := page], {}),
                 a.cache.fingerprints, WasCompiled, now, c.evidence, c.contentHash, accepts);
  }

  lemma AlikeQuarantine(a: Kept, b: Kept, c: Candidate, path: string, q: QuarantineName, text: string, now: string, accepts: bool)
    requires Alike(a, b)
    ensures var x, y := PublishQuarantine(a, c, path, q, text, now, accepts), PublishQuarantine(b, c, path, q, text, now, accepts);
            x.result == y.result && Alike(x.kept, y.kept)
  {
    var generation := |a.cache.log| + 1;
    var contested := {path} * a.cache.pages.Keys;
    SameRecords(a.cache.pages, b.cache.pages, generation, map[], contested);
    AlikeRecords(a, b, QuarantineFiles(a.cache.files, q, text), RecordsFor(a.cache.pages, generation, map[], contested),
                 Remember(a.cache.fingerprints, q), WasQuarantined, now, c.evidence, c.contentHash, accepts);
  }

  lemma AlikeCompile(a: Kept, b: Kept, c: Candidate, r: Rendering, now: string, accepts: bool)
    requires Alike(a, b)
    ensures var x, y := CompileStep(a, c, r, now, accepts), CompileStep(b, c, r, now, accepts);
            x.result == y.result && Alike(x.kept, y.kept)
  {
    if Contradicts(a.cache.files, r) {
      AlikeQuarantine(a, b, c, r.path, r.q, r.quarantined, now, accepts);
    } else {
      AlikePage(a, b, c, r.path, r.page, now, accepts);
    }
  }

  lemma AlikeFile(a: Kept, b: Kept, o: Output, r: OutputRendering, now: string, accepts: bool)
    requires Alike(a, b)
    ensures var x, y := FileStep(a, o, r, now, accepts), FileStep(b, o, r, now, accepts);
            x.filing == y.filing && Alike(x.kept, y.kept)
  {
  }

  lemma {:induction false} AlikeRuns(a: Kept, b: Kept, ops: seq<Op>, hex: string -> string)
    requires Alike(a, b)
    ensures Replies(a, ops, hex) == Replies(b, ops, hex) && Alike(Run(a, ops, hex), Run(b, ops, hex))
  {
    if ops != [] {
      var earlier := ops[..|ops| - 1];
      AlikeRuns(a, b, earlier, hex);
      AlikeStep(Run(a, earlier, hex), Run(b, earlier, hex), ops[|ops| - 1], hex);
    }
  }

  /** A restart cannot be noticed: after any run in which the vault refused nothing since the last
    * publication, a fresh compiler answers every later run of operations alike, and leaves the same vault. */
  lemma RestartIsInvisible(v: Vault, ops: seq<Op>, later: seq<Op>, hex: string -> string)
    requires OwnFingerprints(v.files.quarantine) && IsHex(hex) && forall op <- ops :: ReadsBackIfQuarantined(op)
    requires RaisedSince(Replies(Kept(Load(v), v), ops, hex)) == 0
    ensures var k := Run(Kept(Load(v), v), ops, hex);
            var restarted := Kept(Load(k.vault), k.vault);
            Replies(k, later, hex) == Replies(restarted, later, hex) && Run(k, later, hex).vault == Run(restarted, later, hex).vault
  {
    var k := Run(Kept(Load(v), v), ops, hex);
    CacheEqualsStore(v, ops, hex);
    SoundIsLoaded(k);
    LogEqualsStore(v, ops, hex);
    AlikeRuns(k, Kept(Load(k.vault), k.vault), later, hex);
  }

  // ---------------------------------------------------------------- compiling again

  /** How a compiler answers a candidate it has just handled. */
  function Echo(result: Compilation): Compilation {
    match result
    case Compiled(_, path) => Unchanged(PageFile(path))
    case Quarantined(q) => Unchanged(QuarantineFile(q))
    case _ => result
  }

  lemma CompiledIsRepeated(k: Kept, c: Candidate, r: Rendering, now: string, accepts: bool)
    requires CompileStep(k, c, r, now, accepts).result.Compiled?
    ensures Repeats(CompileStep(k, c, r, now, accepts).kept.cache, c, r)
  {
  }

  lemma QuarantinedIsRemembered(k: Kept, c: Candidate, r: Rendering, now: string, accepts: bool)
    requires Sound(k) && CompileStep(k, c, r, now, accepts).result.Quarantined?
    ensures var cache := CompileStep(k, c, r, now, accepts).kept.cache;
            !Repeats(cache, c, r) && Contradicts(cache.files, r) && AlreadyQuarantined(cache, r.q)
  {
  }

  lemma EchoStep(k: Kept, c: Candidate, r: Rendering, now: string, accepts: bool, again: string, acceptsAgain: bool)
    requires Sound(k) && CompileStep(k, c, r, now, accepts).result != Raised
    ensures var first := CompileStep(k, c, r, now, accepts);
            CompileStep(first.kept, c, r, again, acceptsAgain) == Stepped(first.kept, Echo(first.result))
  {
    var first := CompileStep(k, c, r, now, accepts);
    if first.result.Compiled? {
      CompiledIsRepeated(k, c, r, now, accepts);
    } else if first.result.Quarantined? {
      QuarantinedIsRemembered(k, c, r, now, accepts);
    }
  }

  /** Compiling a candidate that was just compiled, quarantined, left alone or rejected publishes nothing
    * and changes nothing, and names the page or quarantine it went to. */
  lemma RecompilingPublishesNothing(k: Kept, c: Candidate, sensitive: bool, now: string, accepts: bool,
                                    again: string, acceptsAgain: bool, hex: string -> string)
    requires Sound(k)
    ensures var first := Step(k, CompileOp(c, sensitive, now, accepts), hex);
            first.reply != OfCompile(Raised) ==>
              Step(first.kept, CompileOp(c, sensitive, again, acceptsAgain), hex) == Done(first.kept, OfCompile(Echo(first.reply.result)))
  {
    if Verdict(c, sensitive, hex) == None && CompileStep(k, c, Rendered(c), now, accepts).result != Raised {
      EchoStep(k, c, Rendered(c), now, accepts, again, acceptsAgain);
    }
  }

  /** So does compiling it again after a restart. */
  lemma RecompilingAfterRestartPublishesNothing(v: Vault, ops: seq<Op>, c: Candidate, sensitive: bool, now: string, accepts: bool,
                                                again: string, acceptsAgain: bool, hex: string -> string)
    requires OwnFingerprints(v.files.quarantine) && IsHex(hex)
    requires forall op <- ops + [CompileOp(c, sensitive, now, accepts)] :: ReadsBackIfQuarantined(op)
    requires RaisedSince(Replies(Kept(Load(v), v), ops + [CompileOp(c, sensitive, now, accepts)], hex)) == 0
    ensures var first := Step(Run(Kept(Load(v), v), ops, hex), CompileOp(c, sensitive, now, accepts), hex);
            var second := Step(Kept(Load(first.kept.vault), first.kept.vault), CompileOp(c, sensitive, again, acceptsAgain), hex);
            second.reply == OfCompile(Echo(first.reply.result)) && second.kept.vault == first.kept.vault
  {
    var all := ops + [CompileOp(c, sensitive, now, accepts)];
    assert all[..|all| - 1] == ops;
    var k := Run(Kept(Load(v), v), ops, hex);
    CacheEqualsStore(v, ops, hex);
    var later := [CompileOp(c, sensitive, again, acceptsAgain)];
    RestartIsInvisible(v, all, later, hex);
    RecompilingPublishesNothing(k, c, sensitive, now, accepts, again, acceptsAgain, hex);
    RunOfOne(Run(Kept(Load(v), v), all, hex), later[0], hex);
    var after := Run(Kept(Load(v), v), all, hex);
    RunOfOne(Kept(Load(after.vault), after.vault), later[0], hex);
  }

  lemma RunOfOne(k: Kept, op: Op, hex: string -> string)
    ensures Run(k, [op], hex) == Step(k, op, hex).kept && Replies(k, [op], hex) == [Step(k, op, hex).reply]
  {
    assert [op][..0] == [];
  }

  lemma PublishedQuarantineIsRecognised(k: Kept, c: Candidate, path: string, q: QuarantineName, text: string, now: string)
    ensures AlreadyQuarantined(Load(PublishQuarantine(k, c, path, q, text, now, true).kept.vault), q) <==>
            ReadFingerprint(text) == Some(q.fingerprint)
  {
    assert PublishQuarantine(k, c, path, q, text, now, true).kept.vault.files.quarantine == k.cache.files.quarantine[q := text];
  }

  /** A fresh compiler knows a quarantine for what it is exactly when its page reads back as its
    * fingerprint; otherwise the same candidate is quarantined once more after a restart. */
  lemma QuarantineIsRecognisedIfReadBack(k: Kept, c: Candidate, r: Rendering, now: string, accepts: bool)
    requires CompileStep(k, c, r, now, accepts).result.Quarantined?
    ensures AlreadyQuarantined(Load(CompileStep(k, c, r, now, accepts).kept.vault), r.q) <==>
            ReadFingerprint(r.quarantined) == Some(r.q.fingerprint)
  {
    PublishedQuarantineIsRecognised(k, c, r.path, r.q, r.quarantined, now);
  }

  // ---------------------------------------------------------------- what a step does to served pages

  lemma QuarantineRecords(pages: map<string, Page>, generation: nat, path: string, sequence: nat)
    ensures OnlyContested(pages, InGeneration(RecordsFor(pages, generation, map[], {path} * pages.Keys), sequence), path, sequence)
  {
  }

  lemma PageRecords(pages: map<string, Page>, generation: nat, path: string, page: Page, sequence: nat)
    ensures var after := InGeneration(RecordsFor(pages, generation, map[path := page], {}), sequence);
            && after.Keys == pages.Keys + {path}
            && after[path] == page.(generation := sequence)
            && (forall p <- pages :: p != path ==> after[p] == pages[p].(generation := sequence))
  {
  }

  lemma RecordsInstall(k: Kept, files: Files, records: map<string, Page>, fingerprints: map<QuarantineName, set<Fingerprint>>,
                       outcome: Outcome, now: string, evidence: string, hash: string)
    ensures var after := PublishRecords(k, files, records, fingerprints, outcome, now, evidence, hash, true).kept;
            && after.cache.pages == InGeneration(records, |after.vault.entries|)
            && after.cache.files.wiki == files.wiki && after.cache.files.quarantine == files.quarantine
  {
  }

  /** The pages as they were, but for their generation and a mark on the contested one. */
  ghost predicate OnlyContested(pages: map<string, Page>, after: map<string, Page>, path: string, generation: nat) {
    && after.Keys == pages.Keys
    && (forall p <- pages :: after[p] == pages[p].(contested := pages[p].contested || p == path, generation := generation))
  }

  lemma PublishedQuarantineDisturbsNoPage(k: Kept, c: Candidate, path: string, q: QuarantineName, text: string, now: string)
    ensures var after := PublishQuarantine(k, c, path, q, text, now, true).kept;
            after.cache.files.wiki == k.cache.files.wiki && OnlyContested(k.cache.pages, after.cache.pages, path, |after.vault.entries|)
  {
    var generation := |k.cache.log| + 1;
    var records := RecordsFor(k.cache.pages, generation, map[], {path} * k.cache.pages.Keys);
    RecordsInstall(k, QuarantineFiles(k.cache.files, q, text), records, Remember(k.cache.fingerprints, q),
                   WasQuarantined, now, c.evidence, c.contentHash);
    QuarantineRecords(k.cache.pages, generation, path, |k.vault.entries| + 1);
  }

  /** A quarantine leaves every served page as it was, its text, hash and citations with it: only the
    * generation moves, and the page it contradicts is marked contested. */
  lemma QuarantineDisturbsNoPage(k: Kept, c: Candidate, r: Rendering, now: string, accepts: bool)
    requires CompileStep(k, c, r, now, accepts).result.Quarantined?
    ensures var after := CompileStep(k, c, r, now, accepts).kept;
            after.cache.files.wiki == k.cache.files.wiki && OnlyContested(k.cache.pages, after.cache.pages, r.path, |after.vault.entries|)
  {
    PublishedQuarantineDisturbsNoPage(k, c, r.path, r.q, r.quarantined, now);
  }

  /** A compilation replaces its own page and no other, and shows it uncontested: a contradiction that was
    * quarantined before stays in quarantine beside it. */
  lemma CompilationReplacesOnlyItsPage(k: Kept, c: Candidate, r: Rendering, now: string, accepts: bool)
    requires CompileStep(k, c, r, now, accepts).result.Compiled?
    ensures var after := CompileStep(k, c, r, now, accepts).kept;
            && after.cache.pages.Keys == k.cache.pages.Keys + {r.path}
            && after.cache.pages[r.path] == PageOf(c, r.page, |after.vault.entries|)
            && !after.cache.pages[r.path].contested && after.cache.files.quarantine == k.cache.files.quarantine
            && after.cache.files.wiki == k.cache.files.wiki[r.path := r.page]
            && (forall path <- k.cache.pages :: path != r.path ==>
                  after.cache.pages[path] == k.cache.pages[path].(generation := |after.vault.entries|))
  {
    var generation := |k.cache.log| + 1;
    var page := PageOf(c, r.page, generation);
    RecordsInstall(k, PageFiles(k.cache.files, r.path, r.page), RecordsFor(k.cache.pages, generation, map[r.path := page], {}),
                   k.cache.fingerprints, WasCompiled, now, c.evidence, c.contentHash);
    PageRecords(k.cache.pages, generation, r.path, page, |k.vault.entries| + 1);
  }

  /** A page is contradicted since its last compilation; at first, as it is served. */
  predicate ContradictedSince(k: Kept, ops: seq<Op>, path: string, hex: string -> string) {
    if ops == [] then path in k.cache.pages && k.cache.pages[path].contested
    else
      var earlier, last := ops[..|ops| - 1], ops[|ops| - 1];
      Marks(last, Step(Run(k, earlier, hex), last, hex).reply, path, ContradictedSince(k, earlier, path, hex))
  }

  /** What an operation makes of that. */
  predicate Marks(op: Op, reply: Reply, path: string, before: bool) {
    if reply.OfCompile? && reply.result.Compiled? && reply.result.path == path then false
    else before || (reply.OfCompile? && reply.result.Quarantined? && op.CompileOp? && PagePath(op.c.sourceReference) == path)
  }

  predicate ShowsMark(pages: map<string, Page>, path: string, marked: bool) {
    path in pages ==> (pages[path].contested <==> marked)
  }

  lemma CompileMarks(k: Kept, c: Candidate, r: Rendering, now: string, accepts: bool, path: string, before: bool)
    requires ShowsMark(k.cache.pages, path, before)
    ensures var s := CompileStep(k, c, r, now, accepts);
            ShowsMark(s.kept.cache.pages, path,
                      if s.result.Compiled? && s.result.path == path then false else before || (s.result.Quarantined? && r.path == path))
  {
    var s := CompileStep(k, c, r, now, accepts);
    if s.result.Quarantined? {
      QuarantineDisturbsNoPage(k, c, r, now, accepts);
    } else if s.result.Compiled? {
      CompilationReplacesOnlyItsPage(k, c, r, now, accepts);
    }
  }

  lemma FileMarks(k: Kept, o: Output, r: OutputRendering, now: string, accepts: bool, path: string, before: bool)
    requires ShowsMark(k.cache.pages, path, before)
    ensures ShowsMark(FileStep(k, o, r, now, accepts).kept.cache.pages, path, before)
  {
  }

  lemma CompileOpMarks(k: Kept, op: Op, path: string, before: bool, hex: string -> string)
    requires ShowsMark(k.cache.pages, path, before) && op.CompileOp?
    ensures var done := Step(k, op, hex); ShowsMark(done.kept.cache.pages, path, Marks(op, done.reply, path, before))
  {
    CompileMarks(k, op.c, Rendered(op.c), op.now, op.accepts, path, before);
  }

  lemma StepMarks(k: Kept, op: Op, path: string, before: bool, hex: string -> string)
    requires ShowsMark(k.cache.pages, path, before)
    ensures var done := Step(k, op, hex); ShowsMark(done.kept.cache.pages, path, Marks(op, done.reply, path, before))
  {
    match op
    case CompileOp(_, _, _, _) => CompileOpMarks(k, op, path, before, hex);
    case FileOp(o, sensitive, datesParse, normalized, now, accepts) => FileMarks(k, o, RenderedOutput(o), now, accepts, path, before);
  }

  /** Over every run, a page is served contested exactly when a candidate for it was quarantined since it was
    * last compiled, or it was contested at first and has not been compiled. */
  lemma {:induction false} ContestedExactlyWhenContradictedSince(k: Kept, ops: seq<Op>, path: string, hex: string -> string)
    requires path in Run(k, ops, hex).cache.pages
    ensures Run(k, ops, hex).cache.pages[path].contested <==> ContradictedSince(k, ops, path, hex)
  {
    EveryRunShowsMarks(k, ops, path, hex);
  }

  lemma {:induction false} EveryRunShowsMarks(k: Kept, ops: seq<Op>, path: string, hex: string -> string)
    ensures ShowsMark(Run(k, ops, hex).cache.pages, path, ContradictedSince(k, ops, path, hex))
  {
    if ops != [] {
      var earlier := ops[..|ops| - 1];
      EveryRunShowsMarks(k, earlier, path, hex);
      StepMarks(Run(k, earlier, hex), ops[|ops| - 1], path, ContradictedSince(k, earlier, path, hex), hex);
    }
  }

  // ---------------------------------------------------------------- one filing per key

  predicate FilesUnder(op: Op, reply: Reply, key: string) {
    op.FileOp? && op.o.key == key && reply.OfFiling? && reply.filing.Filed?
  }

  /** How often a run files under a key. */
  function FiledUnder(k: Kept, ops: seq<Op>, key: string, hex: string -> string): nat {
    if ops == [] then 0
    else
      var earlier, last := ops[..|ops| - 1], ops[|ops| - 1];
      FiledUnder(k, earlier, key, hex) + if FilesUnder(last, Step(Run(k, earlier, hex), last, hex).reply, key) then 1 else 0
  }

  lemma CompileKeepsOperational(k: Kept, c: Candidate, r: Rendering, now: string, accepts: bool)
    ensures CompileStep(k, c, r, now, accepts).kept.cache.operational == k.cache.operational
  {
  }

  lemma FileOnlyOnce(k: Kept, o: Output, r: OutputRendering, now: string, accepts: bool)
    ensures var s := FileStep(k, o, r, now, accepts);
            && s.kept.cache.operational == (if s.filing.Filed? then k.cache.operational[o.key := o.record] else k.cache.operational)
            && (s.filing.Filed? ==> o.key !in k.cache.operational)
  {
  }

  /** A key is known after a step that files under it, and only then anew; its record never changes. */
  ghost predicate FiledOnce(before: map<string, OperationalRecord>, after: map<string, OperationalRecord>, key: string, files: bool) {
    && (key in after <==> key in before || files)
    && (files ==> key !in before)
    && (key in before ==> after[key] == before[key])
  }

  lemma CompileOpFilesNothing(k: Kept, op: Op, key: string, hex: string -> string)
    requires op.CompileOp?
    ensures var done := Step(k, op, hex); FiledOnce(k.cache.operational, done.kept.cache.operational, key, FilesUnder(op, done.reply, key))
  {
    CompileKeepsOperational(k, op.c, Rendered(op.c), op.now, op.accepts);
  }

  lemma StepFilesOnlyOnce(k: Kept, op: Op, key: string, hex: string -> string)
    ensures var done := Step(k, op, hex); FiledOnce(k.cache.operational, done.kept.cache.operational, key, FilesUnder(op, done.reply, key))
  {
    match op
    case CompileOp(_, _, _, _) => CompileOpFilesNothing(k, op, key, hex);
    case FileOp(o, sensitive, datesParse, normalized, now, accepts) => FileOnlyOnce(k, o, RenderedOutput(o), now, accepts);
  }

  /** Over every run, a key files at most once: exactly once if it is known afterwards and was not before. */
  lemma {:induction false} KeyFilesAtMostOnce(k: Kept, ops: seq<Op>, key: string, hex: string -> string)
    ensures FiledUnder(k, ops, key, hex) == if key in Run(k, ops, hex).cache.operational && key !in k.cache.operational then 1 else 0
    ensures key in k.cache.operational ==>
              key in Run(k, ops, hex).cache.operational && Run(k, ops, hex).cache.operational[key] == k.cache.operational[key]
  {
    if ops != [] {
      KeyFilesAtMostOnce(k, ops[..|ops| - 1], key, hex);
      StepFilesOnlyOnce(Run(k, ops[..|ops| - 1], hex), ops[|ops| - 1], key, hex);
    }
  }
}
