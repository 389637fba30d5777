/** Runs of the Knowledge compiler over one root with restarts, and with a vault that may fail to be read the
  * first time. A root whose first read raised counts as loaded and as having nothing: until the next
  * restart the compiler is blind to what the vault holds, and publishing then supersedes all of it.
  */
module KnowledgeSessions {
  import opened KnowledgeAgreement
  import opened KnowledgeCompiler
  import opened KnowledgeRuns
  import opened KnowledgeText
  import opened Wrappers

  /** `opens`: the vault can be read, should this be the root's first use. `Look` is a reader of the served
    * pages or records; a restart forgets what was kept. */
  datatype Event = Do(op: Op, opens: bool) | Look(opens: bool) | Restart

  datatype Went = Went(session: Session, reply: Option<Reply>)

  /** An operation that is not rejected uses its root. */
  predicate UsesRoot(op: Op, hex: string -> string) {
    match op
    case CompileOp(c, sensitive, _, _) => Verdict(c, sensitive, hex) == None
    case FileOp(o, sensitive, datesParse, normalized, _, _) => OutputVerdict(o, sensitive, datesParse, normalized, hex) == None
  }

  predicate ReadsFirst(e: Event, hex: string -> string) {
    e.Look? || (e.Do? && UsesRoot(e.op, hex))
  }

  /** The event is the root's first use, and reading the vault raises. */
  predicate CannotRead(s: Session, e: Event, hex: string -> string) {
    ReadsFirst(e, hex) && FirstReadRaises(s, e.opens)
  }

  function NotReadReply(op: Op): Reply {
    if op.CompileOp? then OfCompile(NotRead) else OfFiling(FilingNotRead)
  }

  function Go(s: Session, e: Event, hex: string -> string): Went {
    if CannotRead(s, e, hex) then Went(Unread(s), if e.Do? then Some(NotReadReply(e.op)) else None)
    else match e
      case Restart => Went(Session(None, s.vault), None)
      case Look(_) => Went(Using(Seen(s)), None)
      case Do(op, _) =>
        var done := Step(Seen(s), op, hex);
        Went(if UsesRoot(op, hex) then Using(done.kept) else s, Some(done.reply))
  }

  function Sessions(v: Vault, events: seq<Event>, hex: string -> string): Session {
    if events == [] then Session(None, v) else Go(Sessions(v, events[..|events| - 1], hex), events[|events| - 1], hex).session
  }

  /** The class's operations are these events. */
  lemma CompilingIsAnEvent(s: Session, c: Candidate, sensitive: bool, now: string, opens: bool, accepts: bool, hex: string -> string)
    requires Verdict(c, sensitive, hex) == None
    ensures var compiled := CompileIn(s, c, Rendered(c), now, opens, accepts);
            Go(s, Do(CompileOp(c, sensitive, now, accepts), opens), hex) == Went(compiled.session, Some(OfCompile(compiled.result)))
  {
  }

  lemma FilingIsAnEvent(s: Session, o: Output, sensitive: bool, datesParse: bool, normalized: string, now: string, opens: bool, accepts: bool,
                        hex: string -> string)
    requires OutputVerdict(o, sensitive, datesParse, normalized, hex) == None
    ensures var filed := FileIn(s, o, RenderedOutput(o), now, opens, accepts);
            Go(s, Do(FileOp(o, sensitive, datesParse, normalized, now, accepts), opens), hex) == Went(filed.session, Some(OfFiling(filed.filing)))
  {
  }

  // ---------------------------------------------------------------- blindness

  predicate HasPublished(reply: Option<Reply>) {
    reply.Some? && DidPublish(reply.value)
  }

  predicate HasRaised(reply: Option<Reply>) {
    reply.Some? && DidRaise(reply.value)
  }

  predicate Publishes(s: Session, e: Event, hex: string -> string) {
    HasPublished(Go(s, e, hex).reply)
  }

  predicate BlindAfter(s: Session, e: Event, blind: bool, hex: string -> string) {
    if CannotRead(s, e, hex) then s.vault.files != NO_FILES else !e.Restart? && blind && !HasPublished(Go(s, e, hex).reply)
  }

  /** Since the last restart the first use of the root could not read a vault that held files, and nothing
    * has been published since. */
  predicate Blind(v: Vault, events: seq<Event>, hex: string -> string) {
    events != [] &&
    var earlier := events[..|events| - 1];
    BlindAfter(Sessions(v, earlier, hex), events[|events| - 1], Blind(v, earlier, hex), hex)
  }

  /** What a compiler keeps that has taken a root for empty. */
  predicate Empty(cache: Cache) {
    cache == EMPTY_CACHE.(log := cache.log)
  }

  ghost predicate SeesOrIsBlind(s: Session, blind: bool) {
    && OwnFingerprints(s.vault.files.quarantine)
    && if blind then s.cache.Some? && Empty(s.cache.value) && s.vault.files != NO_FILES else Sound(Seen(s))
  }

  /** Publishing reads of the vault only how many generations it has. */
  lemma CompilingIgnoresFiles(k: Kept, w: Vault, c: Candidate, r: Rendering, now: string, accepts: bool)
    requires w.entries == k.vault.entries
    ensures var a, b := CompileStep(k, c, r, now, accepts), CompileStep(Kept(k.cache, w), c, r, now, accepts);
            a.result == b.result && a.kept.cache == b.kept.cache && (a.result.Compiled? || a.result.Quarantined? ==> a.kept == b.kept)
  {
  }

  lemma FilingIgnoresFiles(k: Kept, w: Vault, o: Output, r: OutputRendering, now: string, accepts: bool)
    requires w.entries == k.vault.entries
    ensures var a, b := FileStep(k, o, r, now, accepts), FileStep(Kept(k.cache, w), o, r, now, accepts);
            a.filing == b.filing && a.kept.cache == b.kept.cache && (a.filing.Filed? ==> a.kept == b.kept)
  {
  }

  lemma CompileOpIgnoresFiles(k: Kept, w: Vault, op: Op, hex: string -> string)
    requires w.entries == k.vault.entries && op.CompileOp?
    ensures var a, b := Step(k, op, hex), Step(Kept(k.cache, w), op, hex);
            a.reply == b.reply && a.kept.cache == b.kept.cache && (DidPublish(a.reply) ==> a.kept == b.kept)
  {
    CompilingIgnoresFiles(k, w, op.c, Rendered(op.c), op.now, op.accepts);
  }

  lemma StepIgnoresFiles(k: Kept, w: Vault, op: Op, hex: string -> string)
    requires w.entries == k.vault.entries
    ensures var a, b := Step(k, op, hex), Step(Kept(k.cache, w), op, hex);
            a.reply == b.reply && a.kept.cache == b.kept.cache && (DidPublish(a.reply) ==> a.kept == b.kept)
  {
    match op
    case CompileOp(_, _, _, _) => CompileOpIgnoresFiles(k, w, op, hex);
    case FileOp(o, sensitive, datesParse, normalized, now, accepts) => FilingIgnoresFiles(k, w, o, RenderedOutput(o), now, accepts);
  }

  lemma EmptyIsSound(cache: Cache, entries: seq<string>)
    requires Empty(cache)
    ensures Sound(Kept(cache, Vault(NO_FILES, entries)))
  {
  }

  lemma EmptyCompileStays(k: Kept, c: Candidate, r: Rendering, now: string, accepts: bool)
    requires Empty(k.cache)
    ensures var s := CompileStep(k, c, r, now, accepts); !s.result.Compiled? ==> Empty(s.kept.cache) && s.kept.vault == k.vault
    ensures !CompileStep(k, c, r, now, accepts).result.Quarantined?
  {
  }

  lemma EmptyFileStays(k: Kept, o: Output, r: OutputRendering, now: string, accepts: bool)
    requires Empty(k.cache)
    ensures var s := FileStep(k, o, r, now, accepts); !s.filing.Filed? ==> Empty(s.kept.cache) && s.kept.vault == k.vault
  {
  }

  lemma UnpublishedCompileStaysEmpty(k: Kept, op: Op, hex: string -> string)
    requires Empty(k.cache) && op.CompileOp?
    ensures var done := Step(k, op, hex); !DidPublish(done.reply) ==> Empty(done.kept.cache) && done.kept.vault == k.vault
  {
    EmptyCompileStays(k, op.c, Rendered(op.c), op.now, op.accepts);
  }

  lemma UnpublishedStaysEmpty(k: Kept, op: Op, hex: string -> string)
    requires Empty(k.cache)
    ensures var done := Step(k, op, hex); !DidPublish(done.reply) ==> Empty(done.kept.cache) && done.kept.vault == k.vault
  {
    match op
    case CompileOp(_, _, _, _) => UnpublishedCompileStaysEmpty(k, op, hex);
    case FileOp(o, sensitive, datesParse, normalized, now, accepts) => EmptyFileStays(k, o, RenderedOutput(o), now, accepts);
  }

  /** A publication of a blind compiler agrees with the vault again: it has replaced what was there. */
  lemma BlindStep(k: Kept, op: Op, hex: string -> string)
    requires Empty(k.cache) && IsHex(hex) && ReadsBackIfQuarantined(op)
    ensures var done := Step(k, op, hex);
            if DidPublish(done.reply) then Sound(done.kept) else Empty(done.kept.cache) && done.kept.vault == k.vault
  {
    var bare := Vault(NO_FILES, k.vault.entries);
    EmptyIsSound(k.cache, k.vault.entries);
    StepIsSound(Kept(k.cache, bare), op, hex);
    StepIgnoresFiles(k, bare, op, hex);
    UnpublishedStaysEmpty(k, op, hex);
  }

  lemma RejectedPublishesNothing(k: Kept, op: Op, hex: string -> string)
    requires !UsesRoot(op, hex)
    ensures Step(k, op, hex).kept == k && !DidPublish(Step(k, op, hex).reply) && !DidRaise(Step(k, op, hex).reply)
  {
  }

  predicate ReadsBackEvent(e: Event) {
    e.Do? ==> ReadsBackIfQuarantined(e.op)
  }

  lemma UnreadSeesOrIsBlind(s: Session)
    requires s.cache.None? && OwnFingerprints(s.vault.files.quarantine)
    ensures SeesOrIsBlind(Unread(s), s.vault.files != NO_FILES)
  {
    if s.vault.files == NO_FILES {
      EmptyIsSound(EMPTY_CACHE, s.vault.entries);
    }
  }

  lemma EventSeesOrIsBlind(s: Session, e: Event, blind: bool, hex: string -> string)
    requires SeesOrIsBlind(s, blind) && IsHex(hex) && ReadsBackEvent(e)
    ensures SeesOrIsBlind(Go(s, e, hex).session, BlindAfter(s, e, blind, hex))
  {
    if CannotRead(s, e, hex) {
      UnreadSeesOrIsBlind(s);
    } else {
      match e
      case Restart => LoadIsSound(s.vault);
      case Look(_) => {}
      case Do(op, _) =>
        if !UsesRoot(op, hex) {
          RejectedPublishesNothing(Seen(s), op, hex);
        } else if blind {
          BlindStep(Seen(s), op, hex);
        } else {
          StepIsSound(Seen(s), op, hex);
        }
    }
  }

  lemma {:induction false} EverySessionSeesOrIsBlind(v: Vault, events: seq<Event>, hex: string -> string)
    requires OwnFingerprints(v.files.quarantine) && IsHex(hex) && forall e <- events :: ReadsBackEvent(e)
    ensures SeesOrIsBlind(Sessions(v, events, hex), Blind(v, events, hex))
  {
    if events == [] {
      LoadIsSound(v);
    } else {
      var earlier, last := events[..|events| - 1], events[|events| - 1];
      EverySessionSeesOrIsBlind(v, earlier, hex);
      EventSeesOrIsBlind(Sessions(v, earlier, hex), last, Blind(v, earlier, hex), hex);
    }
  }

  /** Over every run of operations, readers and restarts, what is in memory agrees with the vault exactly
    * unless the compiler is blind. */
  lemma AgreementExactlyUnlessBlind(v: Vault, events: seq<Event>, hex: string -> string)
    requires OwnFingerprints(v.files.quarantine) && IsHex(hex) && forall e <- events :: ReadsBackEvent(e)
    ensures Sound(Seen(Sessions(v, events, hex))) <==> !Blind(v, events, hex)
  {
    EverySessionSeesOrIsBlind(v, events, hex);
  }

  // ---------------------------------------------------------------- what a blind publication loses

  /** A generation that holds nothing but one compiled page. */
  predicate OnlyPage(files: Files, path: string, text: string) {
    files.wiki == map[path := text] && files.quarantine == map[] && files.operational == map[] && files.operationalIndex == None
  }

  lemma BlindCompilationSupersedes(k: Kept, c: Candidate, r: Rendering, now: string)
    requires Empty(k.cache)
    ensures var s := CompileStep(k, c, r, now, true);
            && s.result.Compiled? && OnlyPage(s.kept.vault.files, r.path, r.page)
            && s.kept.cache.log == k.cache.log + [Line(|k.cache.log| + 1, WasCompiled, now, c.evidence, c.contentHash)]
            && s.kept.vault.files.log == Some(s.kept.cache.log) && |s.kept.vault.entries| == |k.vault.entries| + 1
  {
    assert PageFiles(NO_FILES, r.path, r.page).wiki == map[r.path := r.page];
  }

  /** A reader comes first and the vault cannot be read; the next candidate is compiled into a generation of
    * one page, an empty quarantine and a log of one line, whatever the vault held. */
  lemma FirstReadRaisedSupersedesEverything(v: Vault, c: Candidate, sensitive: bool, now: string, hex: string -> string)
    requires v.files != NO_FILES && Verdict(c, sensitive, hex) == None
    ensures var compiles := Do(CompileOp(c, sensitive, now, true), true);
            var after := Sessions(v, [Look(false), compiles], hex).vault;
            && !Sound(Seen(Sessions(v, [Look(false)], hex)))
            && OnlyPage(after.files, PagePath(c.sourceReference), RenderPage(c)) && |LoadLog(after)| == 1
            && |after.entries| == |v.entries| + 1
  {
    var compiles := Do(CompileOp(c, sensitive, now, true), true);
    assert [Look(false)][..0] == [] && [Look(false), compiles][..1] == [Look(false)];
    var blind := Unread(Session(None, v));
    assert Sessions(v, [Look(false)], hex) == blind;
    BlindCompilationSupersedes(Seen(blind), c, Rendered(c), now);
    CompilingIsAnEvent(blind, c, sensitive, now, true, true, hex);
  }

  /** Every page, quarantined page and operational file is still there, if perhaps with another text. */
  ghost predicate Keeps(before: Files, after: Files) {
    before.wiki.Keys <= after.wiki.Keys && before.quarantine.Keys <= after.quarantine.Keys && before.operational.Keys <= after.operational.Keys
  }

  lemma CompilingKeeps(k: Kept, c: Candidate, r: Rendering, now: string, accepts: bool)
    requires k.cache.files == k.vault.files
    ensures Keeps(k.vault.files, CompileStep(k, c, r, now, accepts).kept.vault.files)
  {
  }

  lemma FilingKeeps(k: Kept, o: Output, r: OutputRendering, now: string, accepts: bool)
    requires k.cache.files == k.vault.files
    ensures Keeps(k.vault.files, FileStep(k, o, r, now, accepts).kept.vault.files)
  {
  }

  lemma CompileOpKeeps(k: Kept, op: Op, hex: string -> string)
    requires k.cache.files == k.vault.files && op.CompileOp?
    ensures Keeps(k.vault.files, Step(k, op, hex).kept.vault.files)
  {
    CompilingKeeps(k, op.c, Rendered(op.c), op.now, op.accepts);
  }

  lemma StepKeeps(k: Kept, op: Op, hex: string -> string)
    requires k.cache.files == k.vault.files
    ensures Keeps(k.vault.files, Step(k, op, hex).kept.vault.files)
  {
    match op
    case CompileOp(_, _, _, _) => CompileOpKeeps(k, op, hex);
    case FileOp(o, sensitive, datesParse, normalized, now, accepts) => FilingKeeps(k, o, RenderedOutput(o), now, accepts);
  }

  /** What an event leaves of the files: all of them, unless it publishes blindly. */
  lemma EventKeepsFiles(s: Session, e: Event, blind: bool, hex: string -> string)
    requires SeesOrIsBlind(s, blind) && !(blind && Publishes(s, e, hex))
    ensures Keeps(s.vault.files, Go(s, e, hex).session.vault.files)
  {
    if e.Do? && UsesRoot(e.op, hex) && !CannotRead(s, e, hex) {
      if blind {
        UnpublishedStaysEmpty(Seen(s), e.op, hex);
      } else {
        StepKeeps(Seen(s), e.op, hex);
      }
    }
  }

  /** An event publishes blindly: to the compiler there was nothing to keep. */
  predicate PublishesBlindly(v: Vault, events: seq<Event>, i: nat, hex: string -> string)
    requires i < |events|
  {
    Blind(v, events[..i], hex) && Publishes(Sessions(v, events[..i], hex), events[i], hex)
  }

  /** Over every run, what was published once is there for good, as long as nothing is published blindly. */
  lemma {:induction false} NothingIsLost(v: Vault, events: seq<Event>, i: nat, j: nat, hex: string -> string)
    requires OwnFingerprints(v.files.quarantine) && IsHex(hex) && forall e <- events :: ReadsBackEvent(e)
    requires i <= j <= |events| && forall n: nat :: i <= n < j ==> !PublishesBlindly(v, events, n, hex)
    ensures Keeps(Sessions(v, events[..i], hex).vault.files, Sessions(v, events[..j], hex).vault.files)
    decreases j
  {
    if i < j {
      NothingIsLost(v, events, i, j - 1, hex);
      assert events[..j][..j - 1] == events[..j - 1];
      EverySessionSeesOrIsBlind(v, events[..j - 1], hex);
      assert !PublishesBlindly(v, events, j - 1, hex);
      EventKeepsFiles(Sessions(v, events[..j - 1], hex), events[j - 1], Blind(v, events[..j - 1], hex), hex);
    }
  }

  lemma EmptyCompileOpPublishesAlone(k: Kept, op: Op, hex: string -> string)
    requires Empty(k.cache) && op.CompileOp? && DidPublish(Step(k, op, hex).reply)
    ensures var files := Step(k, op, hex).kept.vault.files;
            |files.wiki.Keys| + |files.quarantine.Keys| + |files.operational.Keys| == 1
  {
    EmptyCompilePublishesAlone(k, op.c, Rendered(op.c), op.now, op.accepts);
  }

  lemma EmptyPublishesAlone(k: Kept, op: Op, hex: string -> string)
    requires Empty(k.cache) && DidPublish(Step(k, op, hex).reply)
    ensures var files := Step(k, op, hex).kept.vault.files;
            |files.wiki.Keys| + |files.quarantine.Keys| + |files.operational.Keys| == 1
  {
    match op
    case CompileOp(_, _, _, _) => EmptyCompileOpPublishesAlone(k, op, hex);
    case FileOp(o, sensitive, datesParse, normalized, now, accepts) => EmptyFilePublishesAlone(k, o, RenderedOutput(o), now, accepts);
  }

  lemma EmptyCompilePublishesAlone(k: Kept, c: Candidate, r: Rendering, now: string, accepts: bool)
    requires Empty(k.cache) && CompileStep(k, c, r, now, accepts).result.Compiled?
    ensures OnlyPage(CompileStep(k, c, r, now, accepts).kept.vault.files, r.path, r.page)
    ensures CompileStep(k, c, r, now, accepts).kept.vault.files.wiki.Keys == {r.path}
  {
    BlindCompilationSupersedes(k, c, r, now);
  }

  lemma EmptyFilePublishesAlone(k: Kept, o: Output, r: OutputRendering, now: string, accepts: bool)
    requires Empty(k.cache) && FileStep(k, o, r, now, accepts).filing.Filed?
    ensures var files := FileStep(k, o, r, now, accepts).kept.vault.files;
            files.wiki == map[] && files.quarantine == map[] && files.operational.Keys == {o.record.path}
  {
  }

  /** A blind publication leaves one file of the three kinds: all that the vault held before is superseded,
    * but for the text under that one path. */
  lemma BlindPublicationLosesTheRest(v: Vault, events: seq<Event>, i: nat, hex: string -> string)
    requires OwnFingerprints(v.files.quarantine) && IsHex(hex) && forall e <- events :: ReadsBackEvent(e)
    requires i < |events| && PublishesBlindly(v, events, i, hex)
    ensures var files := Sessions(v, events[..i + 1], hex).vault.files;
            |files.wiki.Keys| + |files.quarantine.Keys| + |files.operational.Keys| == 1
  {
    var s := Sessions(v, events[..i], hex);
    EverySessionSeesOrIsBlind(v, events[..i], hex);
    assert events[..i + 1][..i] == events[..i];
    EmptyPublishesAlone(Seen(s), events[i].op, hex);
  }

  // ---------------------------------------------------------------- the log

  /** How the log stands to the generations: publications refused since the last accepted one or the last
    * restart, lines of refused ones that a later generation carried along, and generations that a blind
    * publication left the log without. */
  datatype Account = Account(refused: nat, carried: nat, forgotten: nat)

  function AccountAfter(s: Session, restarts: bool, reply: Option<Reply>, blind: bool, a: Account): Account {
    if HasPublished(reply) then
      if blind then Account(0, a.refused, |s.vault.entries|) else Account(0, a.carried + a.refused, a.forgotten)
    else a.(refused := if restarts then 0 else a.refused + if HasRaised(reply) then 1 else 0)
  }

  function AccountOf(v: Vault, events: seq<Event>, hex: string -> string): Account {
    if events == [] then Account(0, 0, 0)
    else
      var earlier, last := events[..|events| - 1], events[|events| - 1];
      var s := Sessions(v, earlier, hex);
      AccountAfter(s, last.Restart?, Go(s, last, hex).reply, Blind(v, earlier, hex), AccountOf(v, earlier, hex))
  }

  /** The stored log tells of every generation that was not forgotten, and of the refused publications carried
    * along; the one in memory holds besides those refused since, or nothing else when it is blind. */
  ghost predicate LogTells(s: Session, blind: bool, a: Account) {
    var stored, log := LoadLog(s.vault), Seen(s).cache.log;
    && |stored| + a.forgotten == |s.vault.entries| + a.carried && Numbered(stored) && Numbered(log)
    && (s.vault.files == NO_FILES ==> s.vault.entries == [])
    && (s.cache.None? ==> a.refused == 0 && !blind)
    && (if blind then |log| == a.refused else |log| == |stored| + a.refused && stored == log[..|stored|])
  }

  lemma PublishedTells(s: Session, after: Kept, blind: bool, a: Account)
    requires LogTells(s, blind, a) && LogMoves(Seen(s).cache.log, s.vault, after, true, false)
    ensures LogTells(Using(after), false,
                     if blind then Account(0, a.refused, |s.vault.entries|) else Account(0, a.carried + a.refused, a.forgotten))
  {
  }

  lemma UnpublishedTells(s: Session, after: Kept, raised: bool, blind: bool, a: Account)
    requires LogTells(s, blind, a) && LogMoves(Seen(s).cache.log, s.vault, after, false, raised)
    ensures LogTells(Using(after), blind, a.(refused := a.refused + if raised then 1 else 0))
  {
  }

  /** What an operation leaves of that. */
  ghost predicate StillTells(s: Session, went: Went, blind: bool, a: Account) {
    LogTells(went.session, blind && !HasPublished(went.reply), AccountAfter(s, false, went.reply, blind, a))
  }

  lemma DoneTells(s: Session, done: Done, blind: bool, a: Account)
    requires LogTells(s, blind, a)
    requires LogMoves(Seen(s).cache.log, s.vault, done.kept, DidPublish(done.reply), DidRaise(done.reply))
    ensures StillTells(s, Went(Using(done.kept), Some(done.reply)), blind, a)
  {
    if DidPublish(done.reply) {
      PublishedTells(s, done.kept, blind, a);
    } else {
      UnpublishedTells(s, done.kept, DidRaise(done.reply), blind, a);
    }
  }

  lemma DoTells(s: Session, op: Op, opens: bool, blind: bool, a: Account, hex: string -> string)
    requires LogTells(s, blind, a) && !CannotRead(s, Do(op, opens), hex)
    ensures StillTells(s, Go(s, Do(op, opens), hex), blind, a)
  {
    if UsesRoot(op, hex) {
      StepLogs(Seen(s), op, hex);
      DoneTells(s, Step(Seen(s), op, hex), blind, a);
    } else {
      RejectedPublishesNothing(Seen(s), op, hex);
    }
  }

  lemma OthersTell(s: Session, blind: bool, a: Account)
    requires LogTells(s, blind, a)
    ensures s.cache.None? ==> LogTells(Unread(s), s.vault.files != NO_FILES, a)
    ensures LogTells(Session(None, s.vault), false, a.(refused := 0))
    ensures LogTells(Using(Seen(s)), blind, a)
  {
  }

  lemma EventTells(s: Session, e: Event, blind: bool, a: Account, hex: string -> string)
    requires LogTells(s, blind, a)
    ensures LogTells(Go(s, e, hex).session, BlindAfter(s, e, blind, hex), AccountAfter(s, e.Restart?, Go(s, e, hex).reply, blind, a))
  {
    if e.Do? && !CannotRead(s, e, hex) {
      DoTells(s, e.op, e.opens, blind, a, hex);
    } else {
      OthersTell(s, blind, a);
    }
  }

  /** Over every run with restarts, the stored log has one line for every generation it has not forgotten and
    * one for every refused publication carried along: as many lines as generations exactly when those two
    * balance, as they do when nothing is refused or read in vain. */
  lemma {:induction false} LogCountsAcrossRestarts(v: Vault, events: seq<Event>, hex: string -> string)
    requires |LoadLog(v)| == |v.entries| && Numbered(LoadLog(v)) && (v.files == NO_FILES ==> v.entries == [])
    ensures LogTells(Sessions(v, events, hex), Blind(v, events, hex), AccountOf(v, events, hex))
  {
    if events != [] {
      var earlier := events[..|events| - 1];
      LogCountsAcrossRestarts(v, earlier, hex);
      EventTells(Sessions(v, earlier, hex), events[|events| - 1], Blind(v, earlier, hex), AccountOf(v, earlier, hex), hex);
    }
  }

  // ---------------------------------------------------------------- restarts

  function RepliesTo(s: Session, events: seq<Event>, hex: string -> string): seq<Option<Reply>>
    decreases |events|
  {
    if events == [] then [] else [Go(s, events[0], hex).reply] + RepliesTo(Go(s, events[0], hex).session, events[1..], hex)
  }

  function VaultAfter(s: Session, events: seq<Event>, hex: string -> string): Vault
    decreases |events|
  {
    if events == [] then s.vault else VaultAfter(Go(s, events[0], hex).session, events[1..], hex)
  }

  /** Two processes over one vault, alike in what they keep of it or both just started. */
  ghost predicate AlikeSessions(a: Session, b: Session) {
    a == b || (a.cache.Some? && b.cache.Some? && Alike(Seen(a), Seen(b)))
  }

  lemma AlikeEvent(a: Session, b: Session, e: Event, hex: string -> string)
    requires AlikeSessions(a, b)
    ensures Go(a, e, hex).reply == Go(b, e, hex).reply && AlikeSessions(Go(a, e, hex).session, Go(b, e, hex).session)
  {
    if a != b && e.Do? {
      AlikeStep(Seen(a), Seen(b), e.op, hex);
    }
  }

  lemma {:induction false} AlikeSessionsAnswerAlike(a: Session, b: Session, events: seq<Event>, hex: string -> string)
    requires AlikeSessions(a, b)
    ensures RepliesTo(a, events, hex) == RepliesTo(b, events, hex) && VaultAfter(a, events, hex) == VaultAfter(b, events, hex)
    decreases |events|
  {
    if events != [] {
      AlikeEvent(a, b, events[0], hex);
      AlikeSessionsAnswerAlike(Go(a, events[0], hex).session, Go(b, events[0], hex).session, events[1..], hex);
    }
  }

  /** A restart after which the vault is read cannot be noticed: unless the compiler was blind, or the vault
    * refused a publication since the last it accepted, every later run of events is answered alike and
    * leaves the same vault. */
  lemma RestartCannotBeNoticed(v: Vault, events: seq<Event>, later: seq<Event>, hex: string -> string)
    requires OwnFingerprints(v.files.quarantine) && IsHex(hex) && forall e <- events :: ReadsBackEvent(e)
    requires |LoadLog(v)| == |v.entries| && Numbered(LoadLog(v)) && (v.files == NO_FILES ==> v.entries == [])
    requires !Blind(v, events, hex) && AccountOf(v, events, hex).refused == 0
    ensures var s := Sessions(v, events, hex);
            var kept, restarted := Using(Seen(s)), Using(Kept(Load(s.vault), s.vault));
            RepliesTo(kept, later, hex) == RepliesTo(restarted, later, hex) && VaultAfter(kept, later, hex) == VaultAfter(restarted, later, hex)
  {
    var s := Sessions(v, events, hex);
    AgreementExactlyUnlessBlind(v, events, hex);
    LogCountsAcrossRestarts(v, events, hex);
    SoundIsLoaded(Seen(s));
    AlikeSessionsAnswerAlike(Using(Seen(s)), Using(Kept(Load(s.vault), s.vault)), later, hex);
  }

  lemma LogsShow(a: Kept, b: Kept, x: Kept, y: Kept)
    requires a.cache.log != b.cache.log
    requires LogMoves(a.cache.log, a.vault, x, true, false) && LogMoves(b.cache.log, b.vault, y, true, false)
    ensures x.vault != y.vault
  {
    assert a.cache.log == x.cache.log[..|x.cache.log| - 1] && b.cache.log == y.cache.log[..|y.cache.log| - 1];
  }

  /** Otherwise it can: compilers with different logs over one vault leave different generations whenever
    * both publish. */
  lemma DifferentLogsShow(a: Kept, b: Kept, op: Op, hex: string -> string)
    requires a.cache.log != b.cache.log && DidPublish(Step(a, op, hex).reply) && DidPublish(Step(b, op, hex).reply)
    ensures Step(a, op, hex).kept.vault != Step(b, op, hex).kept.vault
  {
    StepLogs(a, op, hex);
    StepLogs(b, op, hex);
    LogsShow(a, b, Step(a, op, hex).kept, Step(b, op, hex).kept);
  }
}
