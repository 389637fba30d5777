/** The texts of src/knowledge/knowledge-compiler.ts that are read back: the opening paragraph a candidate
  * is compared with, and the two provenance lines a quarantined page is recognised by.
  */
module KnowledgeText {
  import opened Text
  import opened Wrappers

  function LastSegment(s: string): string {
    if '/' in s then LastSegment(s[1..]) else s
  }

  /** The last segment of a source reference, without its extension. */
  function PageName(sourceReference: string): string {
    var base := LastSegment(sourceReference);
    if |base| >= 3 && base[|base| - 3..] == ".md" then base[..|base| - 3] else base
  }

  function PagePath(sourceReference: string): string {
    if "wiki/" <= sourceReference then sourceReference else "wiki/" + PageName(sourceReference) + ".md"
  }

  predicate Includes(s: string, part: string) {
    part <= s || (s != "" && Includes(s[1..], part))
  }

  function CitationLines(citations: seq<string>): string {
    if citations == [] then ""
    else CitationLines(citations[..|citations| - 1]) + "- Citation: " + citations[|citations| - 1] + "\n"
  }

  // ---------------------------------------------------------------- the page and its opening

  function PageText(name: string, stale: bool, asOf: string, content: string, provenance: string): string {
    "# " + name + "\n\n" + AsOfNotice(stale, asOf) + "\n\n" + content + "\n\n## Provenance\n\n" + provenance
  }

  function AsOfNotice(stale: bool, asOf: string): string {
    if stale then "> STALE as of " + asOf + ". Compiled from a candidate " + "the broker labelled stale."
    else "> Compiled from evidence as of " + asOf + "."
  }

  predicate AtBreak(text: string) {
    |text| >= 2 && text[0] == '\n' && text[1] == '\n'
  }

  /** What follows the first blank line. */
  function AfterBreak(text: string): Option<string> {
    if AtBreak(text) then Some(text[2..]) else if text == "" then None else AfterBreak(text[1..])
  }

  function UpToBreak(text: string): string {
    if text == "" || AtBreak(text) then "" else [text[0]] + UpToBreak(text[1..])
  }

  /** The third of the parts that blank lines divide a text into. */
  function ThirdPart(text: string): Option<string> {
    match AfterBreak(text)
    case None => None
    case Some(second) =>
      match AfterBreak(second)
      case None => None
      case Some(third) => Some(UpToBreak(third))
  }

  function Cut(s: string, length: nat): string {
    if |s| <= length then s else s[..length]
  }

  /** Whether a content repeats the start of the published page's third part, its first forty characters
    * trimmed. A page without a third part is always extended. */
  predicate Extends(published: string, content: string) {
    match ThirdPart(published)
    case None => true
    case Some(opening) => Cut(Trim(opening), 40) <= content
  }

  lemma {:induction false} BreakAfterLine(line: string, rest: string)
    requires '\n' !in line
    ensures AfterBreak(line + "\n\n" + rest) == Some(rest)
  {
    var text := line + "\n\n" + rest;
    if line == "" {
      assert text[2..] == rest;
    } else {
      BreakAfterLine(line[1..], rest);
      assert text[1..] == line[1..] + "\n\n" + rest && text[0] == line[0];
    }
  }

  lemma {:induction false} UpToBreakTrims(content: string, rest: string)
    ensures var cut := UpToBreak(content + "\n\n" + rest);
            cut == UpToBreak(content) || cut + "\n" == UpToBreak(content)
  {
    var text := content + "\n\n" + rest;
    if content == "" {
      assert AtBreak(text);
    } else {
      assert text[0] == content[0] && text[1..] == content[1..] + "\n\n" + rest;
      if content == "\n" {
        assert AtBreak(text) && !AtBreak(content) && UpToBreak(content) == "\n" + UpToBreak(content[1..]);
      } else {
        assert AtBreak(text) == AtBreak(content);
        UpToBreakTrims(content[1..], rest);
      }
    }
  }

  lemma {:induction false} TrimDropsSpace(s: string, c: char)
    requires IsSpace(c)
    ensures Trim(s + [c]) == Trim(s)
  {
    if s == "" {
      assert s + [c] == [c];
      assert TrimStart([c]) == TrimStart([]);
    } else if IsSpace(s[0]) {
      TrimDropsSpace(s[1..], c);
      assert (s + [c])[1..] == s[1..] + [c];
    } else {
      assert (s + [c])[..|s|] == s;
    }
  }

  lemma ThirdPartIs(first: string, second: string, third: string)
    requires '\n' !in first && '\n' !in second
    ensures ThirdPart(first + "\n\n" + (second + "\n\n" + third)) == Some(UpToBreak(third))
  {
    BreakAfterLine(first, second + "\n\n" + third);
    BreakAfterLine(second, third);
  }

  lemma NoticeIsOneLine(stale: bool, asOf: string)
    requires '\n' !in asOf
    ensures '\n' !in AsOfNotice(stale, asOf)
  {
    assert '\n' !in "> STALE as of " && '\n' !in ". Compiled from a candidate ";
    assert '\n' !in "the broker labelled stale." && '\n' !in "> Compiled from evidence as of ";
  }

  lemma PageTextParts(name: string, stale: bool, asOf: string, content: string, provenance: string)
    ensures PageText(name, stale, asOf, content, provenance) ==
            ("# " + name) + "\n\n" + (AsOfNotice(stale, asOf) + "\n\n" + (content + "\n\n" + ("## Provenance\n\n" + provenance)))
  {
    assert "\n\n## Provenance\n\n" == "\n\n" + "## Provenance\n\n";
  }

  /** A page's third part opens its own content: a candidate extends it exactly when its content repeats
    * the first forty characters of what the page's content says up to its first blank line. */
  lemma ExtendingRepeatsTheOpening(name: string, stale: bool, asOf: string, content: string, provenance: string, candidate: string)
    requires '\n' !in name && '\n' !in asOf
    ensures Extends(PageText(name, stale, asOf, content, provenance), candidate) <==> Cut(Trim(UpToBreak(content)), 40) <= candidate
  {
    var tail := "## Provenance\n\n" + provenance;
    PageTextParts(name, stale, asOf, content, provenance);
    NoticeIsOneLine(stale, asOf);
    ThirdPartIs("# " + name, AsOfNotice(stale, asOf), content + "\n\n" + tail);
    UpToBreakTrims(content, tail);
    TrimDropsSpace(UpToBreak(content + "\n\n" + tail), '\n');
  }

  lemma {:induction false} UpToBreakIsPrefix(text: string)
    ensures UpToBreak(text) <= text
  {
    if text != "" && !AtBreak(text) {
      UpToBreakIsPrefix(text[1..]);
      assert text == [text[0]] + text[1..];
    }
  }

  lemma {:induction false} TrimEndIsPrefix(s: string)
    ensures TrimEnd(s) <= s
  {
    if s != "" && IsSpace(s[|s| - 1]) {
      TrimEndIsPrefix(s[..|s| - 1]);
    }
  }

  /** Content appended to what a page was compiled from is accepted as an extension exactly when the page's
    * content does not begin with white space, or its opening is nothing but white space. Otherwise even
    * the page's own content counts as a contradiction. */
  lemma AppendedContentExtends(name: string, stale: bool, asOf: string, content: string, provenance: string, more: string)
    requires '\n' !in name && '\n' !in asOf
    ensures Extends(PageText(name, stale, asOf, content, provenance), content + more) <==>
            Trim(UpToBreak(content)) == "" || !IsSpace(content[0])
  {
    ExtendingRepeatsTheOpening(name, stale, asOf, content, provenance, content + more);
    UpToBreakIsPrefix(content);
    var opening := UpToBreak(content);
    TrimLeavesNoOuterSpace(opening);
    if Trim(opening) != "" {
      if IsSpace(content[0]) {
        assert Cut(Trim(opening), 40)[0] == Trim(opening)[0];
      } else {
        TrimEndIsPrefix(opening);
        assert Trim(opening) <= content;
      }
    }
  }

  // ---------------------------------------------------------------- provenance read back

  const HASH_LABEL: string := "- Content hash: "
  const EVIDENCE_LABEL: string := "- Canonical evidence: "

  predicate IsLineEnd(c: char) {
    c == '\n' || c == '\r' || c == '\U{2028}' || c == '\U{2029}'
  }

  /** The characters before the first white space. */
  function Word(s: string): string {
    if s == "" || IsSpace(s[0]) then "" else [s[0]] + Word(s[1..])
  }

  predicate BlankToLineEnd(s: string) {
    s == "" || IsLineEnd(s[0]) || (IsSpace(s[0]) && BlankToLineEnd(s[1..]))
  }

  function UpToNewline(s: string): string {
    if s == "" || s[0] == '\n' then "" else [s[0]] + UpToNewline(s[1..])
  }

  /** `/- Content hash: (sha256:[^\s]+)\s*$/mu`, matched at the start of a text. */
  function HashHere(s: string): Option<string> {
    if HASH_LABEL <= s then
      var word := Word(s[|HASH_LABEL|..]);
      if "sha256:" < word && |word| <= |s| - |HASH_LABEL| && BlankToLineEnd(s[|HASH_LABEL| + |word|..]) then Some(word) else None
    else None
  }

  /** `/- Canonical evidence: ([^\n]+)$/mu`, matched at the start of a text, and trimmed. */
  function EvidenceHere(s: string): Option<string> {
    if EVIDENCE_LABEL <= s then
      var line := UpToNewline(s[|EVIDENCE_LABEL|..]);
      if line != "" then Some(Trim(line)) else None
    else None
  }

  /** The first match in a text, from the left. */
  function First(s: string, here: string -> Option<string>): Option<string> {
    if here(s).Some? then here(s) else if s == "" then None else First(s[1..], here)
  }

  function FirstHash(s: string): Option<string> {
    First(s, HashHere)
  }

  function FirstEvidence(s: string): Option<string> {
    First(s, EvidenceHere)
  }

  function Or(first: Option<string>, second: Option<string>): Option<string> {
    if first.Some? then first else second
  }

  predicate EndsLine(s: string) {
    s != "" && s[|s| - 1] == '\n'
  }

  lemma {:induction false} WordIsLocal(s: string, after: string)
    requires EndsLine(s)
    ensures Word(s + after) == Word(s) && |Word(s)| < |s| && Word(s) == s[..|Word(s)|]
  {
    assert (s + after)[0] == s[0];
    if !IsSpace(s[0]) {
      WordIsLocal(s[1..], after);
      assert (s + after)[1..] == s[1..] + after;
    }
  }

  lemma {:induction false} BlankIsLocal(s: string, after: string)
    requires EndsLine(s)
    ensures BlankToLineEnd(s + after) == BlankToLineEnd(s)
  {
    assert (s + after)[0] == s[0];
    if !IsLineEnd(s[0]) {
      BlankIsLocal(s[1..], after);
      assert (s + after)[1..] == s[1..] + after;
    }
  }

  lemma {:induction false} LineIsLocal(s: string, after: string)
    requires EndsLine(s)
    ensures UpToNewline(s + after) == UpToNewline(s)
  {
    assert (s + after)[0] == s[0];
    if s[0] != '\n' {
      LineIsLocal(s[1..], after);
      assert (s + after)[1..] == s[1..] + after;
    }
  }

  lemma LabelIsLocal(s: string, after: string, marker: string)
    requires EndsLine(s) && '\n' !in marker
    ensures marker <= s + after <==> marker <= s
    ensures marker <= s ==> EndsLine(s[|marker|..]) && (s + after)[|marker|..] == s[|marker|..] + after
  {
    assert (s + after)[|s| - 1] == '\n';
    assert marker <= s + after ==> forall k :: 0 <= k < |marker| ==> (s + after)[k] == marker[k];
    assert marker <= s ==> forall k :: 0 <= k < |marker| ==> s[k] == marker[k];
    assert |s| > |marker| ==> s[..|marker|] == (s + after)[..|marker|];
  }

  lemma HashHereIsLocal(s: string, after: string)
    requires EndsLine(s)
    ensures HashHere(s + after) == HashHere(s)
  {
    LabelIsLocal(s, after, HASH_LABEL);
    if HASH_LABEL <= s {
      var rest := s[|HASH_LABEL|..];
      WordIsLocal(rest, after);
      BlankIsLocal(rest[|Word(rest)|..], after);
      assert (s + after)[|HASH_LABEL| + |Word(rest)|..] == rest[|Word(rest)|..] + after;
      assert s[|HASH_LABEL| + |Word(rest)|..] == rest[|Word(rest)|..];
    }
  }

  lemma EvidenceHereIsLocal(s: string, after: string)
    requires EndsLine(s)
    ensures EvidenceHere(s + after) == EvidenceHere(s)
  {
    LabelIsLocal(s, after, EVIDENCE_LABEL);
    if EVIDENCE_LABEL <= s {
      LineIsLocal(s[|EVIDENCE_LABEL|..], after);
    }
  }

  /** What matches at the start of whole lines does not depend on what comes after them. */
  ghost predicate Local(here: string -> Option<string>) {
    here("") == None && forall s, after :: EndsLine(s) ==> here(s + after) == here(s)
  }

  /** Whole lines in front are searched first. */
  lemma {:induction false} FirstInFront(before: string, after: string, here: string -> Option<string>)
    requires (before == "" || EndsLine(before)) && Local(here)
    ensures First(before + after, here) == Or(First(before, here), First(after, here))
  {
    if before == "" {
      assert before + after == after;
    } else {
      FirstInFront(before[1..], after, here);
      assert (before + after)[1..] == before[1..] + after;
    }
  }

  lemma LabelsAreLocal()
    ensures Local(HashHere) && Local(EvidenceHere)
  {
    forall s, after | EndsLine(s)
      ensures HashHere(s + after) == HashHere(s) && EvidenceHere(s + after) == EvidenceHere(s)
    {
      HashHereIsLocal(s, after);
      EvidenceHereIsLocal(s, after);
    }
  }

  predicate NoSpaceIn(s: string) {
    forall i :: 0 <= i < |s| ==> !IsSpace(s[i])
  }

  /** `sha256:` and a digest. */
  predicate IsContentHash(hash: string) {
    "sha256:" < hash && NoSpaceIn(hash)
  }

  lemma {:induction false} WordOfWord(word: string, rest: string)
    requires NoSpaceIn(word) && rest != "" && IsSpace(rest[0])
    ensures Word(word + rest) == word
  {
    if word == "" {
      assert word + rest == rest;
    } else {
      assert (word + rest)[1..] == word[1..] + rest;
      WordOfWord(word[1..], rest);
    }
  }

  lemma HashLineIsRead(hash: string, rest: string)
    requires IsContentHash(hash)
    ensures FirstHash(HASH_LABEL + hash + "\n" + rest) == Some(hash)
  {
    var s := HASH_LABEL + hash + "\n" + rest;
    assert s[|HASH_LABEL|..] == hash + ("\n" + rest);
    WordOfWord(hash, "\n" + rest);
    assert s[|HASH_LABEL| + |hash|..] == "\n" + rest;
  }

  /** A part of the text at which nothing matches is skipped. */
  lemma {:induction false} NothingInFront(s: string, rest: string, here: string -> Option<string>)
    requires forall i :: 0 <= i < |s| ==> here((s + rest)[i..]) == None
    ensures First(s + rest, here) == First(rest, here)
  {
    if s == "" {
      assert s + rest == rest;
    } else {
      assert (s + rest)[0..] == s + rest && (s + rest)[1..] == s[1..] + rest;
      forall i | 0 <= i < |s[1..]|
        ensures here((s[1..] + rest)[i..]) == None
      {
        assert (s[1..] + rest)[i..] == (s + rest)[i + 1..];
      }
      NothingInFront(s[1..], rest, here);
    }
  }

  /** The label's first, second and fourth character, where it stands in a text. */
  lemma LabelAt(s: string, i: nat)
    requires i <= |s| && EvidenceHere(s[i..]).Some?
    ensures i + 3 < |s| && s[i] == '-' && s[i + 1] == ' ' && s[i + 3] == 'a'
  {
    assert s[i..][..|EVIDENCE_LABEL|] == EVIDENCE_LABEL;
    assert s[i] == s[i..][0] && s[i + 1] == s[i..][1] && s[i + 3] == s[i..][3];
  }

  lemma HashLineHasNoLabel(hash: string, rest: string, i: nat)
    requires NoSpaceIn(hash) && i < |HASH_LABEL + hash + "\n"| && i + 3 < |HASH_LABEL + hash + "\n" + rest|
    ensures var s := HASH_LABEL + hash + "\n" + rest;
            s[i] != '-' || s[i + 1] != ' ' || s[i + 3] != 'a'
  {
    var s := HASH_LABEL + hash + "\n" + rest;
    if i < |HASH_LABEL| {
      assert s[i] == HASH_LABEL[i] && s[3] == HASH_LABEL[3] == 'o';
      assert i == 0 || HASH_LABEL[i] != '-';
    } else if i < |HASH_LABEL| + |hash| - 1 {
      assert s[i + 1] == hash[i + 1 - |HASH_LABEL|];
    } else {
      assert s[|HASH_LABEL| + |hash|] == '\n';
    }
  }

  lemma HashLineHoldsNoEvidence(hash: string, rest: string)
    requires NoSpaceIn(hash)
    ensures FirstEvidence(HASH_LABEL + hash + "\n" + rest) == FirstEvidence(rest)
  {
    var line := HASH_LABEL + hash + "\n";
    forall i | 0 <= i < |line|
      ensures EvidenceHere((line + rest)[i..]) == None
    {
      if EvidenceHere((line + rest)[i..]).Some? {
        LabelAt(line + rest, i);
        HashLineHasNoLabel(hash, rest, i);
      }
    }
    NothingInFront(line, rest, EvidenceHere);
  }

  lemma {:induction false} EvidenceIsShorter(s: string)
    ensures FirstEvidence(s).Some? ==> |FirstEvidence(s).value| + |EVIDENCE_LABEL| <= |s|
  {
    if EvidenceHere(s).Some? {
      LineIsPrefix(s[|EVIDENCE_LABEL|..]);
      TrimIsShorter(UpToNewline(s[|EVIDENCE_LABEL|..]));
    } else if s != "" {
      EvidenceIsShorter(s[1..]);
    }
  }

  lemma {:induction false} LineIsPrefix(s: string)
    ensures UpToNewline(s) <= s && '\n' !in UpToNewline(s)
    ensures '\n' !in s ==> UpToNewline(s) == s
  {
    if s != "" && s[0] != '\n' {
      LineIsPrefix(s[1..]);
      assert s == [s[0]] + s[1..];
    }
  }

  lemma TrimIsShorter(s: string)
    ensures |Trim(s)| <= |s|
  {
    var cut := TrimStartCut(s);
    TrimEndIsPrefix(TrimStart(s));
  }

  /** An identifier that its line gives back. */
  predicate OneTrimmedLine(s: string) {
    s != "" && '\n' !in s && Trim(s) == s
  }

  /** Inside the label no label begins. */
  lemma LabelIsSkipped(rest: string)
    requires EvidenceHere(EVIDENCE_LABEL + rest) == None
    ensures FirstEvidence(EVIDENCE_LABEL + rest) == FirstEvidence(rest)
  {
    var s := EVIDENCE_LABEL + rest;
    forall i | 0 <= i < |EVIDENCE_LABEL|
      ensures EvidenceHere(s[i..]) == None
    {
      assert s[0..] == s;
      assert s[i] == EVIDENCE_LABEL[i] && (i == 0 || EVIDENCE_LABEL[i] != '-');
      if EvidenceHere(s[i..]).Some? {
        LabelAt(s, i);
      }
    }
    NothingInFront(EVIDENCE_LABEL, rest, EvidenceHere);
  }

  lemma EvidenceLineIsRead(evidence: string)
    ensures FirstEvidence(EVIDENCE_LABEL + (evidence + "\n")) == Some(evidence) <==> OneTrimmedLine(evidence)
  {
    var rest := evidence + "\n";
    var s := EVIDENCE_LABEL + rest;
    assert s[|EVIDENCE_LABEL|..] == rest;
    LineIsPrefix(rest);
    if UpToNewline(rest) != "" {
      TrimHasNoNewline(UpToNewline(rest));
      if '\n' !in evidence {
        LineOfLine(evidence);
      }
    } else {
      LabelIsSkipped(rest);
      EvidenceIsShorter(rest);
      if OneTrimmedLine(evidence) {
        LineOfLine(evidence);
      }
    }
  }

  lemma {:induction false} LineOfLine(s: string)
    requires '\n' !in s
    ensures UpToNewline(s + "\n") == s
  {
    if s != "" {
      LineOfLine(s[1..]);
      assert (s + "\n")[1..] == s[1..] + "\n";
    }
  }

  lemma TrimHasNoNewline(s: string)
    requires '\n' !in s
    ensures '\n' !in Trim(s)
  {
    var cut := TrimStartCut(s);
    TrimEndIsPrefix(TrimStart(s));
  }

  // ---------------------------------------------------------------- the quarantined page

  datatype Fingerprint = Fingerprint(evidence: string, hash: string)

  /** Everything in a quarantined page in front of its two provenance lines. */
  function QuarantinePreamble(name: string, content: string): string {
    "# " + name + " (quarantined)\n\n> Contradicts the published page. Not merged; only Ming can resolve it.\n\n" + content + "\n\n"
  }

  function ProvenanceLines(fingerprint: Fingerprint): string {
    HASH_LABEL + fingerprint.hash + "\n" + (EVIDENCE_LABEL + (fingerprint.evidence + "\n"))
  }

  function QuarantineText(name: string, content: string, fingerprint: Fingerprint): string {
    QuarantinePreamble(name, content) + ProvenanceLines(fingerprint)
  }

  /** The fingerprint a quarantined page is reloaded with. */
  function ReadFingerprint(text: string): Option<Fingerprint> {
    match (FirstHash(text), FirstEvidence(text))
    case (Some(hash), Some(evidence)) => Some(Fingerprint(evidence, hash))
    case _ => None
  }

  /** Nothing in front of the provenance lines reads as different provenance. */
  predicate ReadsBack(name: string, content: string, fingerprint: Fingerprint) {
    var preamble := QuarantinePreamble(name, content);
    && (FirstHash(preamble) == None || FirstHash(preamble) == Some(fingerprint.hash))
    && (FirstEvidence(preamble) == Some(fingerprint.evidence) ||
        (FirstEvidence(preamble) == None && OneTrimmedLine(fingerprint.evidence)))
  }

  lemma ProvenanceLinesAreRead(fingerprint: Fingerprint)
    requires IsContentHash(fingerprint.hash)
    ensures FirstHash(ProvenanceLines(fingerprint)) == Some(fingerprint.hash)
    ensures FirstEvidence(ProvenanceLines(fingerprint)) == Some(fingerprint.evidence) <==> OneTrimmedLine(fingerprint.evidence)
  {
    var evidenceLine := EVIDENCE_LABEL + (fingerprint.evidence + "\n");
    HashLineIsRead(fingerprint.hash, evidenceLine);
    HashLineHoldsNoEvidence(fingerprint.hash, evidenceLine);
    EvidenceLineIsRead(fingerprint.evidence);
  }

  /** A quarantined page is reloaded with its own fingerprint exactly when nothing in its name or content
    * reads as different provenance, and its evidence identity is one trimmed line. */
  lemma QuarantineReadsBack(name: string, content: string, fingerprint: Fingerprint)
    requires IsContentHash(fingerprint.hash)
    ensures ReadFingerprint(QuarantineText(name, content, fingerprint)) == Some(fingerprint) <==> ReadsBack(name, content, fingerprint)
  {
    var preamble := QuarantinePreamble(name, content);
    LabelsAreLocal();
    FirstInFront(preamble, ProvenanceLines(fingerprint), HashHere);
    FirstInFront(preamble, ProvenanceLines(fingerprint), EvidenceHere);
    ProvenanceLinesAreRead(fingerprint);
  }
}
