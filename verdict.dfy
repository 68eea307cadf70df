/**
 * The verdict engine of the CyberGuardian agent (`generate_metadata`):
 * from a message and the classifier's label and score it derives the
 * risky-keyword hits, a severity tier, the likely source channel, a
 * recommended action, the override decision with its confidence floor,
 * and the verdict and explanation texts. It is a total, pure function.
 */
module VerdictEngine {
  import opened Text

  // ---------------------------------------------------------------------
  // Constants of the decision table
  // ---------------------------------------------------------------------

  const BankAccount: string := "bank account"
  const UpdateNow: string := "update now"
  const Verify: string := "verify"
  const ClickHere: string := "click here"
  const Urgent: string := "urgent"
  const Suspend: string := "suspend"
  const ClaimPrize: string := "claim prize"

  /** The fixed risky-keyword list, in display order. */
  const RiskyKeywords: seq<string> :=
    [BankAccount, UpdateNow, Verify, ClickHere, Urgent, Suspend, ClaimPrize]

  /** Keywords that make a message high severity. */
  const HighTier: seq<string> := [BankAccount, UpdateNow, Urgent]

  /** Keywords that make a message medium severity when no high-tier keyword occurs. */
  const MediumTier: seq<string> := [ClickHere, Verify]

  /** The word whose presence (besides "verify") marks a message as an email. */
  const Account: string := "account"

  /** The classifier's "phishing" label; the benign label is "LABEL_0". */
  const MaliciousLabel: string := "LABEL_1"

  /** Score the override raises a malicious verdict to, at least. */
  const ConfidenceFloor: real := 0.95

  /** Number of keyword hits that overrides a benign classification. */
  const OverrideHits: nat := 2

  const ReportAction: string := "Report to authorities"
  const IgnoreAction: string := "Ignore or delete"

  /** "✅ This message appears safe." */
  const SafeVerdict: string := "\U{2705} This message appears safe."

  /** Opening sentence of the explanation when no keyword was hit. */
  const NoPatternsSentence: string := "The message did not contain known phishing patterns."

  /** Opening words of the explanation when some keyword was hit. */
  const KeywordsOpening: string := "The message contains keywords like "

  // ---------------------------------------------------------------------
  // Result values
  // ---------------------------------------------------------------------

  datatype Severity = Low | Medium | High {
    /** The value written to the audit record. */
    function Name(): string {
      match this
      case Low => "low"
      case Medium => "medium"
      case High => "high"
    }
  }

  datatype Source = Email | Sms {
    /** The value written to the audit record (note the upper-case "SMS"). */
    function Name(): string {
      match this
      case Email => "email"
      case Sms => "SMS"
    }
  }

  /** Outcome of the override rule: whether it fired, and the label and score it leaves. */
  datatype Decision = Decision(fires: bool, finalLabel: string, finalScore: real)

  /** Everything `generate_metadata` derives (the first five fields are what it returns). */
  datatype Metadata = Metadata(
    severity: Severity,
    source: Source,
    recommendation: string,
    verdict: string,
    agentDecision: string,
    hits: seq<string>,
    decision: Decision)

  // ---------------------------------------------------------------------
  // Keyword hits
  // ---------------------------------------------------------------------

  /** No string occurs twice in `s`. */
  predicate NoDuplicates(s: seq<string>) {
    forall i, j :: 0 <= i < j < |s| ==> s[i] != s[j]
  }

  /** `a` is `b` with some elements dropped, order kept. */
  predicate SubsequenceOf(a: seq<string>, b: seq<string>)
    decreases |b|
  {
    if a == [] then true
    else if b == [] then false
    else if a[0] == b[0] then SubsequenceOf(a[1..], b[1..])
    else SubsequenceOf(a, b[1..])
  }

  /** Python's `[kw for kw in keywords if kw in text]`. */
  function Matching(keywords: seq<string>, text: string): (hits: seq<string>)
    ensures |hits| <= |keywords|
    ensures forall h :: h in hits <==> h in keywords && Contains(text, h)
    ensures SubsequenceOf(hits, keywords)
    ensures NoDuplicates(keywords) ==> NoDuplicates(hits)
  {
    if keywords == [] then []
    else
      var rest := Matching(keywords[1..], text);
      if Contains(text, keywords[0]) then
        assert NoDuplicates(keywords) ==> keywords[0] !in keywords[1..];
        assert ([keywords[0]] + rest)[1..] == rest;
        [keywords[0]] + rest
      else
        assert rest != [] ==> rest[0] != keywords[0] by {
          if rest != [] { assert rest[0] in rest; }
        }
        rest
  }

  /** Every element of a subsequence is an element of the whole. */
  lemma {:induction false} SubsequenceMembers(a: seq<string>, b: seq<string>)
    requires SubsequenceOf(a, b)
    ensures forall x :: x in a ==> x in b
    decreases |b|
  {
    if a != [] {
      if a[0] == b[0] {
        SubsequenceMembers(a[1..], b[1..]);
        forall x | x in a ensures x in b {
          if x != a[0] { assert x in a[1..]; }
        }
      } else {
        SubsequenceMembers(a, b[1..]);
      }
    }
  }

  lemma RiskyKeywordsDistinct()
    ensures NoDuplicates(RiskyKeywords)
  {
  }

  /**
   * The keyword hits of a lower-cased message: exactly the risky keywords
   * that occur in it, in list order, each once, hence at most seven.
   */
  function KeywordHits(lowered: string): (hits: seq<string>)
    ensures |hits| <= |RiskyKeywords|
    ensures forall h :: h in hits <==> h in RiskyKeywords && Contains(lowered, h)
    ensures SubsequenceOf(hits, RiskyKeywords)
    ensures NoDuplicates(hits)
  {
    RiskyKeywordsDistinct();
    Matching(RiskyKeywords, lowered)
  }

  /**
   * Independent characterisation of the hits: any duplicate-free ordered
   * selection from `keywords` that holds exactly the contained keywords is
   * the comprehension's result.
   */
  lemma {:induction false} MatchingUnique(keywords: seq<string>, text: string, sel: seq<string>)
    requires NoDuplicates(keywords)
    requires SubsequenceOf(sel, keywords)
    requires forall h :: h in sel <==> h in keywords && Contains(text, h)
    ensures sel == Matching(keywords, text)
    decreases |keywords|
  {
    if keywords == [] {
      assert sel == [];
    } else {
      var k := keywords[0];
      var tail := keywords[1..];
      assert NoDuplicates(tail) by {
        forall i, j | 0 <= i < j < |tail| ensures tail[i] != tail[j] {
          assert tail[i] == keywords[i + 1] && tail[j] == keywords[j + 1];
        }
      }
      assert k !in tail;
      if sel != [] && sel[0] == k {
        var rest := sel[1..];
        assert SubsequenceOf(rest, tail);
        forall h ensures h in rest <==> h in tail && Contains(text, h) {
          if h in rest {
            SubsequenceMembers(rest, tail);
          }
          if h in tail && Contains(text, h) {
            assert h in sel && h != k;
            assert h in rest;
          }
        }
        MatchingUnique(tail, text, rest);
      } else {
        if sel != [] {
          assert SubsequenceOf(sel, tail);
          SubsequenceMembers(sel, tail);
        }
        assert k !in sel;
        assert SubsequenceOf(sel, tail);
        MatchingUnique(tail, text, sel);
      }
    }
  }

  /** When no keyword occurs, there are no hits. */
  lemma {:induction false} MatchingNone(keywords: seq<string>, text: string)
    requires forall j :: 0 <= j < |keywords| ==> !Contains(text, keywords[j])
    ensures Matching(keywords, text) == []
    decreases |keywords|
  {
    if keywords != [] {
      assert !Contains(text, keywords[0]);
      MatchingNone(keywords[1..], text);
    }
  }

  /** When exactly the keyword at index `i` occurs, it is the only hit. */
  lemma {:induction false} MatchingSingle(keywords: seq<string>, text: string, i: nat)
    requires i < |keywords| && Contains(text, keywords[i])
    requires forall j :: 0 <= j < |keywords| && j != i ==> !Contains(text, keywords[j])
    ensures Matching(keywords, text) == [keywords[i]]
    decreases |keywords|
  {
    var tail := keywords[1..];
    if i == 0 {
      MatchingNone(tail, text);
    } else {
      assert !Contains(text, keywords[0]);
      MatchingSingle(tail, text, i - 1);
    }
  }

  /** `KeywordHits` is the one list that meets its contract. */
  lemma KeywordHitsUnique(lowered: string, sel: seq<string>)
    requires SubsequenceOf(sel, RiskyKeywords)
    requires forall h :: h in sel <==> h in RiskyKeywords && Contains(lowered, h)
    ensures sel == KeywordHits(lowered)
  {
    RiskyKeywordsDistinct();
    MatchingUnique(RiskyKeywords, lowered, sel);
  }

  // ---------------------------------------------------------------------
  // Severity, source, recommendation
  // ---------------------------------------------------------------------

  /** Python's `any(kw in text for kw in keywords)`. */
  predicate AnyContained(keywords: seq<string>, text: string)
    ensures AnyContained(keywords, text) <==> exists k :: k in keywords && Contains(text, k)
  {
    assert forall k :: k in keywords ==> exists i :: 0 <= i < |keywords| && keywords[i] == k;
    exists i | 0 <= i < |keywords| :: Contains(text, keywords[i])
  }

  /** Severity tier, first matching tier wins. */
  function SeverityOf(lowered: string): (sev: Severity)
    ensures sev == High <==>
      Contains(lowered, BankAccount) || Contains(lowered, UpdateNow) || Contains(lowered, Urgent)
    ensures sev == Medium <==>
      !(Contains(lowered, BankAccount) || Contains(lowered, UpdateNow) || Contains(lowered, Urgent))
      && (Contains(lowered, ClickHere) || Contains(lowered, Verify))
    ensures sev == Low <==>
      !(Contains(lowered, BankAccount) || Contains(lowered, UpdateNow) || Contains(lowered, Urgent)
        || Contains(lowered, ClickHere) || Contains(lowered, Verify))
  {
    assert AnyContained(HighTier, lowered) <==>
      Contains(lowered, HighTier[0]) || Contains(lowered, HighTier[1]) || Contains(lowered, HighTier[2]);
    assert AnyContained(MediumTier, lowered) <==>
      Contains(lowered, MediumTier[0]) || Contains(lowered, MediumTier[1]);
    if AnyContained(HighTier, lowered) then High
    else if AnyContained(MediumTier, lowered) then Medium
    else Low
  }

  /**
   * Source channel: "email" when "verify" or "account" occurs, else "SMS".
   * Since "account" is a part of "bank account", every message with that
   * high-tier keyword is taken to be an email.
   */
  function SourceOf(lowered: string): (src: Source)
    ensures src == Email <==> Contains(lowered, Verify) || Contains(lowered, Account)
    ensures Contains(lowered, BankAccount) ==> src == Email
  {
    BankAccountMentionsAccount(lowered);
    if Contains(lowered, Verify) || Contains(lowered, Account) then Email else Sms
  }

  /** Any text holding "bank account" holds "account". */
  lemma BankAccountMentionsAccount(text: string)
    ensures Contains(text, BankAccount) ==> Contains(text, Account)
  {
    if Contains(text, BankAccount) {
      assert BankAccount[5..] == Account;
      ContainsAt(BankAccount, Account, 5);
      ContainsTransitive(text, BankAccount, Account);
    }
  }

  /** Recommended action: report high-severity messages, otherwise ignore. */
  function RecommendationFor(sev: Severity): (r: string)
    ensures r == ReportAction <==> sev == High
    ensures r == IgnoreAction <==> sev != High
  {
    if sev == High then ReportAction else IgnoreAction
  }

  // ---------------------------------------------------------------------
  // Override
  // ---------------------------------------------------------------------

  /** Python's `max(a, b)`: the larger of the two. */
  function Max(a: real, b: real): (r: real)
    ensures r >= a && r >= b
    ensures r == a || r == b
  {
    if a >= b then a else b
  }

  /**
   * The override rule: it fires for a malicious label or for two or more
   * keyword hits; then the label becomes malicious and the score is raised
   * to the confidence floor (never lowered). Otherwise both pass through.
   */
  function OverrideOf(rawLabel: string, rawScore: real, hits: seq<string>): (d: Decision)
    ensures d.fires <==> rawLabel == MaliciousLabel || |hits| >= OverrideHits
    ensures d.fires ==>
      && d.finalLabel == MaliciousLabel
      && d.finalScore >= ConfidenceFloor
      && d.finalScore >= rawScore
      && (d.finalScore == rawScore || d.finalScore == ConfidenceFloor)
    ensures !d.fires ==> d.finalLabel == rawLabel && d.finalScore == rawScore
  {
    var fires := rawLabel == MaliciousLabel || |hits| >= OverrideHits;
    Decision(fires,
             if fires then MaliciousLabel else rawLabel,
             if fires then Max(rawScore, ConfidenceFloor) else rawScore)
  }

  // ---------------------------------------------------------------------
  // Texts
  // ---------------------------------------------------------------------

  /** "⚠️ Warning: ... Classified as '" */
  const WarningOpening: string :=
    "\U{26A0}\U{FE0F} Warning: This message is likely a phishing attempt. Classified as '"
  const WarningMiddle: string := "' with "
  const WarningClosing: string :=
    " confidence based on risky keywords. Please do not click any links and report this message to the appropriate authority."

  /** The warning sentence, with the label and the already formatted score. */
  function WarningVerdict(finalLabel: string, scoreText: string): (v: string)
    ensures StartsWith(v, WarningOpening)
    ensures Contains(v, finalLabel) && Contains(v, scoreText)
    ensures |v| > |SafeVerdict|
  {
    FiveParts(WarningOpening, finalLabel, WarningMiddle, scoreText, WarningClosing);
    WarningOpening + finalLabel + WarningMiddle + scoreText + WarningClosing
  }

  /**
   * Verdict text: the fixed safe sentence exactly when the override did not
   * fire; otherwise a warning that names the final label and the final score
   * as rendered by `formatScore` (two decimals in the agent).
   */
  function VerdictText(d: Decision, formatScore: real -> string): (v: string)
    ensures v == SafeVerdict <==> !d.fires
    ensures d.fires ==> Contains(v, d.finalLabel) && Contains(v, formatScore(d.finalScore))
  {
    if d.fires then
      WarningVerdict(d.finalLabel, formatScore(d.finalScore))
    else SafeVerdict
  }

  const KeywordsClosing: string :=
    ", which are commonly used in phishing attempts. Based on this, the agent classified it as '"
  const NoPatternsClosing: string := " The agent classified it as '"

  /**
   * Explanation text (`agent_decision`). It always quotes the verdict. It
   * opens with the "no known phishing patterns" sentence exactly when there
   * are no hits; otherwise it lists the hits joined by ", ".
   */
  function Explanation(hits: seq<string>, verdict: string): (e: string)
    ensures Contains(e, verdict)
    ensures hits == [] <==> StartsWith(e, NoPatternsSentence)
    ensures hits != [] ==> StartsWith(e, KeywordsOpening) && Contains(e, Join(hits, ", "))
    ensures forall h :: h in hits ==> Contains(e, h)
  {
    if hits != [] then
      var joined := Join(hits, ", ");
      var e := KeywordsOpening + joined + KeywordsClosing + verdict + "'.";
      FiveParts(KeywordsOpening, joined, KeywordsClosing, verdict, "'.");
      assert e[12] == KeywordsOpening[12] != NoPatternsSentence[12];
      forall h | h in hits ensures Contains(e, h) {
        var k :| 0 <= k < |hits| && hits[k] == h;
        JoinContainsEach(hits, ", ", k);
        ContainsTransitive(e, joined, h);
      }
      e
    else
      FourParts(NoPatternsSentence, NoPatternsClosing, verdict, "'.");
      NoPatternsSentence + NoPatternsClosing + verdict + "'."
  }

  // ---------------------------------------------------------------------
  // generate_metadata
  // ---------------------------------------------------------------------

  /**
   * `generate_metadata(message, label, score)`. The score is rendered in the
   * verdict by `formatScore`, which stands for Python's two-decimal format.
   */
  function GenerateMetadata(message: string, rawLabel: string, rawScore: real, formatScore: real -> string): (m: Metadata)
    ensures m.hits == KeywordHits(Lower(message))
    ensures m.recommendation == ReportAction <==> m.severity == High
    ensures m.severity != Low ==> |m.hits| >= 1
    ensures Contains(Lower(message), BankAccount) ==> m.severity == High && m.source == Email
    ensures m.decision.fires <==> rawLabel == MaliciousLabel || |m.hits| >= OverrideHits
    ensures m.verdict == SafeVerdict <==> rawLabel != MaliciousLabel && |m.hits| < OverrideHits
    ensures Contains(m.agentDecision, m.verdict)
    ensures m.hits == [] <==> StartsWith(m.agentDecision, NoPatternsSentence)
  {
    var lowered := Lower(message);
    var hits := KeywordHits(lowered);
    var severity := SeverityOf(lowered);
    var decision := OverrideOf(rawLabel, rawScore, hits);
    var verdict := VerdictText(decision, formatScore);
    SeverityHasHit(lowered);
    Metadata(severity, SourceOf(lowered), RecommendationFor(severity), verdict,
             Explanation(hits, verdict), hits, decision)
  }

  // ---------------------------------------------------------------------
  // Properties relating the outputs
  // ---------------------------------------------------------------------

  /** A medium or high severity always comes with at least one keyword hit (the converse fails: "suspend" alone is low). */
  lemma SeverityHasHit(lowered: string)
    ensures SeverityOf(lowered) != Low ==> |KeywordHits(lowered)| >= 1
  {
    var hits := KeywordHits(lowered);
    if SeverityOf(lowered) != Low {
      var k :| k in [BankAccount, UpdateNow, Urgent, ClickHere, Verify] && Contains(lowered, k);
      assert k in RiskyKeywords;
      assert k in hits;
    }
  }

  /** Matching is case-insensitive: lower-casing the message first changes nothing. */
  lemma MetadataCaseInsensitive(message: string, rawLabel: string, rawScore: real, formatScore: real -> string)
    ensures GenerateMetadata(Lower(message), rawLabel, rawScore, formatScore) == GenerateMetadata(message, rawLabel, rawScore, formatScore)
  {
    LowerIdempotent(message);
  }

  /**
   * The recommendation depends on the message only: neither the label, the
   * score nor the override outcome changes it.
   */
  lemma RecommendationIgnoresClassifier(message: string, label1: string, score1: real, label2: string, score2: real, formatScore: real -> string)
    ensures GenerateMetadata(message, label1, score1, formatScore).recommendation
         == GenerateMetadata(message, label2, score2, formatScore).recommendation
    ensures GenerateMetadata(message, label1, score1, formatScore).recommendation == ReportAction
         <==> SeverityOf(Lower(message)) == High
  {
  }
}
