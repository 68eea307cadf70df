/**
 * Consequences of the verdict engine's decision table for whole classes of
 * messages, and the "click here" example where a medium-severity message
 * is still reported as safe.
 */
module Scenarios {
  import opened Text
  import opened VerdictEngine

  lemma TwoMembersMeanTwo(s: seq<string>, x: string, y: string)
    requires x in s && y in s && x != y
    ensures |s| >= 2
  {
  }

  /** A single keyword hit with a benign label is not enough: the verdict stays "appears safe". */
  lemma SingleHitStaysSafe(message: string, rawLabel: string, rawScore: real, formatScore: real -> string)
    requires |KeywordHits(Lower(message))| == 1 && rawLabel != MaliciousLabel
    ensures GenerateMetadata(message, rawLabel, rawScore, formatScore).verdict == SafeVerdict
    ensures GenerateMetadata(message, rawLabel, rawScore, formatScore).decision == Decision(false, rawLabel, rawScore)
  {
  }

  /**
   * A message that mentions both "urgent" and "bank account" (such as
   * "Urgent: verify your bank account now") is high severity, an email,
   * reported, and overridden to the malicious label with the score raised
   * to at least the confidence floor, whatever the classifier said.
   */
  lemma UrgentBankAccountOverrides(message: string, rawLabel: string, rawScore: real, formatScore: real -> string)
    requires Contains(Lower(message), Urgent) && Contains(Lower(message), BankAccount)
    ensures var m := GenerateMetadata(message, rawLabel, rawScore, formatScore);
      && m.severity == High
      && m.source == Email
      && m.recommendation == ReportAction
      && m.decision == Decision(true, MaliciousLabel, Max(rawScore, ConfidenceFloor))
      && m.verdict != SafeVerdict
  {
    var hits := KeywordHits(Lower(message));
    assert Urgent in hits && BankAccount in hits;
    TwoMembersMeanTwo(hits, Urgent, BankAccount);
  }

  /**
   * A benign-labelled message with no risky keyword and no "account" (such
   * as "Hey, are we still meeting at 5?") keeps its label and score: no
   * hits, low severity, SMS, "Ignore or delete", the safe verdict and the
   * "no known phishing patterns" explanation.
   */
  lemma NoRiskyWordsIsSafe(message: string, rawLabel: string, rawScore: real, formatScore: real -> string)
    requires forall i :: 0 <= i < |RiskyKeywords| ==> !Contains(Lower(message), RiskyKeywords[i])
    requires !Contains(Lower(message), Account)
    requires rawLabel != MaliciousLabel
    ensures var m := GenerateMetadata(message, rawLabel, rawScore, formatScore);
      && m.hits == []
      && m.severity == Low
      && m.source == Sms
      && m.recommendation == IgnoreAction
      && m.decision == Decision(false, rawLabel, rawScore)
      && m.verdict == SafeVerdict
      && StartsWith(m.agentDecision, NoPatternsSentence)
  {
    MatchingNone(RiskyKeywords, Lower(message));
  }

  /**
   * A benign-labelled message whose only risky keyword is "click here" and
   * which does not mention "account": one hit, medium severity, SMS,
   * "Ignore or delete", and still the safe verdict with label and score
   * unchanged, because the override needs two hits.
   */
  lemma ClickHereAlone(message: string, rawLabel: string, rawScore: real, formatScore: real -> string)
    requires Contains(Lower(message), ClickHere)
    requires forall i :: 0 <= i < |RiskyKeywords| && i != 3 ==> !Contains(Lower(message), RiskyKeywords[i])
    requires !Contains(Lower(message), Account)
    requires rawLabel != MaliciousLabel
    ensures var m := GenerateMetadata(message, rawLabel, rawScore, formatScore);
      && m.hits == [ClickHere]
      && m.severity == Medium
      && m.source == Sms
      && m.recommendation == IgnoreAction
      && m.verdict == SafeVerdict
      && m.decision == Decision(false, rawLabel, rawScore)
  {
    var lowered := Lower(message);
    assert RiskyKeywords[0] == BankAccount && RiskyKeywords[1] == UpdateNow && RiskyKeywords[2] == Verify;
    assert RiskyKeywords[3] == ClickHere && RiskyKeywords[4] == Urgent;
    assert !Contains(lowered, BankAccount) && !Contains(lowered, UpdateNow) && !Contains(lowered, Urgent);
    assert !Contains(lowered, Verify);
    MatchingSingle(RiskyKeywords, lowered, 3);
    assert KeywordHits(lowered) == [ClickHere];
    assert SeverityOf(lowered) == Medium;
    assert SourceOf(lowered) == Sms;
  }

  /** Of the risky keywords and "account", "click here" contains only itself. */
  lemma ClickHereText()
    ensures forall i :: 0 <= i < |RiskyKeywords| && i != 3 ==> !Contains(ClickHere, RiskyKeywords[i])
    ensures !Contains(ClickHere, Account)
  {
    MissingCharNotContained(ClickHere, BankAccount, 0);
    MissingCharNotContained(ClickHere, UpdateNow, 0);
    MissingCharNotContained(ClickHere, Verify, 0);
    MissingCharNotContained(ClickHere, Urgent, 0);
    MissingCharNotContained(ClickHere, Suspend, 0);
    MissingCharNotContained(ClickHere, ClaimPrize, 4);
    MissingCharNotContained(ClickHere, Account, 0);
  }

  /**
   * The message "click here" with the benign label and score 0.3: one hit,
   * medium severity, SMS, "Ignore or delete", and the safe verdict.
   */
  lemma ClickHereExample(formatScore: real -> string)
    ensures var m := GenerateMetadata(ClickHere, "LABEL_0", 0.3, formatScore);
      && m.hits == [ClickHere]
      && m.severity == Medium
      && m.source == Sms
      && m.recommendation == IgnoreAction
      && m.verdict == SafeVerdict
      && m.decision == Decision(false, "LABEL_0", 0.3)
  {
    LowerOfLowerCase(ClickHere);
    ContainsSelf(ClickHere);
    ClickHereText();
    ClickHereAlone(ClickHere, "LABEL_0", 0.3, formatScore);
  }
}
