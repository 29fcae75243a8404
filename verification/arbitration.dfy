/** The rule engine of the dispute arbitration service
    (backend/dispute_arbitration_api.py): keyword scoring of the chat log,
    completeness scoring of each party's evidence, the decision table that
    assigns responsibility and a resolution, and the confidence, reasons,
    summary and recommendations of the response. The AI opinion is an opaque
    string handed in by the caller. */
module Arbitration {
  import opened Base
  import opened Text

  /** The `dispute_type` field; `Unlisted` stands for any other or missing value. */
  datatype DisputeType =
    | NotReceived | NotAsDescribed | Damaged | Fake | SellerNoShip | BuyerNoPay | OtherDispute
    | Unlisted

  /** The `type` of an evidence item; `UnknownKind` stands for any other or missing value. */
  datatype EvidenceKind = TextEvidence | ImageEvidence | TrackingEvidence | UnknownKind

  datatype Evidence = Evidence(kind: EvidenceKind, content: string, description: string)

  /** The analysis request (missing list fields default to the empty list). */
  datatype DisputeRequest = DisputeRequest(
    disputeType: DisputeType,
    buyerEvidence: seq<Evidence>,
    sellerEvidence: seq<Evidence>,
    chatHistory: seq<string>)

  /** What the two analysers return beside their score: a list of finding
      lines, or, when their input is empty, a bare message string. */
  datatype Findings = Lines(lines: seq<string>) | Message(text: string)

  /** Python truthiness of a findings value. */
  predicate NonEmpty(f: Findings)
  {
    match f
    case Lines(ls) => ls != []
    case Message(t) => t != ""
  }

  datatype Judgment = Judgment(responsibility: string, resolution: string, confidence: int, reason: string)

  datatype EvidenceSummary = EvidenceSummary(buyerCount: nat, sellerCount: nat, chatCount: nat)

  datatype DisputeResponse = DisputeResponse(
    responsibility: string,
    responsibilityText: string,
    resolution: string,
    resolutionText: string,
    confidence: int,
    detailedReasons: seq<string>,
    summary: EvidenceSummary,
    recommendations: seq<string>)

  const ResponsibilityRules: map<string, string> := map[
    "seller" := "卖家责任",
    "buyer" := "买家责任",
    "both" := "双方责任",
    "platform" := "平台责任",
    "unclear" := "责任不明确"]

  const ResolutionOptions: map<string, string> := map[
    "full_refund" := "全额退款给买家",
    "partial_refund" := "部分退款",
    "release_funds" := "正常放款给卖家",
    "extend_escrow" := "延长托管期",
    "manual_review" := "需要人工深度审核"]

  const ThreatKeywords: seq<string> := ["投诉", "举报", "律师", "起诉", "警察", "曝光"]
  const PromiseKeywords: seq<string> := ["保证", "承诺", "一定", "肯定"]
  const RefuseKeywords: seq<string> := ["不管", "不理", "不回", "拉黑"]

  const NoChatHistory: string := "无聊天记录"
  const NoEvidence: string := "未提供证据"
  const DefaultReason: string := "证据不足，需要人工审核"
  const AiFailed: string := "AI 分析失败"

  const HighTierLine: string := "置信度高，建议直接执行仲裁决定"
  const MediumTierLine: string := "置信度中等，建议人工复核后执行"
  const LowTierLine: string := "置信度较低，强烈建议人工深度审核"

  const RuleLabel: string := "📋 规则判断: "
  const BuyerEvidenceLabel: string := "🔍 买家证据: "
  const SellerEvidenceLabel: string := "🔍 卖家证据: "
  const ChatLabel: string := "💬 聊天分析: "
  const AiLabel: string := "🤖 AI 分析: "

  /** The chat messages joined by spaces and lower-cased. */
  function ChatText(messages: seq<string>): string
  {
    Lower(Join(messages, " "))
  }

  /** Some keyword of `keywords` occurs in the chat log. */
  predicate Mentions(messages: seq<string>, keywords: seq<string>)
  {
    exists k :: k in keywords && Contains(ChatText(messages), k)
  }

  function Flag(b: bool): nat { if b then 1 else 0 }

  const ThreatHeading: string := "检测到威胁性语言: "
  const PromiseHeading: string := "发现承诺性语言: "
  const RefuseHeading: string := "检测到拒绝沟通: "

  /** The finding for one keyword family: its heading followed by the
      family's keywords found in `text`, or nothing when none is found. */
  function KeywordFinding(heading: string, keywords: seq<string>, text: string): (r: seq<string>)
    ensures |r| <= 1
  {
    var found := FoundKeywords(keywords, text);
    if found == [] then [] else [heading + Join(found, ", ")]
  }

  /** The findings of `analyze_chat_history`: threats, promises and
      refusals to communicate, in that order. */
  function ChatFindings(messages: seq<string>): Findings
  {
    if messages == [] then Message(NoChatHistory)
    else
      var text := ChatText(messages);
      Lines(KeywordFinding(ThreatHeading, ThreatKeywords, text)
            + KeywordFinding(PromiseHeading, PromiseKeywords, text)
            + KeywordFinding(RefuseHeading, RefuseKeywords, text))
  }

  /** A family's finding is present exactly when the chat mentions one of
      its keywords, and it lists exactly the family's keywords that occur. */
  lemma KeywordFindingReports(messages: seq<string>, heading: string, keywords: seq<string>)
    ensures KeywordFinding(heading, keywords, ChatText(messages)) != [] <==> Mentions(messages, keywords)
    ensures forall k :: k in FoundKeywords(keywords, ChatText(messages)) <==>
      k in keywords && Contains(ChatText(messages), k)
  {
    var found := FoundKeywords(keywords, ChatText(messages));
    FoundKeywordsMembers(keywords, ChatText(messages));
    if found != [] {
      assert found[0] in found;
    }
  }

  /** Where each family's finding sits among the chat findings. */
  lemma ChatFindingsOrder(messages: seq<string>)
    requires messages != []
    ensures var f := ChatFindings(messages); var text := ChatText(messages);
      var t, p, r := Flag(Mentions(messages, ThreatKeywords)), Flag(Mentions(messages, PromiseKeywords)),
        Flag(Mentions(messages, RefuseKeywords));
      && f.Lines? && |f.lines| == t + p + r
      && (t == 1 ==> f.lines[0] == ThreatHeading + Join(FoundKeywords(ThreatKeywords, text), ", "))
      && (p == 1 ==> f.lines[t] == PromiseHeading + Join(FoundKeywords(PromiseKeywords, text), ", "))
      && (r == 1 ==> f.lines[t + p] == RefuseHeading + Join(FoundKeywords(RefuseKeywords, text), ", "))
  {
    KeywordFindingReports(messages, ThreatHeading, ThreatKeywords);
    KeywordFindingReports(messages, PromiseHeading, PromiseKeywords);
    KeywordFindingReports(messages, RefuseHeading, RefuseKeywords);
  }

  /** `analyze_chat_history`: threats add 20, refusals to communicate add 15,
      promises only add a finding. */
  method AnalyzeChatHistory(messages: seq<string>) returns (score: int, findings: Findings)
    ensures messages == [] ==> score == 0 && findings == Message(NoChatHistory)
    ensures messages != [] ==>
      score == (if Mentions(messages, ThreatKeywords) then 20 else 0)
             + (if Mentions(messages, RefuseKeywords) then 15 else 0)
    ensures score in {0, 15, 20, 35}
    ensures findings == ChatFindings(messages)
  {
    if messages == [] {
      return 0, Message(NoChatHistory);
    }
    score := 0;
    var lines: seq<string> := [];
    var allText := ChatText(messages);

    var threats := FoundKeywords(ThreatKeywords, allText);
    if threats != [] {
      score := score + 20;
      lines := lines + [ThreatHeading + Join(threats, ", ")];
    }
    ghost var t := KeywordFinding(ThreatHeading, ThreatKeywords, allText);
    assert lines == t;
    assert score == if Mentions(messages, ThreatKeywords) then 20 else 0 by {
      KeywordFindingReports(messages, ThreatHeading, ThreatKeywords);
    }

    var promises := FoundKeywords(PromiseKeywords, allText);
    if promises != [] {
      lines := lines + [PromiseHeading + Join(promises, ", ")];
    }
    ghost var p := KeywordFinding(PromiseHeading, PromiseKeywords, allText);
    assert lines == t + p;

    var refusals := FoundKeywords(RefuseKeywords, allText);
    if refusals != [] {
      score := score + 15;
      lines := lines + [RefuseHeading + Join(refusals, ", ")];
    }
    ghost var r := KeywordFinding(RefuseHeading, RefuseKeywords, allText);
    assert lines == t + p + r;
    assert refusals != [] <==> Mentions(messages, RefuseKeywords) by {
      KeywordFindingReports(messages, RefuseHeading, RefuseKeywords);
    }
    findings := Lines(lines);
  }

  /** Some item of `evidence` has the given type. */
  predicate HasKind(evidence: seq<Evidence>, kind: EvidenceKind)
  {
    exists i :: 0 <= i < |evidence| && evidence[i].kind == kind
  }

  /** The line `analyze_evidence` writes for a kind that was supplied. */
  function ProvidedLine(kind: EvidenceKind): string
  {
    match kind
    case ImageEvidence => "✅ 提供了图片证据"
    case TextEvidence => "✅ 提供了文字说明"
    case TrackingEvidence => "✅ 提供了物流信息"
    case _ => ""
  }

  /** The line `analyze_evidence` writes for a kind that is missing. */
  function MissingLine(kind: EvidenceKind): string
  {
    match kind
    case ImageEvidence => "⚠️ 缺少图片证据"
    case TextEvidence => "⚠️ 缺少文字说明"
    case TrackingEvidence => "⚠️ 缺少物流信息"
    case _ => ""
  }

  /** The three kinds `analyze_evidence` checks, in the order of its lines. */
  const CheckedKinds: seq<EvidenceKind> := [ImageEvidence, TextEvidence, TrackingEvidence]

  function KindLine(evidence: seq<Evidence>, kind: EvidenceKind): string
  {
    if HasKind(evidence, kind) then ProvidedLine(kind) else MissingLine(kind)
  }

  /** The gap score of `analyze_evidence`: 30 without evidence; otherwise
      images count -10 (missing +15), text 0 (missing +10), tracking -15
      (missing +10), floored at 0. */
  function EvidenceScore(evidence: seq<Evidence>): int
  {
    if evidence == [] then 30
    else
      var raw := (if HasKind(evidence, ImageEvidence) then -10 else 15)
                 + (if HasKind(evidence, TextEvidence) then 0 else 10)
                 + (if HasKind(evidence, TrackingEvidence) then -15 else 10);
      if raw < 0 then 0 else raw
  }

  /** The findings of `analyze_evidence`: one line per checked kind. */
  function EvidenceFindings(evidence: seq<Evidence>): Findings
  {
    if evidence == [] then Message(NoEvidence)
    else Lines([KindLine(evidence, ImageEvidence), KindLine(evidence, TextEvidence), KindLine(evidence, TrackingEvidence)])
  }

  /** Each of the three lines is the ✅ line of its kind exactly when an
      item of that kind was supplied, and the ⚠️ line otherwise. */
  lemma EvidenceFindingsMarks(evidence: seq<Evidence>)
    requires evidence != []
    ensures EvidenceFindings(evidence).Lines? && |EvidenceFindings(evidence).lines| == |CheckedKinds|
    ensures forall i :: 0 <= i < |CheckedKinds| ==>
      (EvidenceFindings(evidence).lines[i] == ProvidedLine(CheckedKinds[i]) <==> HasKind(evidence, CheckedKinds[i]))
      && (EvidenceFindings(evidence).lines[i] == MissingLine(CheckedKinds[i]) <==> !HasKind(evidence, CheckedKinds[i]))
      && EvidenceFindings(evidence).lines[i][0] == (if HasKind(evidence, CheckedKinds[i]) then '✅' else '⚠')
  {
  }

  /** Once a party has supplied something, one more item never raises its
      gap score. (From no evidence at all, 30, a single item of another type
      gives 35.) */
  lemma MoreEvidenceNeverRaisesScore(evidence: seq<Evidence>, e: Evidence)
    ensures evidence != [] ==> EvidenceScore(evidence + [e]) <= EvidenceScore(evidence)
    ensures EvidenceScore([Evidence(UnknownKind, "", "")]) == 35
  {
    var more := evidence + [e];
    assert !HasKind([Evidence(UnknownKind, "", "")], ImageEvidence);
    forall kind | HasKind(evidence, kind)
      ensures HasKind(more, kind)
    {
      var i :| 0 <= i < |evidence| && evidence[i].kind == kind;
      assert more[i] == evidence[i];
    }
  }

  /** `analyze_evidence`: a gap score that rewards images and tracking and
      penalises their absence, floored at 0. */
  method AnalyzeEvidence(evidence: seq<Evidence>) returns (score: int, findings: Findings)
    ensures evidence == [] ==> score == 30 && findings == Message(NoEvidence)
    ensures evidence != [] ==> findings.Lines? && |findings.lines| == 3
    ensures evidence != [] ==> 0 <= score <= 35
    ensures score == EvidenceScore(evidence)
    ensures findings == EvidenceFindings(evidence)
    ensures (HasKind(evidence, ImageEvidence) && HasKind(evidence, TextEvidence)
             && HasKind(evidence, TrackingEvidence)) ==> score == 0
    ensures (evidence != [] && !HasKind(evidence, ImageEvidence) && !HasKind(evidence, TextEvidence)
             && !HasKind(evidence, TrackingEvidence)) ==> score == 35
  {
    if evidence == [] {
      return 30, Message(NoEvidence);
    }
    score := 0;
    var lines: seq<string> := [];
    if HasKind(evidence, ImageEvidence) {
      lines := lines + [ProvidedLine(ImageEvidence)];
      score := score - 10;
    } else {
      lines := lines + [MissingLine(ImageEvidence)];
      score := score + 15;
    }
    if HasKind(evidence, TextEvidence) {
      lines := lines + [ProvidedLine(TextEvidence)];
    } else {
      lines := lines + [MissingLine(TextEvidence)];
      score := score + 10;
    }
    if HasKind(evidence, TrackingEvidence) {
      lines := lines + [ProvidedLine(TrackingEvidence)];
      score := score - 15;
    } else {
      lines := lines + [MissingLine(TrackingEvidence)];
      score := score + 10;
    }
    if score < 0 {
      score := 0;
    }
    findings := Lines(lines);
  }

  /** `rule_based_judgment`: the decision table. */
  function RuleBasedJudgment(req: DisputeRequest): (j: Judgment)
    ensures j.responsibility in ResponsibilityRules && j.resolution in ResolutionOptions
    ensures 40 <= j.confidence <= 85
    ensures req.disputeType == NotReceived ==> j.reason != DefaultReason
    ensures j.resolution == "full_refund" ==> !HasKind(req.sellerEvidence, TrackingEvidence)
    ensures j.responsibility == "seller" <==> j.resolution != "manual_review"
    ensures j.responsibility == "seller" ==>
      req.disputeType in {SellerNoShip, Damaged, NotReceived, NotAsDescribed}
  {
    if req.disputeType == SellerNoShip && !HasKind(req.sellerEvidence, TrackingEvidence) then
      Judgment("seller", "full_refund", 85, "卖家未提供发货证明")
    else if req.disputeType == Damaged && HasKind(req.buyerEvidence, ImageEvidence) then
      Judgment("seller", "partial_refund", 70, "买家提供了损坏证据，建议部分退款")
    else if req.disputeType == NotReceived then
      if HasKind(req.sellerEvidence, TrackingEvidence) then
        Judgment("unclear", "manual_review", 50, "卖家有发货记录，需核实物流状态")
      else
        Judgment("seller", "full_refund", 80, "卖家无法证明已发货")
    else if req.disputeType == NotAsDescribed && |req.buyerEvidence| > 0 && |req.sellerEvidence| == 0 then
      Judgment("seller", "partial_refund", 65, "买家提供证据，卖家未反驳")
    else
      Judgment("unclear", "manual_review", 40, DefaultReason)
  }

  /** The confidence of the response before `int()`: the rule's confidence
      lowered by half the gap between the two evidence scores, kept in [30, 95]. */
  function FinalConfidence(ruleConfidence: int, buyerScore: int, sellerScore: int): (c: real)
    ensures 30.0 <= c <= 95.0
    ensures 30 <= ruleConfidence <= 95 ==> c <= ruleConfidence as real
    ensures buyerScore == sellerScore && 30 <= ruleConfidence <= 95 ==> c == ruleConfidence as real
  {
    ClampReal(30.0, 95.0, ruleConfidence as real - Abs(buyerScore - sellerScore) as real * 0.5)
  }

  datatype Tier = High | Medium | Low

  /** The three confidence tiers used for recommendations: >= 80, >= 60, below. */
  function TierOf(confidence: real): Tier
  {
    if confidence >= 80.0 then High else if confidence >= 60.0 then Medium else Low
  }

  function TierLine(t: Tier): string
  {
    match t
    case High => HighTierLine
    case Medium => MediumTierLine
    case Low => LowTierLine
  }

  /** `generate_recommendations`. */
  method GenerateRecommendations(judgment: Judgment, confidence: real) returns (recs: seq<string>)
    ensures |recs| == if judgment.resolution in {"manual_review", "partial_refund"} then 3 else 1
    ensures recs[0] == TierLine(TierOf(confidence))
    ensures judgment.resolution == "manual_review" ==> recs[1..] == ["建议联系双方补充证据", "可考虑视频通话核实情况"]
    ensures judgment.resolution == "partial_refund" ==> recs[1..] == ["建议退款比例: 30-70%", "可协商买家退货后退款"]
  {
    recs := [];
    if confidence >= 80.0 {
      recs := recs + [HighTierLine];
    } else if confidence >= 60.0 {
      recs := recs + [MediumTierLine];
    } else {
      recs := recs + [LowTierLine];
    }
    if judgment.resolution == "manual_review" {
      recs := recs + ["建议联系双方补充证据"];
      recs := recs + ["可考虑视频通话核实情况"];
    }
    if judgment.resolution == "partial_refund" {
      recs := recs + ["建议退款比例: 30-70%"];
      recs := recs + ["可协商买家退货后退款"];
    }
  }

  /** The detailed-reason line for one findings value, as the service writes
      it: `'; '.join(findings)` iterates over the characters when the
      findings are a bare message string. */
  function ReasonLineAsWritten(heading: string, f: Findings): (line: Option<string>)
    ensures line.Some? <==> NonEmpty(f)
    ensures f.Lines? && NonEmpty(f) ==> line == Some(heading + Join(f.lines, "; "))
  {
    if !NonEmpty(f) then None
    else match f
      case Lines(ls) => Some(heading + Join(ls, "; "))
      case Message(t) => Some(heading + JoinChars(t, "; "))
  }

  /** The detailed-reason line with a bare message shown as a single finding. */
  function ReasonLine(heading: string, f: Findings): (line: Option<string>)
    ensures line.Some? <==> NonEmpty(f)
    ensures line.Some? ==> |line.value| >= |heading| && line.value[..|heading|] == heading
    ensures f.Message? && NonEmpty(f) ==> line.value[|heading|..] == f.text
    ensures f.Lines? ==> line == ReasonLineAsWritten(heading, f)
  {
    if !NonEmpty(f) then None
    else match f
      case Lines(ls) => Some(heading + Join(ls, "; "))
      case Message(t) => Some(heading + t)
  }

  /** The service's line for a party without evidence spells the message out
      character by character. */
  lemma AsWrittenSplitsEmptyEvidenceNote()
    ensures ReasonLineAsWritten(BuyerEvidenceLabel, Message(NoEvidence))
            == Some(BuyerEvidenceLabel + "未; 提; 供; 证; 据")
    ensures ReasonLineAsWritten(BuyerEvidenceLabel, Message(NoEvidence))
            != ReasonLine(BuyerEvidenceLabel, Message(NoEvidence))
  {
    var parts := seq(|NoEvidence|, i requires 0 <= i < |NoEvidence| => [NoEvidence[i]]);
    assert parts == ["未", "提", "供", "证", "据"];
    assert Join(parts[4..], "; ") == "据";
    assert Join(parts[3..], "; ") == "证; 据";
    assert Join(parts[2..], "; ") == "供; 证; 据";
    assert Join(parts[1..], "; ") == "提; 供; 证; 据";
    assert Join(parts, "; ") == "未; 提; 供; 证; 据";
    var asWritten := BuyerEvidenceLabel + "未; 提; 供; 证; 据";
    var corrected := BuyerEvidenceLabel + NoEvidence;
    assert |asWritten| != |corrected|;
  }

  function OptionalLine(line: Option<string>): seq<string>
  {
    match line
    case Some(l) => [l]
    case None => []
  }

  /** The AI opinion is shown unless it is empty or reports a failure. */
  predicate ShowsOpinion(ai: string)
  {
    ai != "" && ai != AiFailed
  }

  /** `detailed_reasons`: the rule's reason, the evidence and chat findings
      that are non-empty, and the AI opinion when it is shown. The evidence
      and chat lines use the corrected `ReasonLine`. */
  function DetailedReasons(j: Judgment, buyer: Findings, seller: Findings, chat: Findings, ai: string)
    : (reasons: seq<string>)
    ensures |reasons| == 1 + Flag(NonEmpty(buyer)) + Flag(NonEmpty(seller)) + Flag(NonEmpty(chat)) + Flag(ShowsOpinion(ai))
    ensures reasons[0] == RuleLabel + j.reason
    ensures NonEmpty(buyer) ==> reasons[1] == ReasonLine(BuyerEvidenceLabel, buyer).value
    ensures NonEmpty(seller) ==> reasons[1 + Flag(NonEmpty(buyer))] == ReasonLine(SellerEvidenceLabel, seller).value
    ensures NonEmpty(chat) ==>
      reasons[1 + Flag(NonEmpty(buyer)) + Flag(NonEmpty(seller))] == ReasonLine(ChatLabel, chat).value
    ensures ShowsOpinion(ai) <==> reasons[|reasons| - 1] == AiLabel + ai
  {
    var fixed := [RuleLabel + j.reason]
      + OptionalLine(ReasonLine(BuyerEvidenceLabel, buyer))
      + OptionalLine(ReasonLine(SellerEvidenceLabel, seller))
      + OptionalLine(ReasonLine(ChatLabel, chat));
    // none of these lines carries the AI label
    assert forall i :: 0 <= i < |fixed| ==> |fixed[i]| > 0 && fixed[i][0] != AiLabel[0];
    if ShowsOpinion(ai) then fixed + [AiLabel + ai] else fixed
  }

  /** The corrected lines differ from the service's only where an analyser
      got an empty input: with evidence from a party, or with a chat log,
      the two lines coincide. */
  lemma CorrectionOnlyForEmptyInputs(req: DisputeRequest)
    ensures req.buyerEvidence != [] ==>
      ReasonLine(BuyerEvidenceLabel, EvidenceFindings(req.buyerEvidence))
      == ReasonLineAsWritten(BuyerEvidenceLabel, EvidenceFindings(req.buyerEvidence))
    ensures req.sellerEvidence != [] ==>
      ReasonLine(SellerEvidenceLabel, EvidenceFindings(req.sellerEvidence))
      == ReasonLineAsWritten(SellerEvidenceLabel, EvidenceFindings(req.sellerEvidence))
    ensures req.chatHistory != [] ==>
      ReasonLine(ChatLabel, ChatFindings(req.chatHistory)) == ReasonLineAsWritten(ChatLabel, ChatFindings(req.chatHistory))
  {
  }

  /** A wider gap between the two evidence scores never raises the confidence. */
  lemma ConfidenceAntitoneInGap(ruleConfidence: int, b1: int, s1: int, b2: int, s2: int)
    requires Abs(b1 - s1) <= Abs(b2 - s2)
    ensures FinalConfidence(ruleConfidence, b2, s2) <= FinalConfidence(ruleConfidence, b1, s1)
  {
  }

  /** The `confidence` field of the response. */
  function ResponseConfidence(req: DisputeRequest): int
  {
    Trunc(FinalConfidence(RuleBasedJudgment(req).confidence,
                          EvidenceScore(req.buyerEvidence), EvidenceScore(req.sellerEvidence)))
  }

  /** A parcel that was not received, the seller showing only a tracking
      record and the buyer nothing: the rule's 50 loses half the gap of 20. */
  lemma TrackingAgainstNoEvidence()
    ensures ResponseConfidence(DisputeRequest(NotReceived, [], [Evidence(TrackingEvidence, "", "")], [])) == 40
  {
    var tracking := [Evidence(TrackingEvidence, "", "")];
    assert tracking[0].kind == TrackingEvidence;
    assert !HasKind(tracking, ImageEvidence) && !HasKind(tracking, TextEvidence);
    assert EvidenceScore(tracking) == 10;
    TruncOfInt(40);
  }

  /** `int()` of a non-negative confidence does not change its tier. */
  lemma TierOfTrunc(c: real)
    requires c >= 0.0
    ensures TierOf(Trunc(c) as real) == TierOf(c)
  {
  }

  /** The deterministic part of `analyze_dispute`: everything but the case
      id, the timestamp and the call to the language model, whose answer is
      the parameter `ai`. */
  method AnalyzeDispute(req: DisputeRequest, ai: string) returns (resp: DisputeResponse)
    ensures var j := RuleBasedJudgment(req);
      && resp.responsibility == j.responsibility
      && resp.resolution == j.resolution
      && resp.responsibilityText == ResponsibilityRules[j.responsibility]
      && resp.resolutionText == ResolutionOptions[j.resolution]
      && 30 <= resp.confidence <= j.confidence
      && resp.detailedReasons
         == DetailedReasons(j, EvidenceFindings(req.buyerEvidence), EvidenceFindings(req.sellerEvidence),
                            ChatFindings(req.chatHistory), ai)
    ensures resp.confidence == ResponseConfidence(req) && resp.confidence <= 95
    ensures resp.summary == EvidenceSummary(|req.buyerEvidence|, |req.sellerEvidence|, |req.chatHistory|)
    ensures var j := RuleBasedJudgment(req);
      var c := FinalConfidence(j.confidence, EvidenceScore(req.buyerEvidence), EvidenceScore(req.sellerEvidence));
      && |resp.recommendations| == (if j.resolution in {"manual_review", "partial_refund"} then 3 else 1)
      && resp.recommendations[0] == TierLine(TierOf(c))
      && (j.resolution == "manual_review" ==>
            resp.recommendations[1..] == ["建议联系双方补充证据", "可考虑视频通话核实情况"])
      && (j.resolution == "partial_refund" ==>
            resp.recommendations[1..] == ["建议退款比例: 30-70%", "可协商买家退货后退款"])
    ensures resp.recommendations[0] == TierLine(TierOf(resp.confidence as real))
  {
    var chatScore, chatFindings := AnalyzeChatHistory(req.chatHistory);
    var buyerScore, buyerFindings := AnalyzeEvidence(req.buyerEvidence);
    var sellerScore, sellerFindings := AnalyzeEvidence(req.sellerEvidence);
    var judgment := RuleBasedJudgment(req);

    var finalConfidence := FinalConfidence(judgment.confidence, buyerScore, sellerScore);
    var reasons := DetailedReasons(judgment, buyerFindings, sellerFindings, chatFindings, ai);
    var recs := GenerateRecommendations(judgment, finalConfidence);
    var confidence := Trunc(finalConfidence);
    TierOfTrunc(finalConfidence);
    resp := DisputeResponse(
      judgment.responsibility,
      ResponsibilityRules[judgment.responsibility],
      judgment.resolution,
      ResolutionOptions[judgment.resolution],
      confidence,
      reasons,
      EvidenceSummary(|req.buyerEvidence|, |req.sellerEvidence|, |req.chatHistory|),
      recs);
  }
}
